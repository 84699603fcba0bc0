/** The interaction state of the pipeline graph widget
    (audiokit/cli/widgets/pipeline.py): which node a click hits, how clicks
    select nodes and start, complete or delete connections, and which style
    and title the state selects. Node ids follow Python truthiness: an
    empty id counts as no node. Layout and drawing are not modelled. */
module PipelineWidget {
  import opened Wrappers
  import opened Json

  /** A cursor cell. */
  datatype Pos = Pos(x: int, y: int)

  /** A node position: the force-directed layout leaves fractional
      coordinates. */
  datatype Point = Point(x: real, y: real)

  function Abs(v: real): real {
    if v < 0.0 then -v else v
  }

  /** `_is_over_node`: the cursor is less than two cells from the node's
      position on both axes. */
  function IsOverNode(cursor: Pos, node: Point): (r: bool)
    ensures r <==> node.x - 2.0 < cursor.x as real < node.x + 2.0 && node.y - 2.0 < cursor.y as real < node.y + 2.0
  {
    Abs(cursor.x as real - node.x) < 2.0 && Abs(cursor.y as real - node.y) < 2.0
  }

  /** A node whose position is whole is hit from the three-by-three block
      of cells around it; one at a half-cell position is hit from a
      four-by-four block. */
  lemma HitRegion(cursor: Pos, node: Pos)
    ensures IsOverNode(cursor, Point(node.x as real, node.y as real)) <==>
      -1 <= cursor.x - node.x <= 1 && -1 <= cursor.y - node.y <= 1
    ensures IsOverNode(cursor, Point(node.x as real + 0.5, node.y as real + 0.5)) <==>
      -1 <= cursor.x - node.x <= 2 && -1 <= cursor.y - node.y <= 2
  {
  }

  datatype State = State(
    positions: seq<(string, Point)>,   // in the dictionary's insertion order
    hover: Option<string>,
    selected: Option<string>,
    connecting: Option<string>,
    active: set<string>)

  datatype Action = Create | Delete
  datatype Message = Connection(from: string, to: string, action: Action)

  datatype Click = Click(at: Pos, button: int, shift: bool)

  /** The first node, in position order, under the cursor. */
  function FirstHit(positions: seq<(string, Point)>, at: Pos): (r: Option<nat>)
    ensures r.None? <==> forall i :: 0 <= i < |positions| ==> !IsOverNode(at, positions[i].1)
    ensures r.Some? ==> r.value < |positions| && IsOverNode(at, positions[r.value].1) &&
                        forall i :: 0 <= i < r.value ==> !IsOverNode(at, positions[i].1)
  {
    if |positions| == 0 then None
    else if IsOverNode(at, positions[0].1) then Some(0)
    else match FirstHit(positions[1..], at)
      case None => None
      case Some(k) => Some(k + 1)
  }

  function ClickedNode(s: State, at: Pos): (r: Option<string>)
    ensures r.Some? ==> exists i :: 0 <= i < |s.positions| && s.positions[i].0 == r.value &&
                                    IsOverNode(at, s.positions[i].1)
  {
    match FirstHit(s.positions, at)
    case None => None
    case Some(i) => Some(s.positions[i].0)
  }

  /** `on_click`: the new state and the message posted, if any. */
  function OnClick(s: State, c: Click): (r: (State, Option<Message>))
    ensures !TruthyStr(ClickedNode(s, c.at)) ==> r == (s, None)
    ensures c.button != 1 ==> r.0 == s
    ensures c.button != 1 && c.button != 3 ==> r.1.None?
    ensures r.1.Some? && r.1.value.action == Create ==>
      c.button == 1 && TruthyStr(s.connecting) && r.1.value.from == s.connecting.value &&
      Some(r.1.value.to) == ClickedNode(s, c.at) && r.1.value.to != r.1.value.from
    ensures r.1.Some? && r.1.value.action == Delete ==>
      c.button == 3 && TruthyStr(s.selected) && r.1.value.from == s.selected.value &&
      Some(r.1.value.to) == ClickedNode(s, c.at)
    ensures TruthyStr(ClickedNode(s, c.at)) && c.button == 1 && TruthyStr(s.connecting) ==>
      r.0 == s.(connecting := None)
    ensures TruthyStr(ClickedNode(s, c.at)) && c.button == 1 && !TruthyStr(s.connecting) ==>
      r.1.None? &&
      r.0 == (if c.shift then s.(connecting := ClickedNode(s, c.at)) else s.(selected := ClickedNode(s, c.at)))
    // completing a pending connection posts exactly when the target differs
    ensures TruthyStr(ClickedNode(s, c.at)) && c.button == 1 && TruthyStr(s.connecting) ==>
      (r.1.Some? <==> ClickedNode(s, c.at) != s.connecting)
    // a right click posts the deletion exactly when a node is selected
    ensures TruthyStr(ClickedNode(s, c.at)) && c.button == 3 ==>
      (r.1.Some? <==> TruthyStr(s.selected))
  {
    var clicked := ClickedNode(s, c.at);
    if !TruthyStr(clicked) then (s, None)
    else if c.button == 1 then
      if TruthyStr(s.connecting) then
        var msg := if clicked.value != s.connecting.value then Some(Connection(s.connecting.value, clicked.value, Create)) else None;
        (s.(connecting := None), msg)
      else if c.shift then (s.(connecting := clicked), None)
      else (s.(selected := clicked), None)
    else if c.button == 3 then
      (s, if TruthyStr(s.selected) then Some(Connection(s.selected.value, clicked.value, Delete)) else None)
    else (s, None)
  }

  /** A shift-click on one node and a click on another create one
      connection between them, and leave the widget out of connecting
      mode with the selection untouched. */
  lemma ShiftClickConnects(s: State, a: Click, b: Click)
    requires !TruthyStr(s.connecting)
    requires a.button == 1 && a.shift && b.button == 1
    requires TruthyStr(ClickedNode(s, a.at)) && TruthyStr(ClickedNode(s, b.at))
    requires ClickedNode(s, a.at) != ClickedNode(s, b.at)
    ensures var (s1, m1) := OnClick(s, a);
            var (s2, m2) := OnClick(s1, b);
            m1.None? && m2 == Some(Connection(ClickedNode(s, a.at).value, ClickedNode(s, b.at).value, Create)) &&
            s2.connecting.None? && s2.selected == s.selected
  {
    var s1 := OnClick(s, a).0;
    assert s1.positions == s.positions;
    assert ClickedNode(s1, b.at) == ClickedNode(s, b.at);
  }

  /** Clicking the node connecting started from cancels connecting mode
      without a message. */
  lemma ClickOnSourceCancels(s: State, c: Click)
    requires TruthyStr(s.connecting) && c.button == 1 && ClickedNode(s, c.at) == s.connecting
    ensures OnClick(s, c) == (s.(connecting := None), None)
  {
  }

  /** The style a node is drawn in: selection beats hover, hover beats the
      connection source, which beats activity. */
  function Style(s: State, id: string): (r: string)
    ensures Some(id) == s.selected ==> r == "bold white on blue"
    ensures Some(id) != s.selected && Some(id) == s.hover ==> r == "bold white on cyan"
    ensures Some(id) != s.selected && Some(id) != s.hover && Some(id) == s.connecting ==> r == "bold yellow"
    ensures Some(id) !in {s.selected, s.hover, s.connecting} && id in s.active ==> r == "bold green"
    ensures Some(id) !in {s.selected, s.hover, s.connecting} && id !in s.active ==> r == "bold cyan"
  {
    if Some(id) == s.selected then "bold white on blue"
    else if Some(id) == s.hover then "bold white on cyan"
    else if Some(id) == s.connecting then "bold yellow"
    else if id in s.active then "bold green"
    else "bold cyan"
  }

  /** Every node is drawn in one of the five styles. */
  lemma StylesKnown(s: State, id: string)
    ensures Style(s, id) in {"bold white on blue", "bold white on cyan", "bold yellow", "bold green", "bold cyan"}
  {
  }

  const BaseTitle := "Pipeline Graph"
  const ConnectingSuffix := " (Shift+Click to connect nodes)"
  const SelectedPrefix := " (Selected: "

  /** The panel title: connecting mode is announced in preference to the
      selection. */
  function Title(s: State): (r: string)
    ensures TruthyStr(s.connecting) ==> r == BaseTitle + ConnectingSuffix
    ensures !TruthyStr(s.connecting) && TruthyStr(s.selected) ==> r == BaseTitle + SelectedPrefix + s.selected.value + ")"
    ensures !TruthyStr(s.connecting) && !TruthyStr(s.selected) ==> r == BaseTitle
  {
    if TruthyStr(s.connecting) then BaseTitle + ConnectingSuffix
    else if TruthyStr(s.selected) then BaseTitle + SelectedPrefix + s.selected.value + ")"
    else BaseTitle
  }

  /** After a shift-click on a node the title announces connecting mode,
      whatever was selected. */
  lemma ShiftClickTitle(s: State, c: Click)
    requires !TruthyStr(s.connecting) && c.button == 1 && c.shift && TruthyStr(ClickedNode(s, c.at))
    ensures Title(OnClick(s, c).0) == BaseTitle + ConnectingSuffix
  {
  }
}
