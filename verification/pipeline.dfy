/** The pipeline commands of audiokit/cli/pipeline.py over an already-parsed
    YAML document: `create` builds a graph, `validate` checks node types and
    (when strict) parameter names, `template` picks one of two canned
    configurations. Every failure of `create` or `validate` ends the command
    with exit status 1; the printed messages are not modelled. */
module PipelineCli {
  import opened Wrappers
  import opened Json
  import Nodes
  import Filter
  import Graph

  /** `j[key]`: only a dictionary holding the key can be subscripted by a
      string without raising. */
  function Field(j: Json, key: string): (r: Option<Json>)
    ensures r.Some? <==> j.JObj? && key in j.fields
    ensures r.Some? ==> r.value == j.fields[key]
  {
    if j.JObj? && key in j.fields then Some(j.fields[key]) else None
  }

  /** The entries a `for` loop over `j` yields when each entry is then
      subscripted by a string. A list yields its items; an empty dictionary
      or string yields nothing; a non-empty one yields strings, whose first
      subscript raises; any other value is not iterable. */
  function Entries(j: Json): (r: Option<seq<Json>>)
    ensures j.JList? ==> r == Some(j.items)
    ensures j.JObj? ==> (r.Some? <==> |j.fields| == 0)
    ensures j.JStr? ==> (r.Some? <==> |j.s| == 0)
    ensures r.Some? ==> j.JList? || |r.value| == 0
    ensures !(j.JList? || j.JObj? || j.JStr?) ==> r.None?
  {
    match j
    case JList(items) => Some(items)
    case JObj(fields) => if |fields| == 0 then Some([]) else None
    case JStr(s) => if |s| == 0 then Some([]) else None
    case _ => None
  }

  /** `get_available_nodes()[t]`. */
  function KindOf(t: Json): (r: Option<Nodes.Kind>)
    ensures r.Some? <==> t.JStr? && t.s in Nodes.Registry
    ensures r.Some? ==> r.value == Nodes.Registry[t.s]
  {
    if t.JStr? && t.s in Nodes.Registry then Some(Nodes.Registry[t.s]) else None
  }

  datatype CreateError =
    | Malformed                          // KeyError / TypeError on the document's shape
    | UnknownType(t: Json)               // not a key of the registry
    | NodeFailed(ne: Nodes.NodeError)    // the node's constructor raised
    | GraphFailed(ge: Graph.GraphError)  // `add_node` or `connect` raised

  function Need<T>(o: Option<T>, e: CreateError): (r: Result<T, CreateError>)
    ensures o.Some? ==> r == Ok(o.value)
    ensures o.None? ==> r == Err(e)
  {
    if o.Some? then Ok(o.value) else Err(e)
  }

  /** One node entry: `registry[type](id, **params)` with `params`
      defaulting to `{}`. */
  function BuildEntry(e: Json, butter: real -> Filter.Coeffs): (r: Result<Nodes.Node, CreateError>)
    ensures r.Ok? ==> && Field(e, "type").Some? && Field(e, "id").Some?
                      && KindOf(Field(e, "type").value).Some?
                      && r.value.kind == KindOf(Field(e, "type").value).value
                      && r.value.id == Field(e, "id").value
                      && JObj(r.value.params) == Get(e.fields, "params", JObj(map[]))
  {
    var t :- Need(Field(e, "type"), Malformed);
    var id :- Need(Field(e, "id"), Malformed);
    var params := Get(e.fields, "params", JObj(map[]));
    var kind :- Need(KindOf(t), UnknownType(t));
    if !params.JObj? then Err(Malformed)
    else
      match Nodes.Build(kind, id, params.fields, butter)
      case Err(ne) => Err(NodeFailed(ne))
      case Ok(node) => Ok(node)
  }

  /** The node loop, in document order. */
  function AddAll(g: Graph.Graph, entries: seq<Json>, butter: real -> Filter.Coeffs)
    : (r: Result<Graph.Graph, CreateError>)
    ensures r.Ok? ==> r.value.connections == g.connections
    ensures r.Ok? ==> forall i :: 0 <= i < |entries| ==> BuildEntry(entries[i], butter).Ok?
    ensures r.Ok? ==> g.nodes.Keys <= r.value.nodes.Keys
    decreases |entries|
  {
    if |entries| == 0 then Ok(g)
    else
      var node :- BuildEntry(entries[0], butter);
      match Graph.AddNode(g, node)
      case Err(ge) => Err(GraphFailed(ge))
      case Ok(g1) =>
        var r := AddAll(g1, entries[1..], butter);
        assert r.Ok? ==> forall i :: 1 <= i < |entries| ==> entries[i] == entries[1..][i - 1];
        r
  }

  /** The endpoints a connection entry names. */
  function Endpoints(c: Json): Option<(Json, Json)> {
    match (Field(c, "from"), Field(c, "to"))
    case (Some(a), Some(b)) => Some((a, b))
    case _ => None
  }

  /** The connection loop, in document order. */
  function ConnectAll(g: Graph.Graph, conns: seq<Json>): (r: Result<Graph.Graph, CreateError>)
    ensures r.Ok? ==> r.value.nodes == g.nodes
    ensures r.Ok? ==> forall i :: 0 <= i < |conns| ==> Endpoints(conns[i]).Some?
    ensures r.Ok? ==> |r.value.connections| == |g.connections| + |conns|
    ensures r.Ok? ==> r.value.connections[..|g.connections|] == g.connections
    ensures r.Ok? ==> forall i :: 0 <= i < |conns| ==>
      r.value.connections[|g.connections| + i] == Endpoints(conns[i]).value
    decreases |conns|
  {
    if |conns| == 0 then Ok(g)
    else
      var ends :- Need(Endpoints(conns[0]), Malformed);
      match Graph.Connect(g, ends.0, ends.1)
      case Err(ge) => Err(GraphFailed(ge))
      case Ok(g1) =>
        var r := ConnectAll(g1, conns[1..]);
        assert r.Ok? ==> forall i :: 1 <= i < |conns| ==> conns[i] == conns[1..][i - 1];
        assert r.Ok? ==> r.value.connections[..|g.connections|] == g.connections by {
          if r.Ok? {
            assert r.value.connections[..|g1.connections|][..|g.connections|] == g.connections;
          }
        }
        r
  }

  /** `create`: every node first, then every connection. */
  function Create(config: Json, butter: real -> Filter.Coeffs): (r: Result<Graph.Graph, CreateError>)
    ensures r.Ok? ==> Field(config, "nodes").Some? && Entries(Field(config, "nodes").value).Some?
    ensures r.Ok? ==> Field(config, "connections").Some? && Entries(Field(config, "connections").value).Some?
  {
    var nodesJson :- Need(Field(config, "nodes"), Malformed);
    var entries :- Need(Entries(nodesJson), Malformed);
    var g :- AddAll(Graph.Empty(), entries, butter);
    var connsJson :- Need(Field(config, "connections"), Malformed);
    var conns :- Need(Entries(connsJson), Malformed);
    ConnectAll(g, conns)
  }

  /** A created graph holds exactly the configured connections, in order. */
  lemma CreateConnectionsInOrder(config: Json, butter: real -> Filter.Coeffs)
    requires Create(config, butter).Ok?
    ensures var conns := Entries(Field(config, "connections").value).value;
      var g := Create(config, butter).value;
      |g.connections| == |conns| &&
      forall i :: 0 <= i < |conns| ==> Endpoints(conns[i]).Some? && g.connections[i] == Endpoints(conns[i]).value
  {
    var entries := Entries(Field(config, "nodes").value).value;
    var g0 := AddAll(Graph.Empty(), entries, butter).value;
    var conns := Entries(Field(config, "connections").value).value;
    assert Create(config, butter) == ConnectAll(g0, conns);
    assert |g0.connections| == 0;
  }

  lemma {:induction false} AddAllWellFormed(g: Graph.Graph, entries: seq<Json>, butter: real -> Filter.Coeffs)
    requires Graph.WellFormed(g)
    ensures AddAll(g, entries, butter).Ok? ==> Graph.WellFormed(AddAll(g, entries, butter).value)
    decreases |entries|
  {
    if |entries| > 0 && BuildEntry(entries[0], butter).Ok? {
      var node := BuildEntry(entries[0], butter).value;
      Graph.AddNodePreserves(g, node);
      if Graph.AddNode(g, node).Ok? {
        AddAllWellFormed(Graph.AddNode(g, node).value, entries[1..], butter);
      }
    }
  }

  lemma {:induction false} ConnectAllWellFormed(g: Graph.Graph, conns: seq<Json>)
    requires Graph.WellFormed(g)
    ensures ConnectAll(g, conns).Ok? ==> Graph.WellFormed(ConnectAll(g, conns).value)
    decreases |conns|
  {
    if |conns| > 0 && Endpoints(conns[0]).Some? {
      var ends := Endpoints(conns[0]).value;
      Graph.ConnectPreserves(g, ends.0, ends.1);
      if Graph.Connect(g, ends.0, ends.1).Ok? {
        ConnectAllWellFormed(Graph.Connect(g, ends.0, ends.1).value, conns[1..]);
      }
    }
  }

  /** A created graph is well formed: every node sits under its own id and
      every connection joins two configured nodes. */
  lemma CreateWellFormed(config: Json, butter: real -> Filter.Coeffs)
    requires Create(config, butter).Ok?
    ensures Graph.WellFormed(Create(config, butter).value)
  {
    var entries := Entries(Field(config, "nodes").value).value;
    AddAllWellFormed(Graph.Empty(), entries, butter);
    var g := AddAll(Graph.Empty(), entries, butter).value;
    ConnectAllWellFormed(g, Entries(Field(config, "connections").value).value);
  }

  // ---------------------------------------------------------------------
  // validate

  /** The parameter names a strict check walks: the keys of a dictionary,
      the items of a list, the characters of a string; all must be declared
      names. Anything else is not iterable. */
  predicate ParamNamesDeclared(params: Json, declared: map<string, Nodes.Descriptor>) {
    match params
    case JObj(fields) => forall k :: k in fields ==> k in declared
    case JList(items) => forall i :: 0 <= i < |items| ==> items[i].JStr? && items[i].s in declared
    case JStr(s) => forall i :: 0 <= i < |s| ==> [s[i]] in declared
    case _ => false
  }

  /** One node entry passes: its type is registered and, when strict, every
      parameter name is declared by that type. Ids are not looked at. */
  predicate EntryValid(e: Json, strict: bool, declared: Nodes.Kind -> map<string, Nodes.Descriptor>) {
    && Field(e, "type").Some?
    && KindOf(Field(e, "type").value).Some?
    && (strict ==>
          ParamNamesDeclared(Get(e.fields, "params", JObj(map[])),
                             declared(KindOf(Field(e, "type").value).value)))
  }

  /** `validate` with the given descriptor table: true is exit status 0. */
  predicate ValidateWith(config: Json, strict: bool, declared: Nodes.Kind -> map<string, Nodes.Descriptor>) {
    && Field(config, "nodes").Some?
    && Entries(Field(config, "nodes").value).Some?
    && var entries := Entries(Field(config, "nodes").value).value;
       forall i :: 0 <= i < |entries| ==> EntryValid(entries[i], strict, declared)
  }

  /** `validate` against the node classes' descriptors as written. */
  predicate ValidateAsWritten(config: Json, strict: bool) {
    ValidateWith(config, strict, Nodes.ParametersAsWritten)
  }

  /** `validate` against descriptors that declare every parameter each
      constructor reads. */
  predicate Validate(config: Json, strict: bool) {
    ValidateWith(config, strict, Nodes.Parameters)
  }

  /** Non-strict validation accepts exactly the documents whose node list
      can be walked and whose every node names a registered type. */
  lemma NonStrictIsTypeCheck(config: Json)
    ensures Validate(config, false) <==>
      && Field(config, "nodes").Some? && Entries(Field(config, "nodes").value).Some?
      && var entries := Entries(Field(config, "nodes").value).value;
         forall i :: 0 <= i < |entries| ==>
           Field(entries[i], "type").Some? && Field(entries[i], "type").value.JStr? &&
           Field(entries[i], "type").value.s in Nodes.Registry
  {
  }

  /** A strict pass implies a non-strict pass, and `sample_rate` is
      accepted for every registered type. */
  lemma StrictImpliesNonStrict(config: Json)
    ensures Validate(config, true) ==> Validate(config, false)
    ensures forall name :: name in Nodes.Registry ==> "sample_rate" in Nodes.Parameters(Nodes.Registry[name])
  {
    forall name | name in Nodes.Registry
      ensures "sample_rate" in Nodes.Parameters(Nodes.Registry[name])
    {
      Nodes.SampleRateInherited(Nodes.Registry[name]);
    }
  }

  /** `validate` never looks at `connections`. */
  lemma ValidateIgnoresConnections(fields: map<string, Json>, conns: Json, strict: bool)
    ensures Validate(JObj(fields), strict) == Validate(JObj(fields["connections" := conns]), strict)
    ensures ValidateAsWritten(JObj(fields), strict) ==
            ValidateAsWritten(JObj(fields["connections" := conns]), strict)
  {
    assert Field(JObj(fields), "nodes") == Field(JObj(fields["connections" := conns]), "nodes");
  }

  lemma {:induction false} AddAllTypesValid(g: Graph.Graph, entries: seq<Json>, butter: real -> Filter.Coeffs, i: int)
    requires AddAll(g, entries, butter).Ok?
    requires 0 <= i < |entries|
    ensures EntryValid(entries[i], false, Nodes.Parameters)
  {
    assert BuildEntry(entries[i], butter).Ok?;
  }

  /** A document `create` accepts also passes non-strict validation; the
      converse fails, since validation ignores connections. */
  lemma CreateImpliesValid(config: Json, butter: real -> Filter.Coeffs)
    ensures Create(config, butter).Ok? ==> Validate(config, false)
    ensures Validate(JObj(map["nodes" := JList([])]), true)
    ensures Create(JObj(map["nodes" := JList([])]), butter) == Err(Malformed)
  {
    if Create(config, butter).Ok? {
      var entries := Entries(Field(config, "nodes").value).value;
      forall i | 0 <= i < |entries|
        ensures EntryValid(entries[i], false, Nodes.Parameters)
      {
        AddAllTypesValid(Graph.Empty(), entries, butter, i);
      }
    }
  }

  // ---------------------------------------------------------------------
  // template

  function NodeEntry(id: string, t: string, params: map<string, Json>): Json {
    JObj(map["id" := JStr(id), "type" := JStr(t), "params" := JObj(params)])
  }

  function Edge(from: string, to: string): Json {
    JObj(map["from" := JStr(from), "to" := JStr(to)])
  }

  const InputEntry := NodeEntry("input", "AudioInputNode", map["channels" := JInt(2), "sample_rate" := JInt(44100)])
  const OutputEntry := NodeEntry("output", "AudioOutputNode", map["channels" := JInt(2)])
  const FilterEntry := NodeEntry("filter", "AudioFilterNode", map["cutoff" := JInt(1000), "resonance" := JReal(0.7)])

  const BasicTemplate := JObj(map[
    "nodes" := JList([InputEntry, OutputEntry]),
    "connections" := JList([Edge("input", "output")])])

  const FilterTemplate := JObj(map[
    "nodes" := JList([InputEntry, FilterEntry, OutputEntry]),
    "connections" := JList([Edge("input", "filter"), Edge("filter", "output")])])

  /** `template --type name`: only "basic" and "filter" exist; any other
      name, the advertised "effect" included, ends with exit status 1. */
  function Template(name: string): (r: Option<Json>)
    ensures r.Some? <==> name == "basic" || name == "filter"
  {
    if name == "basic" then Some(BasicTemplate)
    else if name == "filter" then Some(FilterTemplate)
    else None
  }

  /** The ids the node entries of a document give, as dictionary keys. */
  function EntryKeys(entries: seq<Json>, butter: real -> Filter.Coeffs): set<Graph.Key>
    requires forall i :: 0 <= i < |entries| ==> BuildEntry(entries[i], butter).Ok?
  {
    set i | 0 <= i < |entries| && Graph.ToKey(BuildEntry(entries[i], butter).value.id).Some? ::
      Graph.ToKey(BuildEntry(entries[i], butter).value.id).value
  }

  /** The keys of a list of entries are the first entry's key and the
      keys of the rest. */
  lemma EntryKeysCons(entries: seq<Json>, butter: real -> Filter.Coeffs)
    requires |entries| > 0 && forall i :: 0 <= i < |entries| ==> BuildEntry(entries[i], butter).Ok?
    requires Graph.ToKey(BuildEntry(entries[0], butter).value.id).Some?
    ensures EntryKeys(entries, butter) ==
      {Graph.ToKey(BuildEntry(entries[0], butter).value.id).value} + EntryKeys(entries[1..], butter)
  {
    var rest := entries[1..];
    var k := Graph.ToKey(BuildEntry(entries[0], butter).value.id).value;
    forall x | x in EntryKeys(entries, butter)
      ensures x in {k} + EntryKeys(rest, butter)
    {
      var i :| 0 <= i < |entries| && Graph.ToKey(BuildEntry(entries[i], butter).value.id).Some? &&
               x == Graph.ToKey(BuildEntry(entries[i], butter).value.id).value;
      if i > 0 { assert entries[i] == rest[i - 1]; }
    }
    forall x | x in EntryKeys(rest, butter)
      ensures x in EntryKeys(entries, butter)
    {
      var i :| 0 <= i < |rest| && Graph.ToKey(BuildEntry(rest[i], butter).value.id).Some? &&
               x == Graph.ToKey(BuildEntry(rest[i], butter).value.id).value;
      assert rest[i] == entries[i + 1];
    }
  }

  /** The node loop succeeds exactly when every entry builds and has a
      hashable id. */
  lemma {:induction false} AddAllSucceeds(g: Graph.Graph, entries: seq<Json>, butter: real -> Filter.Coeffs)
    ensures AddAll(g, entries, butter).Ok? <==>
      forall i :: 0 <= i < |entries| ==>
        BuildEntry(entries[i], butter).Ok? && Graph.ToKey(BuildEntry(entries[i], butter).value.id).Some?
    decreases |entries|
  {
    if |entries| > 0 {
      var rest := entries[1..];
      assert forall i :: 1 <= i < |entries| ==> entries[i] == rest[i - 1];
      if BuildEntry(entries[0], butter).Ok? {
        var node := BuildEntry(entries[0], butter).value;
        if Graph.AddNode(g, node).Ok? {
          AddAllSucceeds(Graph.AddNode(g, node).value, rest, butter);
        }
      }
    }
  }

  /** A successful node loop adds one key per entry to the graph. */
  lemma {:induction false} AddAllKeySet(g: Graph.Graph, entries: seq<Json>, butter: real -> Filter.Coeffs)
    requires AddAll(g, entries, butter).Ok?
    ensures AddAll(g, entries, butter).value.nodes.Keys == g.nodes.Keys + EntryKeys(entries, butter)
    decreases |entries|
  {
    if |entries| > 0 {
      var node := BuildEntry(entries[0], butter).value;
      var g1 := Graph.AddNode(g, node).value;
      AddAllKeySet(g1, entries[1..], butter);
      EntryKeysCons(entries, butter);
    }
  }

  /** The node loop succeeds exactly when every entry builds and has a
      hashable id, and then adds one key per entry to the graph. */
  lemma AddAllKeys(g: Graph.Graph, entries: seq<Json>, butter: real -> Filter.Coeffs)
    ensures AddAll(g, entries, butter).Ok? <==>
      forall i :: 0 <= i < |entries| ==>
        BuildEntry(entries[i], butter).Ok? && Graph.ToKey(BuildEntry(entries[i], butter).value.id).Some?
    ensures AddAll(g, entries, butter).Ok? ==>
      AddAll(g, entries, butter).value.nodes.Keys == g.nodes.Keys + EntryKeys(entries, butter)
  {
    AddAllSucceeds(g, entries, butter);
    if AddAll(g, entries, butter).Ok? {
      AddAllKeySet(g, entries, butter);
    }
  }

  /** The connection loop succeeds when every entry names two nodes of the
      graph. */
  lemma {:induction false} ConnectAllSucceeds(g: Graph.Graph, conns: seq<Json>)
    requires forall i :: 0 <= i < |conns| ==>
      && Endpoints(conns[i]).Some?
      && Graph.ToKey(Endpoints(conns[i]).value.0).Some? && Graph.ToKey(Endpoints(conns[i]).value.0).value in g.nodes
      && Graph.ToKey(Endpoints(conns[i]).value.1).Some? && Graph.ToKey(Endpoints(conns[i]).value.1).value in g.nodes
    ensures ConnectAll(g, conns).Ok?
    decreases |conns|
  {
    if |conns| > 0 {
      var rest := conns[1..];
      assert forall i :: 0 <= i < |rest| ==> rest[i] == conns[i + 1];
      var ends := Endpoints(conns[0]).value;
      ConnectAllSucceeds(Graph.Connect(g, ends.0, ends.1).value, rest);
    }
  }

  lemma EntryBuilds(e: Json, id: string, t: string, params: map<string, Json>, butter: real -> Filter.Coeffs)
    requires e == NodeEntry(id, t, params)
    requires t in Nodes.Registry && "node_id" !in params
    requires Nodes.Registry[t] != Nodes.FilterNode
    ensures BuildEntry(e, butter).Ok? && BuildEntry(e, butter).value.id == JStr(id)
  {
    assert Field(e, "type") == Some(JStr(t));
    assert Field(e, "id") == Some(JStr(id));
    assert Get(e.fields, "params", JObj(map[])) == JObj(params);
    Nodes.RegistryContents();
  }

  lemma FilterEntryBuilds(butter: real -> Filter.Coeffs)
    ensures BuildEntry(FilterEntry, butter).Ok? && BuildEntry(FilterEntry, butter).value.id == JStr("filter")
  {
    var p := map["cutoff" := JInt(1000), "resonance" := JReal(0.7)];
    assert Field(FilterEntry, "type") == Some(JStr("AudioFilterNode"));
    assert Field(FilterEntry, "id") == Some(JStr("filter"));
    assert Get(FilterEntry.fields, "params", JObj(map[])) == JObj(p);
    assert KindOf(JStr("AudioFilterNode")) == Some(Nodes.FilterNode);
    assert Get(p, "sample_rate", JInt(44100)) == JInt(44100);
    assert Get(p, "cutoff", JInt(1000)) == JInt(1000);
    assert Nodes.FilterDesign(JInt(44100), JInt(1000), butter).Ok?;
  }

  /** `create` on a document whose node and connection lists are lists:
      the connection loop runs on the graph the node loop built. */
  lemma CreateOfLists(config: Json, entries: seq<Json>, conns: seq<Json>, butter: real -> Filter.Coeffs)
    requires Field(config, "nodes") == Some(JList(entries))
    requires Field(config, "connections") == Some(JList(conns))
    requires AddAll(Graph.Empty(), entries, butter).Ok?
    ensures Create(config, butter) == ConnectAll(AddAll(Graph.Empty(), entries, butter).value, conns)
  {
  }

  function ChainEdges(ids: seq<string>): (r: seq<Json>)
    ensures |r| == if |ids| == 0 then 0 else |ids| - 1
  {
    if |ids| <= 1 then [] else seq(|ids| - 1, i requires 0 <= i < |ids| - 1 => Edge(ids[i], ids[i + 1]))
  }

  function ChainPairs(ids: seq<string>): (r: seq<(Json, Json)>)
    ensures |r| == if |ids| == 0 then 0 else |ids| - 1
    ensures forall i :: 0 <= i < |r| ==> r[i] == (JStr(ids[i]), JStr(ids[i + 1]))
  {
    if |ids| <= 1 then [] else seq(|ids| - 1, i requires 0 <= i < |ids| - 1 => (JStr(ids[i]), JStr(ids[i + 1])))
  }

  /** Each link of the chain names the pair of consecutive ids. */
  lemma ChainEndpoints(ids: seq<string>)
    ensures forall i :: 0 <= i < |ChainEdges(ids)| ==> Endpoints(ChainEdges(ids)[i]) == Some(ChainPairs(ids)[i])
  {
    forall i | 0 <= i < |ChainEdges(ids)|
      ensures Endpoints(ChainEdges(ids)[i]) == Some(ChainPairs(ids)[i])
    {
      EdgeEndpoints(ids[i], ids[i + 1]);
    }
  }

  /** Connecting ids of the graph in a chain succeeds. */
  lemma ChainSucceeds(g: Graph.Graph, ids: seq<string>)
    requires forall i :: 0 <= i < |ids| ==> Graph.KStr(ids[i]) in g.nodes
    ensures ConnectAll(g, ChainEdges(ids)).Ok?
  {
    var conns := ChainEdges(ids);
    ChainEndpoints(ids);
    forall i | 0 <= i < |conns|
      ensures Graph.ToKey(Endpoints(conns[i]).value.0) == Some(Graph.KStr(ids[i]))
      ensures Graph.ToKey(Endpoints(conns[i]).value.1) == Some(Graph.KStr(ids[i + 1]))
    {
    }
    ConnectAllSucceeds(g, conns);
  }

  /** Connecting ids of the graph in a chain succeeds and appends the chain. */
  lemma ChainConnects(g: Graph.Graph, ids: seq<string>)
    requires forall i :: 0 <= i < |ids| ==> Graph.KStr(ids[i]) in g.nodes
    ensures var r := ConnectAll(g, ChainEdges(ids));
      r.Ok? && r.value.nodes == g.nodes && r.value.connections == g.connections + ChainPairs(ids)
  {
    var conns := ChainEdges(ids);
    ChainSucceeds(g, ids);
    ChainEndpoints(ids);
    ConnectAllAppends(g, conns, ChainPairs(ids));
  }

  /** A successful connection loop appends the endpoints of each entry. */
  lemma ConnectAllAppends(g: Graph.Graph, conns: seq<Json>, pairs: seq<(Json, Json)>)
    requires ConnectAll(g, conns).Ok?
    requires |pairs| == |conns|
    requires forall i :: 0 <= i < |conns| ==> Endpoints(conns[i]) == Some(pairs[i])
    ensures ConnectAll(g, conns).value.connections == g.connections + pairs
  {
    var c := ConnectAll(g, conns).value.connections;
    var n := |g.connections|;
    forall i | 0 <= i < |pairs|
      ensures c[n + i] == pairs[i]
    {
      assert c[n + i] == Endpoints(conns[i]).value;
    }
    SplitAt(c, g.connections, pairs);
  }

  /** A sequence that starts with `front` and continues element by element
      with `back` is `front + back`. */
  lemma SplitAt<T>(c: seq<T>, front: seq<T>, back: seq<T>)
    requires |c| == |front| + |back|
    requires c[..|front|] == front
    requires forall i :: 0 <= i < |back| ==> c[|front| + i] == back[i]
    ensures c == front + back
  {
    assert c[|front|..] == back;
    assert c == c[..|front|] + c[|front|..];
  }

  lemma EdgeEndpoints(a: string, b: string)
    ensures Endpoints(Edge(a, b)) == Some((JStr(a), JStr(b)))
  {
  }

  /** Entries whose ids are the given strings have exactly those keys. */
  lemma EntryKeysOfIds(entries: seq<Json>, ids: seq<string>, butter: real -> Filter.Coeffs)
    requires |entries| == |ids|
    requires forall i :: 0 <= i < |entries| ==>
      BuildEntry(entries[i], butter).Ok? && BuildEntry(entries[i], butter).value.id == JStr(ids[i])
    ensures EntryKeys(entries, butter) == set i | 0 <= i < |ids| :: Graph.KStr(ids[i])
  {
    var want := set i | 0 <= i < |ids| :: Graph.KStr(ids[i]);
    var have := EntryKeys(entries, butter);
    forall x | x in want
      ensures x in have
    {
      var i :| 0 <= i < |ids| && x == Graph.KStr(ids[i]);
      assert Graph.ToKey(BuildEntry(entries[i], butter).value.id) == Some(x);
    }
    forall x | x in have
      ensures x in want
    {
      var i :| 0 <= i < |entries| && Graph.ToKey(BuildEntry(entries[i], butter).value.id).Some? &&
               x == Graph.ToKey(BuildEntry(entries[i], butter).value.id).value;
      assert x == Graph.KStr(ids[i]);
    }
  }

  /** The node loop over entries with the given string ids keys the graph
      by exactly those ids. */
  lemma EntriesKeyed(entries: seq<Json>, ids: seq<string>, butter: real -> Filter.Coeffs)
    requires |entries| == |ids|
    requires forall i :: 0 <= i < |entries| ==>
      BuildEntry(entries[i], butter).Ok? && BuildEntry(entries[i], butter).value.id == JStr(ids[i])
    ensures var r := AddAll(Graph.Empty(), entries, butter);
      r.Ok? && r.value.nodes.Keys == (set i | 0 <= i < |ids| :: Graph.KStr(ids[i])) && r.value.connections == []
  {
    AddAllKeys(Graph.Empty(), entries, butter);
    EntryKeysOfIds(entries, ids, butter);
  }

  /** Every entry builds, with the id listed beside it. */
  predicate BuildsWithIds(entries: seq<Json>, ids: seq<string>, butter: real -> Filter.Coeffs) {
    |entries| == |ids| &&
    forall i :: 0 <= i < |entries| ==>
      BuildEntry(entries[i], butter).Ok? && BuildEntry(entries[i], butter).value.id == JStr(ids[i])
  }

  /** A document listing buildable nodes and connecting them in a chain, in
      list order, creates a graph keyed by those ids whose connections are
      the chain. */
  lemma ChainBuilds(config: Json, entries: seq<Json>, ids: seq<string>, butter: real -> Filter.Coeffs)
    requires BuildsWithIds(entries, ids, butter)
    requires Field(config, "nodes") == Some(JList(entries))
    requires Field(config, "connections") == Some(JList(ChainEdges(ids)))
    ensures var r := Create(config, butter);
      && r.Ok? && r.value.nodes.Keys == (set i | 0 <= i < |ids| :: Graph.KStr(ids[i]))
      && r.value.connections == ChainPairs(ids)
  {
    EntriesKeyed(entries, ids, butter);
    var g := AddAll(Graph.Empty(), entries, butter).value;
    assert forall i :: 0 <= i < |ids| ==> Graph.KStr(ids[i]) in g.nodes;
    ChainConnects(g, ids);
    CreateOfLists(config, entries, ChainEdges(ids), butter);
    assert [] + ChainPairs(ids) == ChainPairs(ids);
  }

  lemma TwoKeys(a: string, b: string)
    ensures (set i | 0 <= i < 2 :: Graph.KStr([a, b][i])) == {Graph.KStr(a), Graph.KStr(b)}
  {
    var ids := [a, b];
    assert Graph.KStr(ids[0]) == Graph.KStr(a) && Graph.KStr(ids[1]) == Graph.KStr(b);
  }

  lemma ThreeKeys(a: string, b: string, c: string)
    ensures (set i | 0 <= i < 3 :: Graph.KStr([a, b, c][i])) == {Graph.KStr(a), Graph.KStr(b), Graph.KStr(c)}
  {
    var ids := [a, b, c];
    assert Graph.KStr(ids[0]) == Graph.KStr(a) && Graph.KStr(ids[1]) == Graph.KStr(b);
    assert Graph.KStr(ids[2]) == Graph.KStr(c);
  }

  lemma BasicTemplateShape()
    ensures Field(BasicTemplate, "nodes") == Some(JList([InputEntry, OutputEntry]))
    ensures Field(BasicTemplate, "connections") == Some(JList(ChainEdges(["input", "output"])))
    ensures ChainPairs(["input", "output"]) == [(JStr("input"), JStr("output"))]
  {
    assert ChainEdges(["input", "output"]) == [Edge("input", "output")];
  }

  lemma InputEntryBuilds(butter: real -> Filter.Coeffs)
    ensures BuildEntry(InputEntry, butter).Ok? && BuildEntry(InputEntry, butter).value.id == JStr("input")
  {
    EntryBuilds(InputEntry, "input", "AudioInputNode", map["channels" := JInt(2), "sample_rate" := JInt(44100)], butter);
  }

  lemma OutputEntryBuilds(butter: real -> Filter.Coeffs)
    ensures BuildEntry(OutputEntry, butter).Ok? && BuildEntry(OutputEntry, butter).value.id == JStr("output")
  {
    EntryBuilds(OutputEntry, "output", "AudioOutputNode", map["channels" := JInt(2)], butter);
  }

  /** Prepending a buildable entry with its id keeps the pairing. */
  lemma BuildsCons(e: Json, id: string, entries: seq<Json>, ids: seq<string>, butter: real -> Filter.Coeffs)
    requires BuildEntry(e, butter).Ok? && BuildEntry(e, butter).value.id == JStr(id)
    requires BuildsWithIds(entries, ids, butter)
    ensures BuildsWithIds([e] + entries, [id] + ids, butter)
  {
    var es, ks := [e] + entries, [id] + ids;
    forall i | 0 < i < |es|
      ensures BuildEntry(es[i], butter).Ok? && BuildEntry(es[i], butter).value.id == JStr(ks[i])
    {
      assert es[i] == entries[i - 1] && ks[i] == ids[i - 1];
    }
  }

  lemma OutputOnlyBuilds(butter: real -> Filter.Coeffs)
    ensures BuildsWithIds([OutputEntry], ["output"], butter)
  {
    OutputEntryBuilds(butter);
  }

  lemma BasicEntriesBuild(butter: real -> Filter.Coeffs)
    ensures BuildsWithIds([InputEntry, OutputEntry], ["input", "output"], butter)
  {
    InputEntryBuilds(butter);
    OutputOnlyBuilds(butter);
    BuildsCons(InputEntry, "input", [OutputEntry], ["output"], butter);
    assert [InputEntry] + [OutputEntry] == [InputEntry, OutputEntry];
    assert ["input"] + ["output"] == ["input", "output"];
  }

  lemma FilterEntriesBuild(butter: real -> Filter.Coeffs)
    ensures BuildsWithIds([InputEntry, FilterEntry, OutputEntry], ["input", "filter", "output"], butter)
  {
    FilterEntryBuilds(butter);
    OutputOnlyBuilds(butter);
    BuildsCons(FilterEntry, "filter", [OutputEntry], ["output"], butter);
    assert [FilterEntry] + [OutputEntry] == [FilterEntry, OutputEntry];
    assert ["filter"] + ["output"] == ["filter", "output"];
    InputEntryBuilds(butter);
    BuildsCons(InputEntry, "input", [FilterEntry, OutputEntry], ["filter", "output"], butter);
    assert [InputEntry] + [FilterEntry, OutputEntry] == [InputEntry, FilterEntry, OutputEntry];
    assert ["input"] + ["filter", "output"] == ["input", "filter", "output"];
  }

  /** The basic template builds two nodes joined input -> output. */
  lemma BasicTemplateBuilds(butter: real -> Filter.Coeffs)
    ensures var r := Create(BasicTemplate, butter);
      && r.Ok? && r.value.nodes.Keys == {Graph.KStr("input"), Graph.KStr("output")}
      && r.value.connections == [(JStr("input"), JStr("output"))]
  {
    var entries, ids := [InputEntry, OutputEntry], ["input", "output"];
    BasicEntriesBuild(butter);
    BasicTemplateShape();
    ChainBuilds(BasicTemplate, entries, ids, butter);
    TwoKeys("input", "output");
  }

  lemma FilterTemplateShape()
    ensures Field(FilterTemplate, "nodes") == Some(JList([InputEntry, FilterEntry, OutputEntry]))
    ensures Field(FilterTemplate, "connections") == Some(JList(ChainEdges(["input", "filter", "output"])))
    ensures ChainPairs(["input", "filter", "output"]) ==
      [(JStr("input"), JStr("filter")), (JStr("filter"), JStr("output"))]
  {
    assert ChainEdges(["input", "filter", "output"]) == [Edge("input", "filter"), Edge("filter", "output")];
  }

  /** The filter template builds the chain input -> filter -> output. */
  lemma FilterTemplateBuilds(butter: real -> Filter.Coeffs)
    ensures var r := Create(FilterTemplate, butter);
      && r.Ok? && r.value.nodes.Keys == {Graph.KStr("input"), Graph.KStr("filter"), Graph.KStr("output")}
      && r.value.connections == [(JStr("input"), JStr("filter")), (JStr("filter"), JStr("output"))]
  {
    var entries, ids := [InputEntry, FilterEntry, OutputEntry], ["input", "filter", "output"];
    FilterEntriesBuild(butter);
    FilterTemplateShape();
    ChainBuilds(FilterTemplate, entries, ids, butter);
    ThreeKeys("input", "filter", "output");
  }

  /** As written, neither template passes strict validation: both pass
      `channels` to the output node, which does not declare it. */
  lemma TemplatesFailStrictAsWritten()
    ensures !ValidateAsWritten(BasicTemplate, true)
    ensures !ValidateAsWritten(FilterTemplate, true)
    ensures ValidateAsWritten(BasicTemplate, false) && ValidateAsWritten(FilterTemplate, false)
  {
    BasicStrictAsWritten();
    FilterStrictAsWritten();
  }

  lemma BasicStrictAsWritten()
    ensures !ValidateAsWritten(BasicTemplate, true) && ValidateAsWritten(BasicTemplate, false)
  {
    var entries := [InputEntry, OutputEntry];
    OutputEntryStrict();
    LaxEntries();
    BasicTemplateShape();
    ValidateListed(BasicTemplate, entries, true, Nodes.ParametersAsWritten);
    ValidateListed(BasicTemplate, entries, false, Nodes.ParametersAsWritten);
    assert entries[1] == OutputEntry;
  }

  lemma FilterStrictAsWritten()
    ensures !ValidateAsWritten(FilterTemplate, true) && ValidateAsWritten(FilterTemplate, false)
  {
    FilterFailsStrictAsWritten();
    FilterPassesLaxAsWritten();
  }

  lemma FilterFailsStrictAsWritten()
    ensures !ValidateAsWritten(FilterTemplate, true)
  {
    var entries := [InputEntry, FilterEntry, OutputEntry];
    OutputEntryStrict();
    FilterTemplateShape();
    ValidateListed(FilterTemplate, entries, true, Nodes.ParametersAsWritten);
    assert entries[2] == OutputEntry;
  }

  lemma FilterPassesLaxAsWritten()
    ensures ValidateAsWritten(FilterTemplate, false)
  {
    var entries := [InputEntry, FilterEntry, OutputEntry];
    LaxEntries();
    FilterTemplateShape();
    ValidateListed(FilterTemplate, entries, false, Nodes.ParametersAsWritten);
  }

  /** Validation of a document whose node list is a list checks each entry. */
  lemma ValidateListed(config: Json, entries: seq<Json>, strict: bool, declared: Nodes.Kind -> map<string, Nodes.Descriptor>)
    requires Field(config, "nodes") == Some(JList(entries))
    ensures ValidateWith(config, strict, declared) <==>
      forall i :: 0 <= i < |entries| ==> EntryValid(entries[i], strict, declared)
  {
  }

  /** Without strict checking, every template entry names a known type. */
  lemma LaxEntries()
    ensures EntryValid(InputEntry, false, Nodes.ParametersAsWritten)
    ensures EntryValid(FilterEntry, false, Nodes.ParametersAsWritten)
    ensures EntryValid(OutputEntry, false, Nodes.ParametersAsWritten)
  {
    assert Field(InputEntry, "type") == Some(JStr("AudioInputNode"));
    assert Field(FilterEntry, "type") == Some(JStr("AudioFilterNode"));
    assert Field(OutputEntry, "type") == Some(JStr("AudioOutputNode"));
    Nodes.RegistryContents();
  }

  lemma InputEntryStrict()
    ensures EntryValid(InputEntry, true, Nodes.Parameters)
  {
    var p := map["channels" := JInt(2), "sample_rate" := JInt(44100)];
    assert Field(InputEntry, "type") == Some(JStr("AudioInputNode"));
    assert KindOf(JStr("AudioInputNode")) == Some(Nodes.InputNode);
    assert Get(InputEntry.fields, "params", JObj(map[])) == JObj(p);
    assert p.Keys == {"channels", "sample_rate"};
    Nodes.DeclaredNames();
  }

  lemma FilterEntryStrict()
    ensures EntryValid(FilterEntry, true, Nodes.Parameters)
  {
    var p := map["cutoff" := JInt(1000), "resonance" := JReal(0.7)];
    assert Field(FilterEntry, "type") == Some(JStr("AudioFilterNode"));
    assert KindOf(JStr("AudioFilterNode")) == Some(Nodes.FilterNode);
    assert Get(FilterEntry.fields, "params", JObj(map[])) == JObj(p);
    assert p.Keys == {"cutoff", "resonance"};
    Nodes.DeclaredNames();
  }

  lemma OutputEntryStrict()
    ensures EntryValid(OutputEntry, true, Nodes.Parameters)
    ensures !EntryValid(OutputEntry, true, Nodes.ParametersAsWritten)
  {
    var p := map["channels" := JInt(2)];
    assert Field(OutputEntry, "type") == Some(JStr("AudioOutputNode"));
    assert KindOf(JStr("AudioOutputNode")) == Some(Nodes.OutputNode);
    assert Get(OutputEntry.fields, "params", JObj(map[])) == JObj(p);
    assert p.Keys == {"channels"};
    Nodes.DeclaredNames();
    Nodes.OutputChannelsUndeclared();
  }

  /** With the output node declaring `channels`, both templates pass strict
      validation. */
  lemma TemplatesPassStrict()
    ensures Validate(BasicTemplate, true) && Validate(FilterTemplate, true)
  {
    BasicPassesStrict();
    FilterPassesStrict();
  }

  lemma BasicPassesStrict()
    ensures Validate(BasicTemplate, true)
  {
    InputEntryStrict();
    OutputEntryStrict();
    BasicTemplateShape();
    ValidateListed(BasicTemplate, [InputEntry, OutputEntry], true, Nodes.Parameters);
  }

  lemma FilterPassesStrict()
    ensures Validate(FilterTemplate, true)
  {
    InputEntryStrict();
    FilterEntryStrict();
    OutputEntryStrict();
    FilterTemplateShape();
    ValidateListed(FilterTemplate, [InputEntry, FilterEntry, OutputEntry], true, Nodes.Parameters);
  }
}
