/** `AudioGraphManager` (audiokit/graph/manager.py): a dictionary from node
    id to node and an append-only list of connections. Python dictionary
    keys are compared by value and hash, so `1`, `1.0` and `True` are one
    key and lists or dictionaries cannot be keys at all. */
module Graph {
  import opened Wrappers
  import opened Json
  import Nodes

  /** A hashable id, up to Python equality. */
  datatype Key = KNull | KNum(n: real) | KStr(s: string)

  function ToKey(j: Json): (k: Option<Key>)
    ensures k.None? <==> j.JList? || j.JObj?
    ensures j.JStr? ==> k == Some(KStr(j.s))
  {
    match j
    case JNull => Some(KNull)
    case JBool(b) => Some(KNum(if b then 1.0 else 0.0))
    case JInt(i) => Some(KNum(i as real))
    case JReal(r) => Some(KNum(r))
    case JStr(s) => Some(KStr(s))
    case _ => None
  }

  datatype Graph = Graph(nodes: map<Key, Nodes.Node>, connections: seq<(Json, Json)>)

  datatype GraphError =
    | Unhashable(id: Json)       // TypeError: unhashable type
    | SourceNotFound(id: Json)   // "Source node {id} not found"
    | TargetNotFound(id: Json)   // "Target node {id} not found"

  /** A node is stored under the key of its own id, and every connection
      joins two stored nodes. */
  predicate WellFormed(g: Graph) {
    && (forall k :: k in g.nodes ==> ToKey(g.nodes[k].id) == Some(k))
    && (forall i :: 0 <= i < |g.connections| ==>
          && ToKey(g.connections[i].0).Some? && ToKey(g.connections[i].0).value in g.nodes
          && ToKey(g.connections[i].1).Some? && ToKey(g.connections[i].1).value in g.nodes)
  }

  /** A fresh manager: no nodes, no connections. */
  function Empty(): (g: Graph)
    ensures |g.nodes| == 0 && |g.connections| == 0
    ensures WellFormed(g)
  {
    Graph(map[], [])
  }

  /** `add_node`: store the node under its id, replacing any node with an
      equal id; nothing else changes. */
  function AddNode(g: Graph, n: Nodes.Node): (r: Result<Graph, GraphError>)
    ensures ToKey(n.id).None? ==> r == Err(Unhashable(n.id))
    ensures ToKey(n.id).Some? ==> r.Ok?
    ensures r.Ok? ==>
      && var k := ToKey(n.id).value;
      && k in r.value.nodes && r.value.nodes[k] == n
      && r.value.nodes.Keys == g.nodes.Keys + {k}
      && (forall k' :: k' in g.nodes && k' != k ==> r.value.nodes[k'] == g.nodes[k'])
      && r.value.connections == g.connections
  {
    match ToKey(n.id)
    case None => Err(Unhashable(n.id))
    case Some(k) => Ok(g.(nodes := g.nodes[k := n]))
  }

  /** `connect`: the source is looked up before the target; on success the
      pair is appended and the nodes are untouched. Self-loops, repeated
      edges and cycles are all accepted. */
  function Connect(g: Graph, from: Json, to: Json): (r: Result<Graph, GraphError>)
    ensures ToKey(from).None? ==> r == Err(Unhashable(from))
    ensures ToKey(from).Some? && ToKey(from).value !in g.nodes ==> r == Err(SourceNotFound(from))
    ensures ToKey(from).Some? && ToKey(from).value in g.nodes && ToKey(to).None? ==> r == Err(Unhashable(to))
    ensures (ToKey(from).Some? && ToKey(from).value in g.nodes &&
             ToKey(to).Some? && ToKey(to).value !in g.nodes) ==> r == Err(TargetNotFound(to))
    ensures r.Ok? <==> ToKey(from).Some? && ToKey(from).value in g.nodes &&
                       ToKey(to).Some? && ToKey(to).value in g.nodes
    ensures r.Ok? ==> r.value.nodes == g.nodes && r.value.connections == g.connections + [(from, to)]
  {
    match ToKey(from)
    case None => Err(Unhashable(from))
    case Some(kf) =>
      if kf !in g.nodes then Err(SourceNotFound(from))
      else match ToKey(to)
        case None => Err(Unhashable(to))
        case Some(kt) =>
          if kt !in g.nodes then Err(TargetNotFound(to))
          else Ok(g.(connections := g.connections + [(from, to)]))
  }

  /** `get_node`: the stored node, or `None` for an id nobody added. */
  function GetNode(g: Graph, id: Json): (r: Result<Option<Nodes.Node>, GraphError>)
    ensures ToKey(id).None? <==> r.Err?
    ensures r.Ok? ==> (r.value.Some? <==> ToKey(id).value in g.nodes)
    ensures r.Ok? && r.value.Some? ==> r.value.value == g.nodes[ToKey(id).value]
  {
    match ToKey(id)
    case None => Err(Unhashable(id))
    case Some(k) => Ok(if k in g.nodes then Some(g.nodes[k]) else None)
  }

  /** `get_connections`: the pairs in the order they were connected. */
  function GetConnections(g: Graph): (r: seq<(Json, Json)>)
    ensures r == g.connections
  {
    g.connections
  }

  /** The connection list is a history: a fresh manager has none, each
      successful `connect` appends its pair at the end, and adding a node
      leaves the list as it was. */
  lemma ConnectionsInOrder(g: Graph, n: Nodes.Node, from: Json, to: Json)
    ensures GetConnections(Empty()) == []
    ensures Connect(g, from, to).Ok? ==>
      GetConnections(Connect(g, from, to).value) == GetConnections(g) + [(from, to)]
    ensures AddNode(g, n).Ok? ==> GetConnections(AddNode(g, n).value) == GetConnections(g)
  {
  }

  /** Both operations keep the graph well formed. */
  lemma AddNodePreserves(g: Graph, n: Nodes.Node)
    requires WellFormed(g)
    ensures AddNode(g, n).Ok? ==> WellFormed(AddNode(g, n).value)
  {
  }

  lemma ConnectPreserves(g: Graph, from: Json, to: Json)
    requires WellFormed(g)
    ensures Connect(g, from, to).Ok? ==> WellFormed(Connect(g, from, to).value)
  {
    if Connect(g, from, to).Ok? {
      var r := Connect(g, from, to).value;
      forall i | 0 <= i < |r.connections|
        ensures ToKey(r.connections[i].0).Some? && ToKey(r.connections[i].0).value in r.nodes
        ensures ToKey(r.connections[i].1).Some? && ToKey(r.connections[i].1).value in r.nodes
      {
        if i < |g.connections| {
          assert r.connections[i] == g.connections[i];
        }
      }
    }
  }

  /** Re-adding an id replaces the node and keeps the edges that name it. */
  lemma ReplaceKeepsConnections(g: Graph, n: Nodes.Node, m: Nodes.Node)
    requires ToKey(n.id).Some? && ToKey(n.id) == ToKey(m.id)
    ensures var r := AddNode(AddNode(g, n).value, m);
      r.Ok? && r.value.nodes[ToKey(m.id).value] == m &&
      |r.value.nodes| == |AddNode(g, m).value.nodes| && r.value.connections == g.connections
  {
    var k := ToKey(n.id).value;
    assert AddNode(AddNode(g, n).value, m).value.nodes == AddNode(g, m).value.nodes;
  }
}
