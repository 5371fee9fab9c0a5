/**
 * The visual pipeline editor (`ProcessingCanvas`): a list of nodes, a list of
 * directed connections between node ids, the node selected for the property
 * panel, the connect gesture (`isConnecting` / `tempConnection`) and the
 * resizable preview panel.
 */
module Canvas {
  import opened Options
  import opened Seqs

  // ---------------------------------------------------------------------------
  // state values
  // ---------------------------------------------------------------------------

  datatype Point = Point(x: real, y: real)

  /** A pipeline node; `kind` is the `type` field (source, transform, output-ue, ...) and `caption` the `label` field. */
  datatype Node = Node(id: int, kind: string, caption: string, x: real, y: real, config: map<string, string>)

  /** A directed edge from the node with id `source` to the node with id `target`. */
  datatype Connection = Connection(id: string, source: int, target: int)

  /** The connection being drawn: where it starts and where the mouse is. */
  datatype TempConnection = TempConnection(sourceId: int, startX: real, startY: real, currX: real, currY: real)

  /** A cubic Bezier curve: the coordinates of an SVG `M start C c1, c2, end` path. */
  datatype Bezier = Bezier(start: Point, control1: Point, control2: Point, end: Point)

  function NodeId(n: Node): int { n.id }

  function Endpoints(c: Connection): (int, int) { (c.source, c.target) }

  /** The output handle sits 206px right of a node's origin, the input handle 6px left; both at half height. */
  const OutputHandleX: real := 206.0
  const InputHandleX: real := -6.0
  const HandleY: real := 40.0

  const MinPreviewHeight: real := 100.0
  const MaxPreviewHeight: real := 600.0

  const InitialNodes: seq<Node> := [
    Node(1, "source", "比赛数据 API", 100.0, 150.0, map["url" := "https://api.migu.cn/v1/match/live"]),
    Node(2, "transform", "事件过滤", 450.0, 150.0, map["filter" := "type == \"GOAL\""]),
    Node(3, "output-ue", "UE5 渲染引擎", 800.0, 150.0, map["ip" := "192.168.1.100", "port" := "8888"])
  ]

  const InitialConnections: seq<Connection> := [
    Connection("c1", 1, 2),
    Connection("c2", 2, 3)
  ]

  // ---------------------------------------------------------------------------
  // graph well-formedness
  // ---------------------------------------------------------------------------

  ghost predicate NoSelfLoops(conns: seq<Connection>) {
    forall c :: c in conns ==> c.source != c.target
  }

  /** No two connections join the same ordered pair of nodes. */
  ghost predicate NoDuplicatePairs(conns: seq<Connection>) {
    UniqueKeys(conns, Endpoints)
  }

  /** Every connection joins two nodes that are on the canvas. */
  ghost predicate EndpointsExist(nodes: seq<Node>, conns: seq<Connection>) {
    forall c :: c in conns ==> HasKey(nodes, NodeId, c.source) && HasKey(nodes, NodeId, c.target)
  }

  // ---------------------------------------------------------------------------
  // geometry
  // ---------------------------------------------------------------------------

  /** `getNodePos`: the origin of the first node with that id, `(0,0)` for an unknown id. */
  function NodePos(nodes: seq<Node>, id: int): (p: Point)
    ensures !HasKey(nodes, NodeId, id) ==> p == Point(0.0, 0.0)
    ensures HasKey(nodes, NodeId, id) ==>
              exists i :: 0 <= i < |nodes| && nodes[i].id == id && p == Point(nodes[i].x, nodes[i].y) &&
                          forall j :: 0 <= j < i ==> nodes[j].id != id
  {
    match FindKey(nodes, NodeId, id)
    case Some(n) => Point(n.x, n.y)
    case None => Point(0.0, 0.0)
  }

  /**
   * `getPath`: the curve from the output handle of the node at `start` to the input
   * handle of the node at `end`. Both control points stand halfway between the ends
   * horizontally, level with their own end, so the curve leaves and enters flat.
   */
  function PathBetween(start: Point, end: Point): (b: Bezier)
    ensures b.start == Point(start.x + OutputHandleX, start.y + HandleY)
    ensures b.end == Point(end.x + InputHandleX, end.y + HandleY)
    ensures b.control1.x == b.control2.x == (b.start.x + b.end.x) / 2.0
    ensures b.control1.y == b.start.y && b.control2.y == b.end.y
  {
    var sx := start.x + OutputHandleX;
    var sy := start.y + HandleY;
    var ex := end.x + InputHandleX;
    var ey := end.y + HandleY;
    Bezier(Point(sx, sy), Point(sx + (ex - sx) / 2.0, sy), Point(sx + (ex - sx) / 2.0, ey), Point(ex, ey))
  }

  function Translate(b: Bezier, dx: real, dy: real): Bezier {
    Bezier(Point(b.start.x + dx, b.start.y + dy), Point(b.control1.x + dx, b.control1.y + dy),
           Point(b.control2.x + dx, b.control2.y + dy), Point(b.end.x + dx, b.end.y + dy))
  }

  /** Moving both nodes by the same offset moves the whole curve by that offset. */
  lemma PathTranslates(start: Point, end: Point, dx: real, dy: real)
    ensures PathBetween(Point(start.x + dx, start.y + dy), Point(end.x + dx, end.y + dy))
         == Translate(PathBetween(start, end), dx, dy)
  {
  }

  /** The curves drawn for the connections, one per connection, in order. */
  function EdgePaths(nodes: seq<Node>, conns: seq<Connection>): (r: seq<Bezier>)
    ensures |r| == |conns|
    ensures forall i :: 0 <= i < |conns| ==>
              r[i] == PathBetween(NodePos(nodes, conns[i].source), NodePos(nodes, conns[i].target))
  {
    seq(|conns|, i requires 0 <= i < |conns| =>
      PathBetween(NodePos(nodes, conns[i].source), NodePos(nodes, conns[i].target)))
  }

  /** `Math.max(100, Math.min(h, 600))`: the preview height is kept within [100, 600]. */
  function ClampHeight(h: real): (r: real)
    ensures MinPreviewHeight <= r <= MaxPreviewHeight
    ensures MinPreviewHeight <= h <= MaxPreviewHeight ==> r == h
    ensures h < MinPreviewHeight ==> r == MinPreviewHeight
    ensures h > MaxPreviewHeight ==> r == MaxPreviewHeight
  {
    var m := if h < MaxPreviewHeight then h else MaxPreviewHeight;
    if MinPreviewHeight > m then MinPreviewHeight else m
  }

  // ---------------------------------------------------------------------------
  // node edits
  // ---------------------------------------------------------------------------

  /** The changes the canvas makes to one node: a drag, a config entry, a new label. */
  datatype NodeEdit = MoveTo(x: real, y: real) | SetConfig(key: string, value: string) | SetLabel(caption: string)

  /** `{ ...n, x, y }`, `{ ...n, config: { ...n.config, [key]: value } }`, `{ ...n, label }`. */
  function ApplyEdit(n: Node, e: NodeEdit): (r: Node)
    ensures r.id == n.id && r.kind == n.kind
    ensures e.MoveTo? ==> r.caption == n.caption && r.config == n.config && Point(r.x, r.y) == Point(e.x, e.y)
    ensures e.SetConfig? ==> r.caption == n.caption && r.x == n.x && r.y == n.y &&
                             r.config.Keys == n.config.Keys + {e.key} && r.config[e.key] == e.value &&
                             forall k :: k in n.config && k != e.key ==> r.config[k] == n.config[k]
    ensures e.SetLabel? ==> r.caption == e.caption && r.config == n.config && r.x == n.x && r.y == n.y
  {
    match e
    case MoveTo(x, y) => n.(x := x, y := y)
    case SetConfig(key, value) => n.(config := n.config[key := value])
    case SetLabel(caption) => n.(caption := caption)
  }

  /** `nodes.map(n => n.id === id ? edit(n) : n)`. */
  function EditNodes(nodes: seq<Node>, id: int, e: NodeEdit): (r: seq<Node>)
    ensures |r| == |nodes|
    ensures forall i :: 0 <= i < |nodes| ==> r[i] == if nodes[i].id == id then ApplyEdit(nodes[i], e) else nodes[i]
  {
    MapKey(nodes, NodeId, id, n => ApplyEdit(n, e))
  }

  /** Editing nodes keeps every node's id, so ids stay unique and connections stay attached. */
  lemma EditKeepsIds(nodes: seq<Node>, conns: seq<Connection>, id: int, e: NodeEdit)
    ensures UniqueKeys(nodes, NodeId) ==> UniqueKeys(EditNodes(nodes, id, e), NodeId)
    ensures forall k :: HasKey(EditNodes(nodes, id, e), NodeId, k) <==> HasKey(nodes, NodeId, k)
    ensures EndpointsExist(nodes, conns) ==> EndpointsExist(EditNodes(nodes, id, e), conns)
  {
    MapKeyKeepsKeys(nodes, NodeId, id, n => ApplyEdit(n, e));
  }

  /** After dragging node `id` to `(x, y)`, that node is found at `(x, y)`; every other id is found where it was. */
  lemma DragMovesOnlyThatNode(nodes: seq<Node>, id: int, x: real, y: real, other: int)
    requires HasKey(nodes, NodeId, id)
    ensures NodePos(EditNodes(nodes, id, MoveTo(x, y)), id) == Point(x, y)
    ensures other != id ==> NodePos(EditNodes(nodes, id, MoveTo(x, y)), other) == NodePos(nodes, other)
  {
    FindKeyAfterMapKey(nodes, NodeId, id, n => ApplyEdit(n, MoveTo(x, y)), id);
    FindKeyAfterMapKey(nodes, NodeId, id, n => ApplyEdit(n, MoveTo(x, y)), other);
  }

  /** A drag redraws only the curves of connections that touch the dragged node. */
  lemma DragRedrawsOnlyTouchingEdges(nodes: seq<Node>, conns: seq<Connection>, id: int, x: real, y: real, i: int)
    requires 0 <= i < |conns| && conns[i].source != id && conns[i].target != id
    ensures EdgePaths(EditNodes(nodes, id, MoveTo(x, y)), conns)[i] == EdgePaths(nodes, conns)[i]
  {
    FindKeyAfterMapKey(nodes, NodeId, id, n => ApplyEdit(n, MoveTo(x, y)), conns[i].source);
    FindKeyAfterMapKey(nodes, NodeId, id, n => ApplyEdit(n, MoveTo(x, y)), conns[i].target);
  }

  // ---------------------------------------------------------------------------
  // deleting a node
  // ---------------------------------------------------------------------------

  /** `connections.filter(c => c.source !== id && c.target !== id)`. */
  function EdgesAvoiding(conns: seq<Connection>, id: int): (r: seq<Connection>)
    ensures forall c :: c in r <==> c in conns && c.source != id && c.target != id
    ensures IsSubseq(r, conns)
  {
    FilterIsSubseq(conns, AvoidsNode(id));
    Filter(conns, AvoidsNode(id))
  }

  /** The test a connection passes when it does not touch node `id`. */
  function AvoidsNode(id: int): Connection -> bool {
    (c: Connection) => c.source != id && c.target != id
  }

  /** Deleting a node together with its connections leaves no connection dangling. */
  lemma DeleteKeepsEndpoints(nodes: seq<Node>, conns: seq<Connection>, id: int)
    requires EndpointsExist(nodes, conns)
    ensures EndpointsExist(WithoutKey(nodes, NodeId, id), EdgesAvoiding(conns, id))
  {
    var ns := WithoutKey(nodes, NodeId, id);
    forall c | c in EdgesAvoiding(conns, id)
      ensures HasKey(ns, NodeId, c.source) && HasKey(ns, NodeId, c.target)
    {
      ghost var i :| 0 <= i < |nodes| && NodeId(nodes[i]) == c.source;
      ghost var j :| 0 <= j < |nodes| && NodeId(nodes[j]) == c.target;
      assert nodes[i] in ns && nodes[j] in ns;
      var i' :| 0 <= i' < |ns| && ns[i'] == nodes[i];
      var j' :| 0 <= j' < |ns| && ns[j'] == nodes[j];
    }
  }

  /** Deleting keeps the graph simple: no self-loop and no repeated pair appears. */
  lemma DeleteKeepsSimple(conns: seq<Connection>, id: int)
    requires NoSelfLoops(conns) && NoDuplicatePairs(conns)
    ensures NoSelfLoops(EdgesAvoiding(conns, id)) && NoDuplicatePairs(EdgesAvoiding(conns, id))
  {
    FilterUniqueKeys(conns, Endpoints, AvoidsNode(id));
  }

  // ---------------------------------------------------------------------------
  // connecting two nodes
  // ---------------------------------------------------------------------------

  /** `connections.some(c => c.source === source && c.target === target)`. */
  predicate HasEdge(conns: seq<Connection>, source: int, target: int) {
    exists c :: c in conns && c.source == source && c.target == target
  }

  /** The connection list after a gesture that ends on `target`: a new edge unless it is a self-loop or a repeat. */
  function Connect(conns: seq<Connection>, source: int, target: int, cid: string): (r: seq<Connection>)
    ensures source != target && !HasEdge(conns, source, target) ==> r == conns + [Connection(cid, source, target)]
    ensures source == target || HasEdge(conns, source, target) ==> r == conns
  {
    if source != target && !HasEdge(conns, source, target) then conns + [Connection(cid, source, target)] else conns
  }

  /** After a connect between distinct nodes the edge is there. */
  lemma ConnectEstablishes(conns: seq<Connection>, source: int, target: int, cid: string)
    requires source != target
    ensures HasEdge(Connect(conns, source, target, cid), source, target)
  {
    if !HasEdge(conns, source, target) {
      assert Connect(conns, source, target, cid)[|conns|] == Connection(cid, source, target);
    }
  }

  /** Connecting the same pair twice adds one edge: the second gesture changes nothing. */
  lemma ConnectIdempotent(conns: seq<Connection>, source: int, target: int, cid1: string, cid2: string)
    ensures Connect(Connect(conns, source, target, cid1), source, target, cid2) == Connect(conns, source, target, cid1)
  {
    if source != target {
      ConnectEstablishes(conns, source, target, cid1);
    }
  }

  /** Connecting keeps the graph simple. */
  lemma ConnectKeepsSimple(conns: seq<Connection>, source: int, target: int, cid: string)
    requires NoSelfLoops(conns) && NoDuplicatePairs(conns)
    ensures NoSelfLoops(Connect(conns, source, target, cid)) && NoDuplicatePairs(Connect(conns, source, target, cid))
  {
    if source != target && !HasEdge(conns, source, target) {
      var c := Connection(cid, source, target);
      assert !HasKey(conns, Endpoints, Endpoints(c));
      AppendFreshKeepsUnique(conns, Endpoints, c);
    }
  }

  /** A connection between two nodes on the canvas keeps every edge attached. */
  lemma ConnectKeepsEndpoints(nodes: seq<Node>, conns: seq<Connection>, source: int, target: int, cid: string)
    requires EndpointsExist(nodes, conns)
    requires HasKey(nodes, NodeId, source) && HasKey(nodes, NodeId, target)
    ensures EndpointsExist(nodes, Connect(conns, source, target, cid))
  {
  }

  // ---------------------------------------------------------------------------
  // the component
  // ---------------------------------------------------------------------------

  class ProcessingCanvas {
    var nodes: seq<Node>
    var connections: seq<Connection>
    var selectedNode: Option<Node>
    var isConnecting: bool
    var tempConnection: Option<TempConnection>
    var showPreview: bool
    var previewHeight: real
    var isResizing: bool

    /**
     * The invariant every handler keeps: node ids are unique, the graph has no
     * self-loop and no repeated pair, a gesture is in progress exactly when there is
     * a temporary connection, the preview height is within bounds, and the selected
     * node is a node of the canvas showing that node's kind, label and config.
     */
    ghost predicate Valid()
      reads this
    {
      && UniqueKeys(nodes, NodeId)
      && NoSelfLoops(connections)
      && NoDuplicatePairs(connections)
      && (isConnecting <==> tempConnection.Some?)
      && MinPreviewHeight <= previewHeight <= MaxPreviewHeight
      && (selectedNode.Some? ==> SelectionMirrored(nodes, selectedNode.value))
    }

    /** Every connection is attached to nodes of the canvas. */
    ghost predicate Wired()
      reads this
    {
      EndpointsExist(nodes, connections)
    }

    constructor ()
      ensures Valid() && Wired()
      ensures nodes == InitialNodes && connections == InitialConnections
      ensures selectedNode == None && !isConnecting && tempConnection == None
      ensures showPreview && previewHeight == 200.0 && !isResizing
    {
      nodes := InitialNodes;
      connections := InitialConnections;
      selectedNode := None;
      isConnecting := false;
      tempConnection := None;
      showPreview := true;
      previewHeight := 200.0;
      isResizing := false;
      new;
      assert NodeId(nodes[0]) == 1 && NodeId(nodes[1]) == 2 && NodeId(nodes[2]) == 3;
      assert Endpoints(connections[0]) != Endpoints(connections[1]);
    }

    /** `handleNodeDrag`: moves the node with that id; nothing else changes. */
    method NodeDrag(id: int, x: real, y: real)
      requires Valid()
      modifies this`nodes
      ensures Valid()
      ensures nodes == EditNodes(old(nodes), id, MoveTo(x, y))
      ensures old(Wired()) ==> Wired()
    {
      EditKeepsIds(nodes, connections, id, MoveTo(x, y));
      SelectionSurvivesEdit(nodes, selectedNode, id, MoveTo(x, y));
      nodes := EditNodes(nodes, id, MoveTo(x, y));
    }

    /**
     * `handleAddNode`: appends a node with an empty config. The id (`Date.now()`) and
     * the two `Math.random()` draws are supplied by the caller.
     */
    method AddNode(kind: string, caption: string, freshId: int, rx: real, ry: real)
      requires Valid()
      requires !HasKey(nodes, NodeId, freshId)
      requires 0.0 <= rx < 1.0 && 0.0 <= ry < 1.0
      modifies this`nodes
      ensures Valid()
      ensures nodes == old(nodes) + [Node(freshId, kind, caption, 100.0 + rx * 50.0, 100.0 + ry * 50.0, map[])]
      ensures 100.0 <= nodes[|nodes| - 1].x < 150.0 && 100.0 <= nodes[|nodes| - 1].y < 150.0
      ensures old(Wired()) ==> Wired()
    {
      var n := Node(freshId, kind, caption, 100.0 + rx * 50.0, 100.0 + ry * 50.0, map[]);
      AppendFreshKeepsUnique(nodes, NodeId, n);
      ghost var before := nodes;
      nodes := nodes + [n];
      assert forall k :: HasKey(before, NodeId, k) ==> HasKey(nodes, NodeId, k) by {
        forall k | HasKey(before, NodeId, k) ensures HasKey(nodes, NodeId, k) {
          ghost var i :| 0 <= i < |before| && NodeId(before[i]) == k;
          assert nodes[i] == before[i];
        }
      }
      if selectedNode.Some? {
        ghost var i :| 0 <= i < |before| && Mirrors(before[i], selectedNode.value);
        assert nodes[i] == before[i];
      }
    }

    /**
     * `handleDeleteNode`: removes the node and every connection touching it, keeps the
     * rest in order, and clears the selection only if it was that node.
     */
    method DeleteNode(id: int)
      requires Valid()
      modifies this`nodes, this`connections, this`selectedNode
      ensures Valid()
      ensures nodes == WithoutKey(old(nodes), NodeId, id)
      ensures connections == EdgesAvoiding(old(connections), id)
      ensures IsSubseq(nodes, old(nodes)) && IsSubseq(connections, old(connections))
      ensures selectedNode == if old(selectedNode).Some? && old(selectedNode).value.id == id then None else old(selectedNode)
      ensures old(Wired()) ==> Wired()
    {
      if Wired() {
        DeleteKeepsEndpoints(nodes, connections, id);
      }
      DeleteKeepsSimple(connections, id);
      WithoutKeyKeepsUnique(nodes, NodeId, id);
      ghost var before := nodes;
      nodes := WithoutKey(nodes, NodeId, id);
      connections := EdgesAvoiding(connections, id);
      if selectedNode.Some? && selectedNode.value.id == id {
        selectedNode := None;
      } else if selectedNode.Some? {
        ghost var i :| 0 <= i < |before| && Mirrors(before[i], selectedNode.value);
        assert before[i] in nodes;
        ghost var j :| 0 <= j < |nodes| && nodes[j] == before[i];
      }
    }

    /** `handleNodeSelect`: selects the first node with that id, or nothing when there is none. */
    method SelectNode(id: int)
      requires Valid()
      modifies this`selectedNode
      ensures Valid()
      ensures selectedNode == FindKey(nodes, NodeId, id)
      ensures selectedNode.Some? <==> HasKey(nodes, NodeId, id)
    {
      selectedNode := FindKey(nodes, NodeId, id);
    }

    /**
     * `updateNodeConfig`: with no selection nothing happens; otherwise `config[key]`
     * of the selected node is set, in the list and in the selection alike.
     */
    method UpdateNodeConfig(key: string, value: string)
      requires Valid()
      modifies this`nodes, this`selectedNode
      ensures Valid()
      ensures old(selectedNode).None? ==> nodes == old(nodes) && selectedNode == old(selectedNode)
      ensures old(selectedNode).Some? ==>
                nodes == EditNodes(old(nodes), old(selectedNode).value.id, SetConfig(key, value)) &&
                selectedNode == Some(ApplyEdit(old(selectedNode).value, SetConfig(key, value)))
      ensures old(Wired()) ==> Wired()
    {
      if selectedNode.None? {
        return;
      }
      EditSelected(SetConfig(key, value));
    }

    /** The label input of the property panel, which is shown only while a node is selected. */
    method UpdateLabel(caption: string)
      requires Valid()
      requires selectedNode.Some?
      modifies this`nodes, this`selectedNode
      ensures Valid()
      ensures nodes == EditNodes(old(nodes), old(selectedNode).value.id, SetLabel(caption))
      ensures selectedNode == Some(ApplyEdit(old(selectedNode).value, SetLabel(caption)))
      ensures old(Wired()) ==> Wired()
    {
      EditSelected(SetLabel(caption));
    }

    /** Applies an edit to the selected node, in the node list and in the selection. */
    method EditSelected(e: NodeEdit)
      requires Valid()
      requires selectedNode.Some? && !e.MoveTo?
      modifies this`nodes, this`selectedNode
      ensures Valid()
      ensures nodes == EditNodes(old(nodes), old(selectedNode).value.id, e)
      ensures selectedNode == Some(ApplyEdit(old(selectedNode).value, e))
      ensures old(Wired()) ==> Wired()
    {
      var sel := selectedNode.value;
      EditKeepsIds(nodes, connections, sel.id, e);
      ghost var before := nodes;
      nodes := EditNodes(nodes, sel.id, e);
      selectedNode := Some(ApplyEdit(sel, e));
      ghost var i :| 0 <= i < |before| && Mirrors(before[i], sel);
      assert Mirrors(nodes[i], selectedNode.value);
    }

    /**
     * `handleConnectStart`: on an unknown node nothing happens; otherwise a gesture
     * starts at that node's output handle, with the mouse at the same place.
     */
    method ConnectStart(sourceId: int)
      requires Valid()
      modifies this`isConnecting, this`tempConnection
      ensures Valid()
      ensures !HasKey(nodes, NodeId, sourceId) ==>
                isConnecting == old(isConnecting) && tempConnection == old(tempConnection)
      ensures HasKey(nodes, NodeId, sourceId) ==>
                var p := NodePos(nodes, sourceId);
                isConnecting && tempConnection == Some(TempConnection(sourceId,
                  p.x + OutputHandleX, p.y + HandleY, p.x + OutputHandleX, p.y + HandleY))
    {
      var found := FindKey(nodes, NodeId, sourceId);
      if found.None? {
        return;
      }
      var node := found.value;
      var startX := node.x + OutputHandleX;
      var startY := node.y + HandleY;
      isConnecting := true;
      tempConnection := Some(TempConnection(sourceId, startX, startY, startX, startY));
    }

    /**
     * `handleMouseMove` while connecting: the temporary connection follows the mouse.
     * The mouse position is given in canvas coordinates.
     */
    method MouseMove(mouseX: real, mouseY: real)
      requires Valid()
      modifies this`tempConnection
      ensures Valid()
      ensures !isConnecting ==> tempConnection == old(tempConnection)
      ensures isConnecting ==>
                tempConnection == Some(old(tempConnection).value.(currX := mouseX, currY := mouseY))
    {
      if !isConnecting {
        return;
      }
      tempConnection := Some(tempConnection.value.(currX := mouseX, currY := mouseY));
    }

    /**
     * `handleConnectEnd`: a no-op when no gesture is in progress; otherwise the edge
     * from the gesture's source to `targetId` is added unless it is a self-loop or a
     * repeat, and the gesture ends. The edge id (`c_${Date.now()}`) is supplied.
     */
    method ConnectEnd(targetId: int, cid: string)
      requires Valid()
      modifies this`connections, this`isConnecting, this`tempConnection
      ensures Valid()
      ensures !old(isConnecting) ==>
                connections == old(connections) && isConnecting == old(isConnecting) &&
                tempConnection == old(tempConnection)
      ensures old(isConnecting) ==>
                connections == Connect(old(connections), old(tempConnection).value.sourceId, targetId, cid) &&
                !isConnecting && tempConnection == None
      ensures old(isConnecting) && old(Wired()) &&
              HasKey(nodes, NodeId, old(tempConnection).value.sourceId) && HasKey(nodes, NodeId, targetId)
              ==> Wired()
      ensures !old(isConnecting) ==> (old(Wired()) ==> Wired())
    {
      if !isConnecting || tempConnection.None? {
        return;
      }
      var source := tempConnection.value.sourceId;
      ConnectKeepsSimple(connections, source, targetId, cid);
      if Wired() && HasKey(nodes, NodeId, source) && HasKey(nodes, NodeId, targetId) {
        ConnectKeepsEndpoints(nodes, connections, source, targetId, cid);
      }
      if source != targetId {
        var duplicate := HasEdge(connections, source, targetId);
        if !duplicate {
          connections := connections + [Connection(cid, source, targetId)];
        }
      }
      isConnecting := false;
      tempConnection := None;
    }

    /** `handleMouseUp`: releasing the mouse button away from an input handle cancels the gesture. */
    method MouseUp()
      requires Valid()
      modifies this`isConnecting, this`tempConnection
      ensures Valid()
      ensures !isConnecting && tempConnection == None
      ensures !old(isConnecting) ==> tempConnection == old(tempConnection)
    {
      if isConnecting {
        isConnecting := false;
        tempConnection := None;
      }
    }

    /** The preview toggle button. */
    method TogglePreview()
      requires Valid()
      modifies this`showPreview
      ensures Valid()
      ensures showPreview == !old(showPreview)
    {
      showPreview := !showPreview;
    }

    /** Pressing on the resize handle of the preview panel. */
    method StartResize()
      requires Valid()
      modifies this`isResizing
      ensures Valid() && isResizing
    {
      isResizing := true;
    }

    /**
     * The window mouse-move listener while resizing: the panel takes the height from
     * the mouse to the bottom of the window, clamped into [100, 600].
     */
    method ResizeMove(innerHeight: real, clientY: real)
      requires Valid()
      modifies this`previewHeight
      ensures Valid()
      ensures previewHeight == if isResizing then ClampHeight(innerHeight - clientY) else old(previewHeight)
    {
      if isResizing {
        previewHeight := ClampHeight(innerHeight - clientY);
      }
    }

    /** The window mouse-up listener: resizing stops. */
    method EndResize()
      requires Valid()
      modifies this`isResizing
      ensures Valid() && !isResizing
    {
      isResizing := false;
    }
  }

  /** The selection shows the kind, label and config of a node with its id. */
  ghost predicate Mirrors(n: Node, sel: Node) {
    n.id == sel.id && n.kind == sel.kind && n.caption == sel.caption && n.config == sel.config
  }

  ghost predicate SelectionMirrored(nodes: seq<Node>, sel: Node) {
    exists i :: 0 <= i < |nodes| && Mirrors(nodes[i], sel)
  }

  /** A drag keeps the selection mirrored: it changes no kind, label or config. */
  lemma SelectionSurvivesEdit(nodes: seq<Node>, sel: Option<Node>, id: int, e: NodeEdit)
    requires e.MoveTo?
    requires sel.Some? ==> SelectionMirrored(nodes, sel.value)
    ensures sel.Some? ==> SelectionMirrored(EditNodes(nodes, id, e), sel.value)
  {
    if sel.Some? {
      ghost var i :| 0 <= i < |nodes| && Mirrors(nodes[i], sel.value);
      assert Mirrors(EditNodes(nodes, id, e)[i], sel.value);
    }
  }
}
