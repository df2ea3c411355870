/**
 * The node-tree capture of TreeDebug: a depth-first walk of each active
 * window's accessibility tree that encodes every reachable child as a JSON
 * record, guards against cycles with a set of already-visited nodes, and
 * sends the surviving windows to the receiver as {"children": [...]}.
 *
 * The live tree is a graph: a child reference may point back to a node seen
 * before. It is modelled as a map from node identity to the node's facts and
 * its child slots (a slot is None when getChild returns null).
 */
module TreeDebug {
  import opened Wrappers
  import opened Json
  import opened Nodes
  import opened NodeRecord

  datatype GraphNode = GraphNode(info: NodeInfo, children: seq<Option<NodeId>>)

  type Graph = map<NodeId, GraphNode>

  /** Every child reference names a node of the graph. */
  predicate Closed(g: Graph) {
    forall id, k :: id in g && 0 <= k < |g[id].children| && g[id].children[k].Some? ==>
      g[id].children[k].value in g
  }

  predicate Distinct(s: seq<NodeId>) {
    forall i, j :: 0 <= i < j < |s| ==> s[i] != s[j]
  }

  /** The number of non-null slots among the first k. */
  function PresentCount(slots: seq<Option<NodeId>>, k: nat): nat
    requires k <= |slots|
  {
    if k == 0 then 0 else PresentCount(slots, k - 1) + (if slots[k - 1].Some? then 1 else 0)
  }

  /** What one walk produces: the encoded children, the visited set after it, and the nodes it expanded, in order. */
  datatype Walk = Walk(items: seq<JsonValue>, seen: set<NodeId>, expanded: seq<NodeId>)

  /** parent.put("children", childArray), done only when the array is non-empty. */
  function AttachChildren(parent: seq<Member>, items: seq<JsonValue>): (r: seq<Member>)
    ensures items == [] ==> r == parent
    ensures items != [] ==> Lookup(r, "children") == Some(JArr(items))
    ensures forall k :: k != "children" ==> Lookup(r, k) == Lookup(parent, k)
    ensures forall m :: m in r ==> m in parent || m == Member("children", JArr(items))
  {
    if items == [] then parent else Put(parent, "children", JArr(items))
  }

  /** The keys a child record holds at its top level. */
  predicate RecordKeys(v: JsonValue) {
    v.JObj? && forall m :: m in v.members ==> m.key == "name" || m.key == "metadata" || m.key == "children"
  }

  /** The keys nodeDebugDescriptionJson puts at the top level of a record. */
  predicate NameAndMetadata(record: seq<Member>) {
    forall m :: m in record ==> m.key == "name" || m.key == "metadata"
  }

  /** An encoder of node records: what nodeDebugDescriptionJson makes of a node's facts. */
  ghost predicate Encoder(enc: NodeInfo -> seq<Member>) {
    forall info :: NameAndMetadata(enc(info))
  }

  lemma NameThenMetadata(name: string, metadata: seq<Member>)
    ensures NameAndMetadata([Member("name", JStr(name)), Member("metadata", JObj(metadata))])
  {
  }

  /** The record encoding of the record module is such an encoder. */
  lemma RecordMembersIsEncoder()
    ensures Encoder(RecordMembers)
  {
    forall info ensures NameAndMetadata(RecordMembers(info)) {
      NameThenMetadata(RecordName(info), Metadata(info));
    }
  }

  /** A child's record, completed with its own children once the walk below it is done. */
  function ChildRecord(record: seq<Member>, sub: seq<JsonValue>): (r: JsonValue)
    requires NameAndMetadata(record)
    ensures RecordKeys(r)
    ensures sub == [] ==> r.members == record
    ensures sub != [] ==> r.members == record + [Member("children", JArr(sub))]
  {
    assert sub != [] ==> AttachChildren(record, sub) == record + [Member("children", JArr(sub))] by {
      if sub != [] { PutKeepsPrefix(record, "children", JArr(sub)); }
    }
    JObj(AttachChildren(record, sub))
  }

  /** Put on a key the members lack only appends. */
  lemma PutKeepsPrefix(members: seq<Member>, key: string, v: JsonValue)
    requires forall m :: m in members ==> m.key != key
    ensures Put(members, key, v) == members + [Member(key, v)]
  {
    if members != [] {
      PutKeepsPrefix(members[1..], key, v);
      assert members == [members[0]] + members[1..];
    }
  }

  /**
   * logNodeTreeJson(id) with visited set `seen`: a node already seen is not
   * expanded again; otherwise it is marked seen and its child slots are walked.
   */
  function WalkNode(g: Graph, enc: NodeInfo -> seq<Member>, id: NodeId, seen: set<NodeId>): (r: Walk)
    requires Closed(g) && Encoder(enc) && id in g
    ensures seen <= r.seen <= seen + g.Keys
    ensures id in r.seen
    ensures id in seen ==> r == Walk([], seen, [])
    ensures id !in seen ==> |r.items| == PresentCount(g[id].children, |g[id].children|)
    ensures forall j :: 0 <= j < |r.items| ==> RecordKeys(r.items[j])
    ensures Distinct(r.expanded)
    ensures forall x :: x in r.expanded <==> x in r.seen && x !in seen
    decreases g.Keys - seen, 0
  {
    if id in seen then Walk([], seen, [])
    else
      var w := WalkSlots(g, enc, id, |g[id].children|, seen + {id});
      Walk(w.items, w.seen, [id] + w.expanded)
  }

  /** The loop of logNodeTreeJson over the first k child slots of node id. */
  function WalkSlots(g: Graph, enc: NodeInfo -> seq<Member>, id: NodeId, k: nat, seen: set<NodeId>): (r: Walk)
    requires Closed(g) && Encoder(enc) && id in g && k <= |g[id].children|
    ensures seen <= r.seen <= seen + g.Keys
    ensures |r.items| == PresentCount(g[id].children, k)
    ensures forall j :: 0 <= j < |r.items| ==> RecordKeys(r.items[j])
    ensures Distinct(r.expanded)
    ensures forall x :: x in r.expanded <==> x in r.seen && x !in seen
    decreases g.Keys - seen, 1, k
  {
    if k == 0 then Walk([], seen, [])
    else
      var before := WalkSlots(g, enc, id, k - 1, seen);
      match g[id].children[k - 1]
      case None => before
      case Some(c) =>
        var sub := WalkNode(g, enc, c, before.seen);
        DistinctAppend(before.expanded, sub.expanded);
        Walk(before.items + [ChildRecord(enc(g[c].info), sub.items)], sub.seen, before.expanded + sub.expanded)
  }

  lemma DistinctAppend(a: seq<NodeId>, b: seq<NodeId>)
    ensures Distinct(a) && Distinct(b) && (forall x :: x in a ==> x !in b) ==> Distinct(a + b)
  {
    if Distinct(a) && Distinct(b) && (forall x :: x in a ==> x !in b) {
      forall i, j | 0 <= i < j < |a + b|
        ensures (a + b)[i] != (a + b)[j]
      {
        if i < |a| && j >= |a| {
          assert (a + b)[i] in a && (a + b)[j] == b[j - |a|];
        }
      }
    }
  }

  /** A node that has been visited is never expanded by a later walk. */
  lemma SeenNodeNotExpanded(g: Graph, enc: NodeInfo -> seq<Member>, id: NodeId, seen: set<NodeId>, x: NodeId)
    requires Closed(g) && Encoder(enc) && id in g && x in seen
    ensures x !in WalkNode(g, enc, id, seen).expanded
  {
  }

  /** Walking from a root with nothing seen expands every node at most once, and only nodes of the graph. */
  lemma WalkExpandsEachNodeOnce(g: Graph, enc: NodeInfo -> seq<Member>, root: NodeId)
    requires Closed(g) && Encoder(enc) && root in g
    ensures Distinct(WalkNode(g, enc, root, {}).expanded)
    ensures |WalkNode(g, enc, root, {}).expanded| <= |g.Keys|
    ensures WalkNode(g, enc, root, {}).expanded != [] && WalkNode(g, enc, root, {}).expanded[0] == root
  {
    var w := WalkNode(g, enc, root, {});
    DistinctBounded(w.expanded, g.Keys);
  }

  lemma {:induction false} DistinctBounded(s: seq<NodeId>, keys: set<NodeId>)
    requires Distinct(s) && forall x :: x in s ==> x in keys
    ensures |s| <= |keys|
  {
    if s != [] {
      var rest := s[1..];
      assert forall x :: x in rest ==> x in keys - {s[0]} by {
        forall x | x in rest ensures x in keys - {s[0]} {
          var j :| 0 <= j < |rest| && rest[j] == x;
          assert s[j + 1] == x;
        }
      }
      assert Distinct(rest) by {
        forall i, j | 0 <= i < j < |rest| ensures rest[i] != rest[j] {
          assert s[i + 1] != s[j + 1];
        }
      }
      DistinctBounded(rest, keys - {s[0]});
    }
  }

  /** The walk whose records are the ones nodeDebugDescriptionJson builds. */
  function NodeWalk(g: Graph, id: NodeId, seen: set<NodeId>): Walk
    requires Closed(g) && id in g
  {
    RecordMembersIsEncoder();
    WalkNode(g, RecordMembers, id, seen)
  }

  /** One logNodeTree call: the visited set lives in the walker, as the HashSet in the source does. */
  class TreeWalker {
    const graph: Graph
    /** nodeDebugDescriptionJson: the record a child's object starts from. */
    const encode: NodeInfo -> seq<Member>
    var seen: set<NodeId>

    constructor (g: Graph, enc: NodeInfo -> seq<Member>)
      ensures graph == g && encode == enc && seen == {}
    {
      graph := g;
      encode := enc;
      seen := {};
    }

    /**
     * logNodeTreeJson: encodes each non-null child, walks below it, and puts
     * the children array into `parent` when it is non-empty.
     */
    method LogNodeTreeJson(id: NodeId, parent: seq<Member>) returns (parentOut: seq<Member>)
      requires Closed(graph) && Encoder(encode) && id in graph
      modifies this
      ensures parentOut == AttachChildren(parent, WalkNode(graph, encode, id, old(seen)).items)
      ensures seen == WalkNode(graph, encode, id, old(seen)).seen
      decreases graph.Keys - seen
    {
      if id in seen {
        return parent;
      }
      seen := seen + {id};
      ghost var start := seen;
      var childArray: seq<JsonValue> := [];
      var children := graph[id].children;
      for i := 0 to |children|
        invariant childArray == WalkSlots(graph, encode, id, i, start).items
        invariant seen == WalkSlots(graph, encode, id, i, start).seen
      {
        var child := children[i];
        if child.None? {
          continue;
        }
        var c := child.value;
        var childObject := encode(graph[c].info);
        childObject := LogNodeTreeJson(c, childObject);
        childArray := childArray + [JObj(childObject)];
      }
      parentOut := AttachChildren(parent, childArray);
    }
  }

  /** logNodeTree: nothing happens for a null root; otherwise a fresh visited set walks from it. */
  method LogNodeTree(g: Graph, root: Option<NodeId>, windowObject: seq<Member>) returns (r: seq<Member>)
    requires Closed(g) && (root.Some? ==> root.value in g)
    ensures root.None? ==> r == windowObject
    ensures root.Some? ==> r == AttachChildren(windowObject, NodeWalk(g, root.value, {}).items)
  {
    if root.None? {
      return windowObject;
    }
    RecordMembersIsEncoder();
    var walker := new TreeWalker(g, RecordMembers);
    r := walker.LogNodeTreeJson(root.value, windowObject);
  }

  /** An AccessibilityWindowInfo as the capture reads it. */
  datatype Window = Window(id: int, title: Option<string>, active: bool, root: Option<NodeId>)

  /** Every root a window names is a node of the graph. */
  predicate RootsInGraph(g: Graph, windows: seq<Option<Window>>) {
    forall i :: 0 <= i < |windows| && windows[i].Some? && windows[i].value.root.Some? ==>
      windows[i].value.root.value in g
  }

  /** The window's metadata: id, role, title when there is one, and the root's bounds. */
  function WindowMetadata(w: Window, rootInfo: NodeInfo): (r: seq<Member>)
    ensures Lookup(r, "role") == Some(JStr("Window"))
    ensures Lookup(r, "windowId") == Some(JInt(w.id))
    ensures Lookup(r, "title") == (if w.title.Some? then Some(JStr(w.title.value)) else None)
    ensures Lookup(r, "x1") == Some(JInt(rootInfo.bounds.left))
    ensures Lookup(r, "y1") == Some(JInt(rootInfo.bounds.top))
    ensures Lookup(r, "x2") == Some(JInt(rootInfo.bounds.right))
    ensures Lookup(r, "y2") == Some(JInt(rootInfo.bounds.bottom))
  {
    var head := [Member("windowId", JInt(w.id)), Member("role", JStr("Window"))];
    var rest := StrMember("title", w.title) + BoundsMembers(rootInfo.bounds);
    HeadLookups(w, rest);
    RestLookups(w, rootInfo.bounds);
    head + rest
  }

  /** The two leading members of a window's metadata are found first. */
  lemma HeadLookups(w: Window, rest: seq<Member>)
    ensures Lookup([Member("windowId", JInt(w.id)), Member("role", JStr("Window"))] + rest, "windowId") == Some(JInt(w.id))
    ensures Lookup([Member("windowId", JInt(w.id)), Member("role", JStr("Window"))] + rest, "role") == Some(JStr("Window"))
    ensures forall k :: k != "windowId" && k != "role" ==>
      Lookup([Member("windowId", JInt(w.id)), Member("role", JStr("Window"))] + rest, k) == Lookup(rest, k)
  {
    var head := [Member("windowId", JInt(w.id)), Member("role", JStr("Window"))];
    forall k
      ensures Lookup(head + rest, k) == if Lookup(head, k).Some? then Lookup(head, k) else Lookup(rest, k)
    {
      LookupConcat(head, rest, k);
    }
    assert head[1..] == [Member("role", JStr("Window"))];
  }

  /** The title and bounds members of a window's metadata. */
  lemma RestLookups(w: Window, b: Rect)
    ensures var rest := StrMember("title", w.title) + BoundsMembers(b);
      Lookup(rest, "title") == (if w.title.Some? then Some(JStr(w.title.value)) else None)
      && Lookup(rest, "x1") == Some(JInt(b.left)) && Lookup(rest, "y1") == Some(JInt(b.top))
      && Lookup(rest, "x2") == Some(JInt(b.right)) && Lookup(rest, "y2") == Some(JInt(b.bottom))
  {
    var title := StrMember("title", w.title);
    var bounds := BoundsMembers(b);
    BoundsLookups(b);
    LookupConcat(title, bounds, "title");
    LookupAbsent(bounds, "title");
    LookupPast(title, bounds, "x1");
    LookupPast(title, bounds, "y1");
    LookupPast(title, bounds, "x2");
    LookupPast(title, bounds, "y2");
  }

  /** The object built for a window with a root: name, children when any, the root's hash as id, metadata. */
  function WindowObject(g: Graph, w: Window): (r: seq<Member>)
    requires Closed(g) && w.root.Some? && w.root.value in g
  {
    var root := w.root.value;
    AttachChildren([Member("name", JStr("Window"))], NodeWalk(g, root, {}).items)
    + [Member("id", JInt(g[root].info.hash)), Member("metadata", JObj(WindowMetadata(w, g[root].info)))]
  }

  /** The title as a string: "" for a null title. */
  function TitleText(w: Window): string {
    w.title.GetOr("")
  }

  /** Status-bar chrome: a first child whose metadata names the status bar or notification shade pane. */
  predicate StatusChrome(first: JsonValue) {
    first.JObj? &&
    match Lookup(first.members, "metadata")
    case Some(JObj(md)) =>
      (match Lookup(md, "paneTitle")
       case Some(JStr(p)) => p == "Status bar" || p == "Notification shade."
       case _ => false)
    case _ => false
  }

  /**
   * isEmpty: a window object without a children array (getJSONArray throws),
   * with an empty one, or whose first child is status-bar chrome.
   */
  predicate IsEmptyWindow(members: seq<Member>) {
    match Lookup(members, "children")
    case Some(JArr(items)) => items == [] || !items[0].JObj? || StatusChrome(items[0])
    case _ => true
  }

  /** Whether a window reaches the window array. */
  predicate Survives(g: Graph, w: Option<Window>)
    requires Closed(g)
  {
    w.Some? && w.value.active && w.value.root.Some? && w.value.root.value in g
    && TitleText(w.value) != "Navigation bar" && !IsEmptyWindow(WindowObject(g, w.value))
  }

  /** The window array: the objects of the surviving windows, in window order. */
  function CapturedWindows(g: Graph, windows: seq<Option<Window>>): (r: seq<JsonValue>)
    requires Closed(g)
  {
    ConcatMap(windows, w => KeptWindow(g, w))
  }

  /** What one window adds to the window array. */
  function KeptWindow(g: Graph, w: Option<Window>): seq<JsonValue> {
    if Closed(g) && Survives(g, w) then [JObj(WindowObject(g, w.value))] else []
  }

  /** Each element's contribution, concatenated in order. */
  function ConcatMap<T, U>(s: seq<T>, f: T -> seq<U>): seq<U> {
    if s == [] then [] else ConcatMap(s[..|s| - 1], f) + f(s[|s| - 1])
  }

  lemma {:induction false} ConcatMapConcat<T, U>(a: seq<T>, b: seq<T>, f: T -> seq<U>)
    ensures ConcatMap(a + b, f) == ConcatMap(a, f) + ConcatMap(b, f)
    decreases |b|
  {
    if b != [] {
      var init := b[..|b| - 1];
      ConcatMapConcat(a, init, f);
      assert (a + b)[..|a + b| - 1] == a + init;
    } else {
      assert a + b == a;
    }
  }

  /** The message sent to the receiver, or None when there is no window list. */
  function Capture(g: Graph, windows: Option<seq<Option<Window>>>): Option<JsonValue>
    requires Closed(g)
  {
    if windows.None? then None
    else Some(JObj([Member("children", JArr(CapturedWindows(g, windows.value)))]))
  }

  /**
   * logNodeTrees: walks every active window with a root, keeps the ones that
   * survive the filter in order, and sends {"children": windowArray}.
   */
  method LogNodeTrees(g: Graph, windows: Option<seq<Option<Window>>>) returns (sent: Option<JsonValue>)
    requires Closed(g) && (windows.Some? ==> RootsInGraph(g, windows.value))
    ensures sent == Capture(g, windows)
  {
    if windows.None? {
      return None;
    }
    var ws := windows.value;
    var windowArray: seq<JsonValue> := [];
    for i := 0 to |ws|
      invariant windowArray == CapturedWindows(g, ws[..i])
    {
      assert ws[..i + 1][..i] == ws[..i];
      var window := ws[i];
      if window.None? || !window.value.active || window.value.root.None? {
        continue;
      }
      var w := window.value;
      var root := w.root.value;
      var windowObject := [Member("name", JStr("Window"))];
      windowObject := LogNodeTree(g, w.root, windowObject);
      var metadata := WindowMetadata(w, g[root].info);
      windowObject := windowObject + [Member("id", JInt(g[root].info.hash)), Member("metadata", JObj(metadata))];
      var title := TitleText(w);
      var isEmpty := IsEmptyWindow(windowObject);
      if title != "Navigation bar" && !isEmpty {
        windowArray := windowArray + [JObj(windowObject)];
      }
    }
    assert ws[..|ws|] == ws;
    sent := Some(JObj([Member("children", JArr(windowArray))]));
  }

  /** Capturing two window lists one after the other keeps both results in order. */
  lemma CapturedWindowsConcat(g: Graph, a: seq<Option<Window>>, b: seq<Option<Window>>)
    requires Closed(g)
    ensures CapturedWindows(g, a + b) == CapturedWindows(g, a) + CapturedWindows(g, b)
  {
    ConcatMapConcat(a, b, w => KeptWindow(g, w));
  }

  /** Null windows, inactive windows and windows without a root add nothing to the window array. */
  lemma SkippedWindowsAddNothing(g: Graph, w: Option<Window>)
    requires Closed(g)
    requires w.None? || !w.value.active || w.value.root.None?
    ensures CapturedWindows(g, [w]) == []
  {
    var f := x => KeptWindow(g, x);
    assert f(w) == [];
    assert [w][..0] == [];
    assert ConcatMap([w], f) == ConcatMap([], f) + f(w);
    assert CapturedWindows(g, [w]) == ConcatMap([w], f);
  }

  /** Every window in the array was active, is not the navigation bar, and has a non-empty children array. */
  lemma CapturedWindowsQualify(g: Graph, windows: seq<Option<Window>>, v: JsonValue)
    requires Closed(g)
    requires v in CapturedWindows(g, windows)
    ensures exists i :: 0 <= i < |windows| && Survives(g, windows[i]) && v == JObj(WindowObject(g, windows[i].value))
    ensures v.JObj? && Lookup(v.members, "children").Some?
    ensures Lookup(v.members, "children").value.JArr? && Lookup(v.members, "children").value.items != []
  {
    var i := CapturedIndex(g, windows, v);
    var w := windows[i].value;
    assert !IsEmptyWindow(WindowObject(g, w));
    var root := w.root.value;
    var head := AttachChildren([Member("name", JStr("Window"))], NodeWalk(g, root, {}).items);
    var tail := [Member("id", JInt(g[root].info.hash)), Member("metadata", JObj(WindowMetadata(w, g[root].info)))];
    LookupConcat(head, tail, "children");
  }

  lemma {:induction false} CapturedIndex(g: Graph, windows: seq<Option<Window>>, v: JsonValue) returns (i: nat)
    requires Closed(g)
    requires v in CapturedWindows(g, windows)
    ensures i < |windows| && Survives(g, windows[i]) && v == JObj(WindowObject(g, windows[i].value))
  {
    var n := |windows|;
    var init := windows[..n - 1];
    assert CapturedWindows(g, windows) == CapturedWindows(g, init) + KeptWindow(g, windows[n - 1]);
    if v in CapturedWindows(g, init) {
      i := CapturedIndex(g, init, v);
      assert windows[i] == init[i];
    } else {
      i := n - 1;
    }
  }

  /** The metadata object of a child record. */
  function RecordMetadata(v: JsonValue): Option<seq<Member>> {
    if v.JObj? then
      match Lookup(v.members, "metadata")
      case Some(JObj(md)) => Some(md)
      case _ => None
    else None
  }

  // ---------------------------------------------------------------------
  // As written, the empty-window test asks the first child record itself
  // for "paneTitle", a key that only the record's metadata holds.

  /** isEmpty as written: the paneTitle test reads the top level of the first child record. */
  predicate IsEmptyWindowAsWritten(members: seq<Member>) {
    match Lookup(members, "children")
    case Some(JArr(items)) =>
      if items == [] then true
      else if !items[0].JObj? then true
      else
        (match Lookup(items[0].members, "paneTitle")
         case Some(JStr(p)) => p == "Status bar" || p == "Notification shade."
         // getString gives any other value's text: "null", "true", "false", a
         // number, or a serialised array or object, never one of the two titles.
         case Some(_) => false
         case None => false)
    case _ => true
  }

  /** A child record never holds "paneTitle" at its top level, so the as-written test reduces to "has no children". */
  lemma PaneTitleTestNeverFires(g: Graph, w: Window)
    requires Closed(g) && w.root.Some? && w.root.value in g
    ensures IsEmptyWindowAsWritten(WindowObject(g, w)) <==> NodeWalk(g, w.root.value, {}).items == []
  {
    var root := w.root.value;
    var tail := [Member("id", JInt(g[root].info.hash)), Member("metadata", JObj(WindowMetadata(w, g[root].info)))];
    AsWrittenTestOnRecords(NodeWalk(g, root, {}).items, tail);
  }

  lemma AsWrittenTestOnRecords(items: seq<JsonValue>, tail: seq<Member>)
    requires forall j :: 0 <= j < |items| ==> RecordKeys(items[j])
    requires NoKey(tail, "children")
    ensures IsEmptyWindowAsWritten(AttachChildren([Member("name", JStr("Window"))], items) + tail) <==> items == []
  {
    var head := AttachChildren([Member("name", JStr("Window"))], items);
    LookupConcat(head, tail, "children");
    LookupAbsent(tail, "children");
    if items != [] {
      assert RecordKeys(items[0]);
      LookupAbsent(items[0].members, "paneTitle");
    } else {
      LookupAbsent(head, "children");
    }
  }


  /**
   * The input that shows it: a window whose first child is the status bar
   * pane (its metadata's paneTitle is "Status bar") passes the as-written
   * test and reaches the window array, while the intended test drops it.
   */
  lemma StatusBarWindowKeptAsWritten(members: seq<Member>, items: seq<JsonValue>)
    requires Lookup(members, "children") == Some(JArr(items))
    requires items != [] && RecordKeys(items[0])
    requires RecordMetadata(items[0]).Some?
    requires Lookup(RecordMetadata(items[0]).value, "paneTitle") == Some(JStr("Status bar"))
    ensures !IsEmptyWindowAsWritten(members)
    ensures IsEmptyWindow(members)
  {
    LookupAbsent(items[0].members, "paneTitle");
  }

  // ---------------------------------------------------------------------
  // As written, an active window whose root is null reaches
  // root.getBoundsInScreen, which throws a NullPointerException that no
  // handler catches: the capture ends and nothing is sent.

  datatype CaptureOutcome = Aborted | Completed(windows: seq<JsonValue>)

  /** The window loop as written: an active window with a null root aborts the capture. */
  function CaptureLoopAsWritten(g: Graph, windows: seq<Option<Window>>): CaptureOutcome
    requires Closed(g) && RootsInGraph(g, windows)
  {
    if windows == [] then Completed([])
    else
      var last := windows[|windows| - 1];
      match CaptureLoopAsWritten(g, windows[..|windows| - 1])
      case Aborted => Aborted
      case Completed(ws) =>
        if last.None? || !last.value.active then Completed(ws)
        else if last.value.root.None? then Aborted
        else if TitleText(last.value) != "Navigation bar" && !IsEmptyWindowAsWritten(WindowObject(g, last.value)) then
          Completed(ws + [JObj(WindowObject(g, last.value))])
        else Completed(ws)
  }

  /** logNodeTrees as written: the message sent, or None when nothing is sent. */
  function CaptureAsWritten(g: Graph, windows: Option<seq<Option<Window>>>): Option<JsonValue>
    requires Closed(g) && (windows.Some? ==> RootsInGraph(g, windows.value))
  {
    if windows.None? then None
    else
      match CaptureLoopAsWritten(g, windows.value)
      case Aborted => None
      case Completed(ws) => Some(JObj([Member("children", JArr(ws))]))
  }

  /** One active window without a root anywhere in the list means nothing is sent as written. */
  lemma {:induction false} NullRootAbortsAsWritten(g: Graph, windows: seq<Option<Window>>, k: nat)
    requires Closed(g) && RootsInGraph(g, windows)
    requires k < |windows| && windows[k].Some? && windows[k].value.active && windows[k].value.root.None?
    ensures CaptureLoopAsWritten(g, windows) == Aborted
    ensures CaptureAsWritten(g, Some(windows)) == None
  {
    var init := windows[..|windows| - 1];
    assert RootsInGraph(g, init);
    if k < |windows| - 1 {
      assert init[k] == windows[k];
      NullRootAbortsAsWritten(g, init, k);
    }
  }

  /** The intended capture skips such a window: the other windows are captured as if it were absent. */
  lemma NullRootWindowSkipped(g: Graph, a: seq<Option<Window>>, w: Window, b: seq<Option<Window>>)
    requires Closed(g) && w.root.None?
    ensures CapturedWindows(g, a + [Some(w)] + b) == CapturedWindows(g, a + b)
  {
    SkippedWindowsAddNothing(g, Some(w));
    CapturedWindowsConcat(g, a, [Some(w)]);
    CapturedWindowsConcat(g, a + [Some(w)], b);
    CapturedWindowsConcat(g, a, b);
  }
}
