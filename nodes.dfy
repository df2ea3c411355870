/**
 * The accessibility node as the core sees it: AccessibilityNodeInfo reduced to
 * the attributes the core reads, and a finite tree of such nodes whose child
 * slots may be empty (getChild(i) returning null).
 */
module Nodes {
  import opened Wrappers
  import opened JavaString

  /** Node identity: AccessibilityNodeInfo.equals compares source node and window ids. */
  type NodeId = int

  datatype Rect = Rect(left: int, top: int, right: int, bottom: int)

  /** An entry of getActionList(): a standard or custom action, with its optional label. */
  datatype ActionInfo = ActionInfo(id: int, actionLabel: Option<string>)

  datatype CollectionInfo = CollectionInfo(rowCount: int, columnCount: int)

  datatype CollectionItemInfo = CollectionItemInfo(rowIndex: int, columnIndex: int)

  /** A span of text with its locale's language tag. */
  datatype LocaleString = LocaleString(text: string, languageTag: string)

  /** What the core reads of the node given by getLabeledBy(). */
  datatype LabelInfo = LabelInfo(text: Option<string>, contentDescription: Option<string>, hash: Int32)

  /**
   * Results of the AccessibilityNodeInfoUtils helpers, whose code is not part
   * of this model: getText, getState, isHeading, supportsTextLocation, and the
   * clickable and locale spans of the node's text.
   */
  datatype UtilFacts = UtilFacts(
    text: Option<string>,
    state: Option<string>,
    isHeading: bool,
    supportsTextLocation: bool,
    clickableStrings: seq<string>,
    localeStrings: seq<LocaleString>)

  datatype Flags = Flags(
    visibleToUser: bool,
    enabled: bool,
    focusable: bool,
    screenReaderFocusable: bool,
    focused: bool,
    selected: bool,
    scrollable: bool,
    clickable: bool,
    longClickable: bool,
    accessibilityFocused: bool,
    checkable: bool,
    checked: bool,
    contentInvalid: bool,
    importantForAccessibility: bool)

  /** The attributes of one node; `hash` is what hashCode() returns. */
  datatype NodeInfo = NodeInfo(
    uid: NodeId,
    hash: Int32,
    windowId: int,
    className: Option<string>,
    text: Option<string>,
    contentDescription: Option<string>,
    viewId: Option<string>,
    roleDescription: Option<string>,
    paneTitle: Option<string>,
    error: Option<string>,
    tooltip: Option<string>,
    hint: Option<string>,
    stateDescription: Option<string>,
    bounds: Rect,
    flags: Flags,
    actionMask: bv32,
    actions: seq<ActionInfo>,
    collection: Option<CollectionInfo>,
    collectionItem: Option<CollectionItemInfo>,
    labeledBy: Option<LabelInfo>,
    utils: UtilFacts)

  /** Action ids of AccessibilityNodeInfo (each a single bit of the legacy action mask). */
  const ACTION_FOCUS: int := 0x1
  const ACTION_CLICK: int := 0x10
  const ACTION_LONG_CLICK: int := 0x20
  const ACTION_ACCESSIBILITY_FOCUS: int := 0x40
  const ACTION_CLEAR_ACCESSIBILITY_FOCUS: int := 0x80
  const ACTION_SCROLL_FORWARD: int := 0x1000
  const ACTION_SCROLL_BACKWARD: int := 0x2000
  const ACTION_EXPAND: int := 0x40000
  const ACTION_COLLAPSE: int := 0x80000
  const ACTION_SET_TEXT: int := 0x200000

  /** A node and its child slots; getChildCount() is |children|, an empty slot is a null child. */
  datatype Node = Node(info: NodeInfo, children: seq<Option<Node>>)

  /** The nodes of a tree in the order the recursive searches visit them. */
  function PreOrder(n: Node): (r: seq<Node>)
    ensures |r| >= 1 && r[0] == n
    decreases n, 1
  {
    [n] + ChildrenPreOrder(n, |n.children|)
  }

  /** The pre-order sequences of the first `k` child slots of `n`, concatenated. */
  function ChildrenPreOrder(n: Node, k: nat): seq<Node>
    requires k <= |n.children|
    decreases n, 0, k
  {
    if k == 0 then []
    else ChildrenPreOrder(n, k - 1) + SlotPreOrder(n.children[k - 1])
  }

  /** The pre-order of one child slot: nothing for an empty slot. */
  function SlotPreOrder(slot: Option<Node>): seq<Node>
    decreases slot, 0
  {
    match slot
    case None => []
    case Some(c) => PreOrder(c)
  }

  /** The nodes of several roots (one per window), window after window; empty roots are skipped. */
  function ForestPreOrder(roots: seq<Option<Node>>): seq<Node> {
    if roots == [] then []
    else ForestPreOrder(roots[..|roots| - 1]) + SlotPreOrder(roots[|roots| - 1])
  }

  function Filter<T>(s: seq<T>, p: T -> bool): (r: seq<T>)
    ensures |r| <= |s|
  {
    if s == [] then []
    else Filter(s[..|s| - 1], p) + (if p(s[|s| - 1]) then [s[|s| - 1]] else [])
  }

  lemma {:induction false} FilterConcat<T>(a: seq<T>, b: seq<T>, p: T -> bool)
    ensures Filter(a + b, p) == Filter(a, p) + Filter(b, p)
  {
    if b == [] {
      assert a + b == a;
    } else {
      FilterConcat(a, b[..|b| - 1], p);
      assert (a + b)[..|a + b| - 1] == a + b[..|b| - 1];
      assert (a + b)[|a + b| - 1] == b[|b| - 1];
    }
  }

  /** Filtering a sequence extended by one element. */
  lemma FilterSnoc<T>(s: seq<T>, x: T, p: T -> bool)
    ensures Filter(s + [x], p) == Filter(s, p) + (if p(x) then [x] else [])
  {
    assert (s + [x])[..|s|] == s;
  }

  /** Filter keeps exactly the elements that satisfy the predicate. */
  lemma {:induction false} FilterMembers<T>(s: seq<T>, p: T -> bool)
    ensures forall x :: x in Filter(s, p) <==> x in s && p(x)
  {
    if s != [] {
      FilterMembers(s[..|s| - 1], p);
      assert s == s[..|s| - 1] + [s[|s| - 1]];
    }
  }

  /** Distinct node identities along a sequence of nodes. */
  ghost predicate DistinctUids(s: seq<Node>) {
    forall i, j :: 0 <= i < j < |s| ==> s[i].info.uid != s[j].info.uid
  }

  ghost function Uids(s: seq<Node>): set<NodeId> {
    set x | x in s :: x.info.uid
  }

  /** List.contains(node): membership by node identity. */
  function ContainsNode(s: seq<Node>, n: Node): (r: bool)
    ensures r <==> n.info.uid in Uids(s)
  {
    if s == [] then false
    else
      assert s == s[..|s| - 1] + [s[|s| - 1]];
      UidsConcat(s[..|s| - 1], [s[|s| - 1]]);
      s[|s| - 1].info.uid == n.info.uid || ContainsNode(s[..|s| - 1], n)
  }

  /** Distinctness of a concatenation splits into distinct, identity-disjoint halves. */
  lemma DistinctSplit(a: seq<Node>, b: seq<Node>)
    requires DistinctUids(a + b)
    ensures DistinctUids(a) && DistinctUids(b) && Uids(a) !! Uids(b)
  {
    assert forall i :: 0 <= i < |a| ==> a[i] == (a + b)[i];
    assert forall j :: 0 <= j < |b| ==> b[j] == (a + b)[|a| + j];
    forall i, j | 0 <= i < |a| && 0 <= j < |b|
      ensures a[i].info.uid != b[j].info.uid
    {
      assert (a + b)[i] == a[i] && (a + b)[|a| + j] == b[j];
    }
  }

  lemma UidsConcat(a: seq<Node>, b: seq<Node>)
    ensures Uids(a + b) == Uids(a) + Uids(b)
  {
    assert forall x :: x in a + b <==> x in a || x in b;
  }

  /** The pre-order of a node: the node, then its child slots' pre-orders. */
  lemma PreOrderFilter(n: Node, p: Node -> bool)
    ensures Filter(PreOrder(n), p) == Filter([n], p) + Filter(ChildrenPreOrder(n, |n.children|), p)
  {
    var rest := ChildrenPreOrder(n, |n.children|);
    assert PreOrder(n) == [n] + rest;
    FilterConcat([n], rest, p);
  }

  /** Nothing passes the filter when no element satisfies the predicate. */
  lemma {:induction false} FilterNone<T>(s: seq<T>, p: T -> bool)
    requires forall x :: x in s ==> !p(x)
    ensures Filter(s, p) == []
  {
    if s != [] {
      assert s[|s| - 1] in s;
      assert forall x :: x in s[..|s| - 1] ==> x in s;
      FilterNone(s[..|s| - 1], p);
    }
  }

  /**
   * The list a recursive collecting search leaves behind: starting from `acc`,
   * a node that passes `keep` is appended, then its child slots are searched in order.
   */
  function Gathered(n: Node, keep: Node -> bool, acc: seq<Node>): seq<Node>
    decreases n, 1
  {
    GatheredSlots(n, keep, if keep(n) then acc + [n] else acc, |n.children|)
  }

  function GatheredSlots(n: Node, keep: Node -> bool, acc: seq<Node>, k: nat): seq<Node>
    requires k <= |n.children|
    decreases n, 0, k
  {
    if k == 0 then acc
    else
      var before := GatheredSlots(n, keep, acc, k - 1);
      match n.children[k - 1]
      case None => before
      case Some(c) => Gathered(c, keep, before)
  }

  /** A collecting search appends exactly the passing nodes of the subtree, in pre-order. */
  lemma {:induction false} GatheredIsFilter(n: Node, keep: Node -> bool, acc: seq<Node>)
    ensures Gathered(n, keep, acc) == acc + Filter(PreOrder(n), keep)
    decreases n, 1
  {
    var head := Filter([n], keep);
    var tail := Filter(ChildrenPreOrder(n, |n.children|), keep);
    var visited := if keep(n) then acc + [n] else acc;
    assert visited == acc + head by {
      assert [n][..0] == [];
    }
    assert Gathered(n, keep, acc) == (acc + head) + tail by {
      GatheredSlotsIsFilter(n, keep, visited, |n.children|);
    }
    assert Filter(PreOrder(n), keep) == head + tail by {
      PreOrderFilter(n, keep);
    }
    assert (acc + head) + tail == acc + (head + tail);
  }

  lemma {:induction false} GatheredSlotsIsFilter(n: Node, keep: Node -> bool, acc: seq<Node>, k: nat)
    requires k <= |n.children|
    ensures GatheredSlots(n, keep, acc, k) == acc + Filter(ChildrenPreOrder(n, k), keep)
    decreases n, 0, k
  {
    if k > 0 {
      var prefix := Filter(ChildrenPreOrder(n, k - 1), keep);
      var slotNodes := SlotPreOrder(n.children[k - 1]);
      var before := GatheredSlots(n, keep, acc, k - 1);
      assert before == acc + prefix by {
        GatheredSlotsIsFilter(n, keep, acc, k - 1);
      }
      assert Filter(ChildrenPreOrder(n, k), keep) == prefix + Filter(slotNodes, keep) by {
        FilterConcat(ChildrenPreOrder(n, k - 1), slotNodes, keep);
      }
      match n.children[k - 1]
      case None =>
        assert Filter(slotNodes, keep) == [];
      case Some(c) =>
        assert GatheredSlots(n, keep, acc, k) == before + Filter(slotNodes, keep) by {
          GatheredIsFilter(c, keep, before);
        }
        assert (acc + prefix) + Filter(slotNodes, keep) == acc + (prefix + Filter(slotNodes, keep));
    }
  }
}
