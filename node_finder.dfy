/**
 * CustomNodeFinder: recursive, pre-order searches of an accessibility tree by
 * text, by regular expression, by view id and by a set of property
 * requirements, plus node counting and tree statistics.
 */
module NodeFinder {
  import opened Wrappers
  import opened JavaString
  import opened Json
  import opened Nodes

  // ---------------------------------------------------------------------------
  // Text and regular-expression search
  // ---------------------------------------------------------------------------

  /**
   * A string test as the search applies it: Some(b) is its answer, None means
   * the test threw (String.matches with a pattern that does not compile).
   */
  type StringTest = string -> Option<bool>

  /** String.matches(pattern) of the platform's regex engine, which is not modelled. */
  type RegexEngine = (string, string) -> Option<bool>

  /** The exact, case-sensitive comparison of the text search. */
  function ExactTest(query: string): StringTest {
    (s: string) => Some(s == query)
  }

  function RegexTest(engine: RegexEngine, pattern: string): StringTest {
    (s: string) => engine(s, pattern)
  }

  /** The outcome of the text check: a missing text is no match and throws nothing. */
  function TextOutcome(n: Node, test: StringTest): Option<bool> {
    match n.info.text
    case None => Some(false)
    case Some(t) => test(t)
  }

  /**
   * Whether a node is reported: its text passes, or the text check completed
   * without a match (a throwing text check skips the description check) and
   * the content description passes.
   */
  predicate TextOrDescriptionHit(n: Node, test: StringTest) {
    var t := TextOutcome(n, test);
    t == Some(true)
    || (t == Some(false) && n.info.contentDescription.Some? && test(n.info.contentDescription.value) == Some(true))
  }

  function HitTest(test: StringTest): Node -> bool {
    (n: Node) => TextOrDescriptionHit(n, test)
  }

  /**
   * The visit of one node by findNodesByTextRecursive / findNodesByRegexRecursive:
   * the text check appends the node, then the description check appends it
   * unless the list already contains a node with the same identity.
   */
  function VisitNode(n: Node, test: StringTest, acc: seq<Node>): seq<Node> {
    var t := TextOutcome(n, test);
    var afterText := if t == Some(true) then acc + [n] else acc;
    if t.Some? && n.info.contentDescription.Some? && test(n.info.contentDescription.value) == Some(true)
       && !ContainsNode(afterText, n)
    then afterText + [n]
    else afterText
  }

  /** The list after searching the subtree of `n`, starting from `acc`. */
  function TextSearch(n: Node, test: StringTest, acc: seq<Node>): seq<Node>
    decreases n, 1
  {
    TextSearchSlots(n, test, VisitNode(n, test, acc), |n.children|)
  }

  /** The list after searching the first `k` child slots of `n` in order. */
  function TextSearchSlots(n: Node, test: StringTest, acc: seq<Node>, k: nat): seq<Node>
    requires k <= |n.children|
    decreases n, 0, k
  {
    if k == 0 then acc
    else
      var before := TextSearchSlots(n, test, acc, k - 1);
      match n.children[k - 1]
      case None => before
      case Some(c) => TextSearch(c, test, before)
  }

  /** A node whose identity is not yet listed is appended once exactly when it is a hit. */
  lemma VisitNodeSpec(n: Node, test: StringTest, acc: seq<Node>)
    ensures Uids(VisitNode(n, test, acc)) <= Uids(acc) + Uids([n])
    ensures n.info.uid !in Uids(acc) ==>
      VisitNode(n, test, acc) == if TextOrDescriptionHit(n, test) then acc + [n] else acc
  {
    var t := TextOutcome(n, test);
    UidsConcat(acc, [n]);
    UidsConcat(acc + [n], [n]);
    if n.info.uid !in Uids(acc) {
      if t == Some(true) {
        assert n in acc + [n];
        assert ContainsNode(acc + [n], n);
        assert TextOrDescriptionHit(n, test);
      } else {
        assert !ContainsNode(acc, n);
        assert t.Some? ==> !t.value && t == Some(false);
      }
    }
  }

  /** Searching a subtree appends only identities of that subtree. */
  lemma {:induction false} TextSearchUids(n: Node, test: StringTest, acc: seq<Node>)
    ensures Uids(TextSearch(n, test, acc)) <= Uids(acc) + Uids(PreOrder(n))
    decreases n, 1
  {
    var rest := ChildrenPreOrder(n, |n.children|);
    assert PreOrder(n) == [n] + rest;
    UidsConcat([n], rest);
    VisitNodeSpec(n, test, acc);
    TextSearchSlotsUids(n, test, VisitNode(n, test, acc), |n.children|);
  }

  lemma {:induction false} TextSearchSlotsUids(n: Node, test: StringTest, acc: seq<Node>, k: nat)
    requires k <= |n.children|
    ensures Uids(TextSearchSlots(n, test, acc, k)) <= Uids(acc) + Uids(ChildrenPreOrder(n, k))
    decreases n, 0, k
  {
    if k > 0 {
      var prefix := ChildrenPreOrder(n, k - 1);
      var slotNodes := SlotPreOrder(n.children[k - 1]);
      assert ChildrenPreOrder(n, k) == prefix + slotNodes;
      UidsConcat(prefix, slotNodes);
      TextSearchSlotsUids(n, test, acc, k - 1);
      match n.children[k - 1]
      case None =>
      case Some(c) =>
        TextSearchUids(c, test, TextSearchSlots(n, test, acc, k - 1));
    }
  }

  /**
   * When the identities of a subtree are distinct and not yet listed, the
   * identity check never rejects a hit: the search appends each hit once.
   */
  lemma {:induction false} TextSearchIsGathered(n: Node, test: StringTest, acc: seq<Node>)
    requires DistinctUids(PreOrder(n)) && Uids(acc) !! Uids(PreOrder(n))
    ensures TextSearch(n, test, acc) == Gathered(n, HitTest(test), acc)
    decreases n, 1
  {
    var rest := ChildrenPreOrder(n, |n.children|);
    var visited := VisitNode(n, test, acc);
    assert PreOrder(n) == [n] + rest;
    DistinctSplit([n], rest);
    UidsConcat([n], rest);
    assert n.info.uid in Uids([n]) by {
      assert n in [n];
    }
    VisitNodeSpec(n, test, acc);
    TextSearchSlotsIsGathered(n, test, visited, |n.children|);
  }

  lemma {:induction false} TextSearchSlotsIsGathered(n: Node, test: StringTest, acc: seq<Node>, k: nat)
    requires k <= |n.children|
    requires DistinctUids(ChildrenPreOrder(n, k)) && Uids(acc) !! Uids(ChildrenPreOrder(n, k))
    ensures TextSearchSlots(n, test, acc, k) == GatheredSlots(n, HitTest(test), acc, k)
    decreases n, 0, k
  {
    if k > 0 {
      var prefix := ChildrenPreOrder(n, k - 1);
      var slotNodes := SlotPreOrder(n.children[k - 1]);
      assert ChildrenPreOrder(n, k) == prefix + slotNodes;
      DistinctSplit(prefix, slotNodes);
      UidsConcat(prefix, slotNodes);
      TextSearchSlotsIsGathered(n, test, acc, k - 1);
      match n.children[k - 1]
      case None =>
      case Some(c) =>
        var before := TextSearchSlots(n, test, acc, k - 1);
        TextSearchSlotsUids(n, test, acc, k - 1);
        TextSearchIsGathered(c, test, before);
    }
  }

  /**
   * findNodesByTextRecursive / findNodesByRegexRecursive: appends the hits of
   * the subtree to `results`. When identities in the tree are distinct and
   * absent from `results`, each hit is appended once, in pre-order, even when
   * both its text and its content description pass.
   */
  method CollectTextOrDescription(node: Node, test: StringTest, results: seq<Node>) returns (out: seq<Node>)
    ensures out == TextSearch(node, test, results)
    ensures DistinctUids(PreOrder(node)) && Uids(results) !! Uids(PreOrder(node))
      ==> out == results + Filter(PreOrder(node), HitTest(test))
    decreases node
  {
    out := results;
    var textOutcome := TextOutcome(node, test);
    if textOutcome == Some(true) {
      out := out + [node];
    }
    if textOutcome.Some? && node.info.contentDescription.Some? {
      if test(node.info.contentDescription.value) == Some(true) && !ContainsNode(out, node) {
        out := out + [node];
      }
    }
    ghost var start := out;
    var i := 0;
    while i < |node.children|
      invariant i <= |node.children|
      invariant out == TextSearchSlots(node, test, start, i)
    {
      var slot := node.children[i];
      if slot.Some? {
        out := CollectTextOrDescription(slot.value, test, out);
      }
      i := i + 1;
    }
    if DistinctUids(PreOrder(node)) && Uids(results) !! Uids(PreOrder(node)) {
      TextSearchIsGathered(node, test, results);
      GatheredIsFilter(node, HitTest(test), results);
    }
  }

  /** findNodesByText: nodes whose text or content description equals the query exactly. */
  method FindNodesByText(root: Option<Node>, searchText: Option<string>) returns (r: seq<Node>)
    ensures root.None? || searchText.None? ==> r == []
    ensures root.Some? && searchText.Some? && DistinctUids(PreOrder(root.value))
      ==> r == Filter(PreOrder(root.value), HitTest(ExactTest(searchText.value)))
  {
    r := [];
    if root.None? || searchText.None? {
      return;
    }
    r := CollectTextOrDescription(root.value, ExactTest(searchText.value), r);
  }

  /**
   * findNodesByRegex: nodes whose text or content description matches the
   * pattern; a pattern the engine rejects makes every check on a node throw,
   * which skips that node without ending the search.
   */
  method FindNodesByRegex(root: Option<Node>, regexPattern: Option<string>, engine: RegexEngine) returns (r: seq<Node>)
    ensures root.None? || regexPattern.None? ==> r == []
    ensures root.Some? && regexPattern.Some? && DistinctUids(PreOrder(root.value))
      ==> r == Filter(PreOrder(root.value), HitTest(RegexTest(engine, regexPattern.value)))
  {
    r := [];
    if root.None? || regexPattern.None? {
      return;
    }
    r := CollectTextOrDescription(root.value, RegexTest(engine, regexPattern.value), r);
  }

  /** The text search reports exactly the nodes whose text or content description is the query. */
  lemma ExactHitMeaning(n: Node, query: string)
    ensures HitTest(ExactTest(query))(n) <==> n.info.text == Some(query) || n.info.contentDescription == Some(query)
  {
  }

  lemma {:induction false} FilterSamePredicate(s: seq<Node>, p: Node -> bool, q: Node -> bool)
    requires forall x :: x in s ==> p(x) == q(x)
    ensures Filter(s, p) == Filter(s, q)
  {
    if s != [] {
      FilterSamePredicate(s[..|s| - 1], p, q);
      assert s[|s| - 1] in s;
    }
  }

  /** An engine that compares literally turns the regular-expression search into the text search. */
  lemma LiteralRegexIsTextSearch(root: Node, engine: RegexEngine, pattern: string)
    requires forall s :: engine(s, pattern) == Some(s == pattern)
    ensures Filter(PreOrder(root), HitTest(RegexTest(engine, pattern)))
         == Filter(PreOrder(root), HitTest(ExactTest(pattern)))
  {
    FilterSamePredicate(PreOrder(root), HitTest(RegexTest(engine, pattern)), HitTest(ExactTest(pattern)));
  }

  /** A pattern the engine rejects finds nothing, although the whole tree is still walked. */
  lemma InvalidPatternFindsNothing(root: Node, engine: RegexEngine, pattern: string)
    requires forall s :: engine(s, pattern) == None
    ensures Filter(PreOrder(root), HitTest(RegexTest(engine, pattern))) == []
  {
    FilterNone(PreOrder(root), HitTest(RegexTest(engine, pattern)));
  }

  // ---------------------------------------------------------------------------
  // Pre-order collection by a node predicate: view id and all nodes
  // ---------------------------------------------------------------------------

  /** The recursive search shared by getAllNodes, findNodesByViewId and findNodesByProps. */
  method CollectMatching(node: Node, keep: Node -> bool, results: seq<Node>) returns (out: seq<Node>)
    ensures out == Gathered(node, keep, results)
    decreases node
  {
    out := results;
    if keep(node) {
      out := out + [node];
    }
    ghost var start := out;
    var i := 0;
    while i < |node.children|
      invariant i <= |node.children|
      invariant out == GatheredSlots(node, keep, start, i)
    {
      var slot := node.children[i];
      if slot.Some? {
        out := CollectMatching(slot.value, keep, out);
      }
      i := i + 1;
    }
  }

  function ViewIdTest(viewId: string): Node -> bool {
    (n: Node) => n.info.viewId == Some(viewId)
  }

  /** findNodesByViewId: the nodes whose view id resource name equals the given one. */
  method FindNodesByViewId(root: Option<Node>, viewId: Option<string>) returns (r: seq<Node>)
    ensures viewId.None? ==> r == []
    ensures viewId.Some? ==> r == Filter(SlotPreOrder(root), ViewIdTest(viewId.value))
  {
    r := [];
    if root.None? || viewId.None? {
      return;
    }
    r := CollectMatching(root.value, ViewIdTest(viewId.value), r);
    GatheredIsFilter(root.value, ViewIdTest(viewId.value), []);
  }

  /** A node is in the view-id result exactly when it is in the tree and carries that id. */
  lemma ViewIdResultMembers(root: Node, viewId: string, n: Node)
    ensures n in Filter(PreOrder(root), ViewIdTest(viewId)) <==> n in PreOrder(root) && n.info.viewId == Some(viewId)
  {
    FilterMembers(PreOrder(root), ViewIdTest(viewId));
  }

  function AnyNode(): Node -> bool {
    (n: Node) => true
  }

  lemma {:induction false} FilterAnyNode(s: seq<Node>)
    ensures Filter(s, AnyNode()) == s
  {
    if s != [] {
      FilterAnyNode(s[..|s| - 1]);
      assert s == s[..|s| - 1] + [s[|s| - 1]];
    }
  }

  /** getAllNodes: every node of the tree, in pre-order; nothing for a missing root. */
  method GetAllNodes(root: Option<Node>) returns (r: seq<Node>)
    ensures r == SlotPreOrder(root)
  {
    r := [];
    if root.None? {
      return;
    }
    r := CollectMatching(root.value, AnyNode(), r);
    GatheredIsFilter(root.value, AnyNode(), []);
    FilterAnyNode(PreOrder(root.value));
  }

  /** countNodes: the number of nodes reachable through non-null children. */
  method CountNodes(root: Option<Node>) returns (count: nat)
    ensures count == |SlotPreOrder(root)|
    decreases root, 1
  {
    if root.None? {
      return 0;
    }
    var node := root.value;
    count := 1;
    var i := 0;
    while i < |node.children|
      invariant i <= |node.children|
      invariant count == 1 + |ChildrenPreOrder(node, i)|
    {
      var child := node.children[i];
      if child.Some? {
        var c := CountNodes(child);
        count := count + c;
      }
      i := i + 1;
    }
  }

  // ---------------------------------------------------------------------------
  // Search by property requirements
  // ---------------------------------------------------------------------------

  /** One key of the properties object and the value it maps to. */
  datatype Property = Property(name: string, expected: InValue)

  /** matchesStringValue: the expected value is never Java null (JSONObject.NULL reads as "null"). */
  function MatchesStringValue(nodeValue: Option<string>, expected: InValue): (r: bool)
    ensures r <==> nodeValue == Some(ValueString(expected))
  {
    match nodeValue
    case None => false
    case Some(s) => s == ValueString(expected)
  }

  /** matchesBooleanValue: a JSON boolean, or a string read by Boolean.parseBoolean. */
  function MatchesBooleanValue(nodeValue: bool, expected: InValue): bool {
    match expected
    case Bool(b) => nodeValue == b
    case Str(s) => nodeValue == ParseBoolean(s)
    case _ => false
  }

  /** matchesIntValue: a JSON integer, or a string read by Integer.parseInt (unparsable: no match). */
  function MatchesIntValue(nodeValue: int, expected: InValue): bool {
    match expected
    case Int(i) => nodeValue == i
    case Str(s) => ParseInt(s).Some? && nodeValue == ParseInt(s).value
    case _ => false
  }

  /** nodeMatchesProperty: dispatch on the lower-cased property name; unknown names match. */
  predicate NodeMatchesProperty(n: Node, p: Property) {
    var key := ToLower(p.name);
    var info := n.info;
    if key == "classname" then MatchesStringValue(info.className, p.expected)
    else if key == "text" then MatchesStringValue(info.text, p.expected)
    else if key == "contentdescription" then MatchesStringValue(info.contentDescription, p.expected)
    else if key == "viewid" || key == "viewidresourcename" || key == "resourceid" then
      MatchesStringValue(info.viewId, p.expected)
    else if key == "isclickable" then MatchesBooleanValue(info.flags.clickable, p.expected)
    else if key == "isenabled" then MatchesBooleanValue(info.flags.enabled, p.expected)
    else if key == "isfocusable" then MatchesBooleanValue(info.flags.focusable, p.expected)
    else if key == "isfocused" then MatchesBooleanValue(info.flags.focused, p.expected)
    else if key == "isscrollable" then MatchesBooleanValue(info.flags.scrollable, p.expected)
    else if key == "ischeckable" then MatchesBooleanValue(info.flags.checkable, p.expected)
    else if key == "ischecked" then MatchesBooleanValue(info.flags.checked, p.expected)
    else if key == "isselected" then MatchesBooleanValue(info.flags.selected, p.expected)
    else if key == "childcount" then MatchesIntValue(|n.children|, p.expected)
    else true
  }

  /** The property names the matcher knows, lower-cased. */
  const KnownProperties: set<string> := {
    "classname", "text", "contentdescription", "viewid", "viewidresourcename", "resourceid",
    "isclickable", "isenabled", "isfocusable", "isfocused", "isscrollable", "ischeckable",
    "ischecked", "isselected", "childcount"
  }

  /** A node satisfies a properties object when it names at least one property and meets all. */
  predicate NodeMatchesProps(n: Node, props: seq<Property>) {
    |props| > 0 && forall i :: 0 <= i < |props| ==> NodeMatchesProperty(n, props[i])
  }

  function PropsTest(props: seq<Property>): Node -> bool {
    (n: Node) => NodeMatchesProps(n, props)
  }

  /** The per-node loop of findNodesByPropsRecursive: stops at the first requirement not met. */
  method MatchesAllProperties(node: Node, props: seq<Property>) returns (matches: bool)
    ensures matches <==> NodeMatchesProps(node, props)
  {
    matches := true;
    var propertyCount := 0;
    var i := 0;
    while i < |props|
      invariant i <= |props|
      invariant propertyCount == i
      invariant matches <==> forall j :: 0 <= j < i ==> NodeMatchesProperty(node, props[j])
    {
      propertyCount := propertyCount + 1;
      if !NodeMatchesProperty(node, props[i]) {
        matches := false;
        break;
      }
      i := i + 1;
    }
    if propertyCount == 0 {
      matches := false;
    }
  }

  /** findNodesByProps: a missing root or properties object finds nothing. */
  method FindNodesByProps(root: Option<Node>, properties: Option<seq<Property>>) returns (r: seq<Node>)
    ensures properties.None? ==> r == []
    ensures properties.Some? ==> r == Filter(SlotPreOrder(root), PropsTest(properties.value))
  {
    r := [];
    if root.None? || properties.None? {
      return;
    }
    r := CollectMatching(root.value, PropsTest(properties.value), r);
    GatheredIsFilter(root.value, PropsTest(properties.value), []);
  }

  /** An empty properties object matches no node at all. */
  lemma EmptyPropsFindNothing(root: Node)
    ensures Filter(PreOrder(root), PropsTest([])) == []
  {
    FilterNone(PreOrder(root), PropsTest([]));
  }

  /** Property names are matched without regard to case. */
  lemma PropertyNameIgnoresCase(n: Node, name1: string, name2: string, expected: InValue)
    requires EqualsIgnoreCase(name1, name2)
    ensures NodeMatchesProperty(n, Property(name1, expected)) == NodeMatchesProperty(n, Property(name2, expected))
  {
    EqualsIgnoreCaseIsUpperEquality(name1, name2);
  }

  /** A requirement with an unknown name constrains nothing: dropping it keeps the verdict of a non-empty object. */
  lemma UnknownPropertyIgnored(n: Node, before: seq<Property>, unknown: Property, after: seq<Property>)
    requires ToLower(unknown.name) !in KnownProperties
    requires before + after != []
    ensures NodeMatchesProps(n, before + [unknown] + after) == NodeMatchesProps(n, before + after)
  {
    var all := before + [unknown] + after;
    var kept := before + after;
    assert NodeMatchesProperty(n, unknown);
    if NodeMatchesProps(n, kept) {
      forall i | 0 <= i < |all| ensures NodeMatchesProperty(n, all[i]) {
        if i < |before| {
          assert all[i] == kept[i];
        } else if i > |before| {
          assert all[i] == kept[i - 1];
        }
      }
    }
    if NodeMatchesProps(n, all) {
      forall i | 0 <= i < |kept| ensures NodeMatchesProperty(n, kept[i]) {
        if i < |before| {
          assert kept[i] == all[i];
        } else {
          assert kept[i] == all[i + 1];
        }
      }
    }
  }

  /** An integer requirement written as a JSON string means the same as the JSON integer. */
  lemma IntRequirementEncodingsAgree(nodeValue: int, i: Int32)
    ensures MatchesIntValue(nodeValue, Str(IntToString(i))) == MatchesIntValue(nodeValue, Int(i))
  {
    ParseIntOfIntToString(i);
  }

  /** A boolean requirement written as a JSON string means the same as the JSON boolean. */
  lemma BoolRequirementEncodingsAgree(nodeValue: bool, b: bool)
    ensures MatchesBooleanValue(nodeValue, Str(BoolToString(b))) == MatchesBooleanValue(nodeValue, Bool(b))
  {
    if !b {
      assert !EqualsIgnoreCase("false", "true");
    } else {
      assert EqualsIgnoreCase("true", "true");
    }
  }

  // ---------------------------------------------------------------------------
  // Statistics
  // ---------------------------------------------------------------------------

  datatype TreeStats = TreeStats(total: nat, withText: nat, withContentDescription: nat, withViewId: nat, clickable: nat)

  predicate HasText(n: Node) { n.info.text.Some? && |n.info.text.value| > 0 }
  predicate HasContentDescription(n: Node) { n.info.contentDescription.Some? && |n.info.contentDescription.value| > 0 }
  predicate HasViewId(n: Node) { n.info.viewId.Some? && |n.info.viewId.value| > 0 }
  predicate IsClickable(n: Node) { n.info.flags.clickable }

  /** The statistics of a node list: its size and how many nodes have each attribute. */
  function StatsOf(nodes: seq<Node>): (s: TreeStats)
    ensures s.withText <= s.total && s.withContentDescription <= s.total
    ensures s.withViewId <= s.total && s.clickable <= s.total
  {
    TreeStats(|nodes|, |Filter(nodes, HasText)|, |Filter(nodes, HasContentDescription)|,
      |Filter(nodes, HasViewId)|, |Filter(nodes, IsClickable)|)
  }

  /** The String.format message of getTreeStats. */
  function StatsMessage(s: TreeStats): string {
    "Total nodes: " + NatToString(s.total)
    + ", With text: " + NatToString(s.withText)
    + ", With contentDesc: " + NatToString(s.withContentDescription)
    + ", With viewId: " + NatToString(s.withViewId)
    + ", Clickable: " + NatToString(s.clickable)
  }

  /** getTreeStats: "Root is null", or the counts over all nodes of the tree. */
  method GetTreeStats(root: Option<Node>) returns (r: string)
    ensures root.None? ==> r == "Root is null"
    ensures root.Some? ==> r == StatsMessage(StatsOf(PreOrder(root.value)))
  {
    if root.None? {
      return "Root is null";
    }
    var allNodes := GetAllNodes(root);
    var withText, withDesc, withViewId, clickable := 0, 0, 0, 0;
    var i := 0;
    while i < |allNodes|
      invariant i <= |allNodes|
      invariant withText == |Filter(allNodes[..i], HasText)|
      invariant withDesc == |Filter(allNodes[..i], HasContentDescription)|
      invariant withViewId == |Filter(allNodes[..i], HasViewId)|
      invariant clickable == |Filter(allNodes[..i], IsClickable)|
    {
      var node := allNodes[i];
      assert allNodes[..i + 1][..i] == allNodes[..i];
      if HasText(node) { withText := withText + 1; }
      if HasContentDescription(node) { withDesc := withDesc + 1; }
      if HasViewId(node) { withViewId := withViewId + 1; }
      if IsClickable(node) { clickable := clickable + 1; }
      i := i + 1;
    }
    assert allNodes[..|allNodes|] == allNodes;
    r := StatsMessage(TreeStats(|allNodes|, withText, withDesc, withViewId, clickable));
  }
}
