/**
 * The command semantics of the accessibility service (AccessibilityInspector):
 * locating the target of an action by resource id or hash code, decoding and
 * performing the action, and validating and describing launch requests.
 *
 * The node searches here walk windows as trees (`Nodes.Node`); the capture
 * walks the same windows as a graph (`TreeDebug.Graph`). The operating
 * system's answers (whether a node accepts an action, whether a launch intent
 * exists or resolves) are parameters.
 */
module Inspector {
  import opened Wrappers
  import opened JavaString
  import opened Json
  import opened Nodes

  // ---------------------------------------------------------------------------
  // The messages the service reports
  // ---------------------------------------------------------------------------

  const NO_CRITERIA := "No search criteria provided (resourceId or hashCode required)"
  const INVALID_HASH_CODE := "Invalid hash code format: "
  const NODE_WITH := "Node with "
  const NOT_FOUND := " not found"
  const BY_RESOURCE_ID := "resource ID '"
  const BY_HASH_CODE := "hash code '"
  const UNKNOWN_ACTION := "Unknown action type: "
  const TEXT_REQUIRED := "Text parameter is required for SET_TEXT action"
  const PERFORMED := " action performed successfully"
  const FAILED := " action failed"
  const FOUND_BY := " (target found by "
  const ACTION_ERROR := "Error performing action: "
  const UNKNOWN_LAUNCH := "Unknown launch type: "
  const PACKAGE_REQUIRED := "Package name is required for PACKAGE launch type"
  const COMPONENT_REQUIRED := "Both package name and class name are required for COMPONENT launch type"
  const INTENT_REQUIRED := "Intent action is required for INTENT launch type"
  const URL_REQUIRED := "URL is required for URL launch type (use 'data' field)"
  const DIAL_REQUIRED := "Phone number is required for DIAL launch type (use 'data' field)"
  const SMS_REQUIRED := "Phone number is required for SMS launch type (use 'data' field)"
  const NO_LAUNCH_INTENT := "No launch intent found for package: "
  const NO_APP := "No app found to handle "
  const LAUNCHED := "Successfully launched "
  const DESCRIBE_PACKAGE := "package '"
  const DESCRIBE_COMPONENT := "component '"
  const DESCRIBE_INTENT := "intent action '"
  const WITH_DATA := " with data '"
  const AND_CATEGORY := " and category '"
  const DESCRIBE_URL := "URL '"
  const DESCRIBE_SETTINGS := "settings screen '"
  const DESCRIBE_DIAL := "dialer with number '"
  const DESCRIBE_SMS := "SMS to '"
  const DESCRIBE_EMAIL := "email to '"
  const EMAIL_CLIENT := "email client"

  // ---------------------------------------------------------------------------
  // Finding a node: the first pre-order match, window after window
  // ---------------------------------------------------------------------------

  /** The first element of `s` that satisfies `p`. */
  function FirstMatch(s: seq<Node>, p: Node -> bool): (r: Option<Node>)
    ensures r.None? <==> forall i :: 0 <= i < |s| ==> !p(s[i])
    ensures r.Some? ==> r.value in s && p(r.value)
  {
    if s == [] then None
    else if p(s[0]) then Some(s[0])
    else
      var r := FirstMatch(s[1..], p);
      assert forall i :: 1 <= i < |s| ==> s[i] == s[1..][i - 1];
      r
  }

  /** No element before the one FirstMatch returns satisfies the predicate. */
  lemma {:induction false} FirstMatchIsFirst(s: seq<Node>, p: Node -> bool) returns (i: nat)
    requires FirstMatch(s, p).Some?
    ensures i < |s| && s[i] == FirstMatch(s, p).value
    ensures forall j :: 0 <= j < i ==> !p(s[j])
  {
    if p(s[0]) {
      i := 0;
    } else {
      var k := FirstMatchIsFirst(s[1..], p);
      i := k + 1;
    }
  }

  lemma {:induction false} FirstMatchConcat(a: seq<Node>, b: seq<Node>, p: Node -> bool)
    ensures FirstMatch(a + b, p) == if FirstMatch(a, p).Some? then FirstMatch(a, p) else FirstMatch(b, p)
  {
    if a == [] {
      assert a + b == b;
    } else {
      assert (a + b)[0] == a[0];
      assert (a + b)[1..] == a[1..] + b;
      FirstMatchConcat(a[1..], b, p);
    }
  }

  /** find*Recursive: the node itself if it matches, else the first hit among its non-null children. */
  function Search(n: Node, p: Node -> bool): Option<Node>
    decreases n, 1
  {
    if p(n) then Some(n) else SearchSlots(n, p, |n.children|)
  }

  /** The child loop of find*Recursive over the first `k` slots: it stops at the first hit. */
  function SearchSlots(n: Node, p: Node -> bool, k: nat): Option<Node>
    requires k <= |n.children|
    decreases n, 0, k
  {
    if k == 0 then None
    else
      match SearchSlots(n, p, k - 1)
      case Some(x) => Some(x)
      case None =>
        match n.children[k - 1]
        case None => None
        case Some(c) => Search(c, p)
  }

  /** Once the child loop has a hit, the later slots do not change it. */
  lemma {:induction false} SearchSlotsStable(n: Node, p: Node -> bool, i: nat, k: nat)
    requires i <= k <= |n.children| && SearchSlots(n, p, i).Some?
    ensures SearchSlots(n, p, k) == SearchSlots(n, p, i)
    decreases k
  {
    if k > i {
      SearchSlotsStable(n, p, i, k - 1);
    }
  }

  /** The recursive search returns the first pre-order match of the subtree. */
  lemma {:induction false} SearchIsFirstMatch(n: Node, p: Node -> bool)
    ensures Search(n, p) == FirstMatch(PreOrder(n), p)
    decreases n, 1
  {
    assert PreOrder(n)[0] == n;
    if !p(n) {
      SearchSlotsIsFirstMatch(n, p, |n.children|);
      assert PreOrder(n)[1..] == ChildrenPreOrder(n, |n.children|);
    }
  }

  lemma {:induction false} SearchSlotsIsFirstMatch(n: Node, p: Node -> bool, k: nat)
    requires k <= |n.children|
    ensures SearchSlots(n, p, k) == FirstMatch(ChildrenPreOrder(n, k), p)
    decreases n, 0, k
  {
    if k > 0 {
      SearchSlotsIsFirstMatch(n, p, k - 1);
      var slot := n.children[k - 1];
      FirstMatchConcat(ChildrenPreOrder(n, k - 1), SlotPreOrder(slot), p);
      match slot
      case None =>
      case Some(c) =>
        SearchIsFirstMatch(c, p);
    }
  }

  lemma {:induction false} ForestPreOrderConcat(a: seq<Option<Node>>, b: seq<Option<Node>>)
    ensures ForestPreOrder(a + b) == ForestPreOrder(a) + ForestPreOrder(b)
    decreases |b|
  {
    if b == [] {
      assert a + b == a;
    } else {
      ForestPreOrderConcat(a, b[..|b| - 1]);
      assert (a + b)[..|a + b| - 1] == a + b[..|b| - 1];
    }
  }

  /** findNodeBy*Recursive: the recursive search over one window's tree. */
  method FindRecursive(node: Node, p: Node -> bool) returns (found: Option<Node>)
    ensures found == Search(node, p)
    decreases node
  {
    if p(node) {
      return Some(node);
    }
    for i := 0 to |node.children|
      invariant SearchSlots(node, p, i) == None
    {
      var child := node.children[i];
      if child.Some? {
        var foundNode := FindRecursive(child.value, p);
        if foundNode.Some? {
          SearchSlotsStable(node, p, i + 1, |node.children|);
          return foundNode;
        }
      }
    }
    return None;
  }

  /** findNodeBy*: the windows in order, skipping those without a root; the first hit wins. */
  method FindInWindows(roots: seq<Option<Node>>, p: Node -> bool) returns (found: Option<Node>)
    ensures found == FirstMatch(ForestPreOrder(roots), p)
  {
    for i := 0 to |roots|
      invariant FirstMatch(ForestPreOrder(roots[..i]), p) == None
    {
      assert roots[..i + 1][..i] == roots[..i];
      FirstMatchConcat(ForestPreOrder(roots[..i]), SlotPreOrder(roots[i]), p);
      var rootNode := roots[i];
      if rootNode.Some? {
        var foundNode := FindRecursive(rootNode.value, p);
        SearchIsFirstMatch(rootNode.value, p);
        if foundNode.Some? {
          assert roots == roots[..i + 1] + roots[i + 1..];
          ForestPreOrderConcat(roots[..i + 1], roots[i + 1..]);
          FirstMatchConcat(ForestPreOrder(roots[..i + 1]), ForestPreOrder(roots[i + 1..]), p);
          return foundNode;
        }
      }
    }
    assert roots[..|roots|] == roots;
    return None;
  }

  function ResourceIdIs(resourceId: string): Node -> bool {
    (n: Node) => n.info.viewId == Some(resourceId)
  }

  function HashCodeIs(hashCode: int): Node -> bool {
    (n: Node) => n.info.hash == hashCode
  }

  /** findNodeByResourceId */
  method FindNodeByResourceId(roots: seq<Option<Node>>, resourceId: string) returns (found: Option<Node>)
    ensures found.Some? ==> found.value in ForestPreOrder(roots) && found.value.info.viewId == Some(resourceId)
    ensures found.None? <==> forall n :: n in ForestPreOrder(roots) ==> n.info.viewId != Some(resourceId)
    ensures found == FirstMatch(ForestPreOrder(roots), ResourceIdIs(resourceId))
  {
    found := FindInWindows(roots, ResourceIdIs(resourceId));
  }

  /** findNodeByHashCode */
  method FindNodeByHashCode(roots: seq<Option<Node>>, hashCode: Int32) returns (found: Option<Node>)
    ensures found.Some? ==> found.value in ForestPreOrder(roots) && found.value.info.hash == hashCode
    ensures found.None? <==> forall n :: n in ForestPreOrder(roots) ==> n.info.hash != hashCode
    ensures found == FirstMatch(ForestPreOrder(roots), HashCodeIs(hashCode))
  {
    found := FindInWindows(roots, HashCodeIs(hashCode));
  }

  // ---------------------------------------------------------------------------
  // performAction
  // ---------------------------------------------------------------------------

  predicate Given(s: Option<string>) {
    s.Some? && s.value != ""
  }

  datatype Resolution = Resolved(target: Node, criteria: string) | Unresolved(message: string)

  /** The first node in the windows that satisfies `p`, reported under `criteria`. */
  function Locate(roots: seq<Option<Node>>, p: Node -> bool, criteria: string): (r: Resolution)
    ensures r.Resolved? <==> exists n :: n in ForestPreOrder(roots) && p(n)
    ensures r.Resolved? ==> r.target in ForestPreOrder(roots) && p(r.target) && r.criteria == criteria
    ensures r.Unresolved? ==> r.message == NODE_WITH + criteria + NOT_FOUND
  {
    match FirstMatch(ForestPreOrder(roots), p)
    case Some(n) => Resolved(n, criteria)
    case None =>
      assert forall n :: n in ForestPreOrder(roots) ==> !p(n);
      Unresolved(NODE_WITH + criteria + NOT_FOUND)
  }

  /**
   * Where performAction's target comes from: a non-empty resource id wins;
   * otherwise a non-empty hash code, which must parse as an int.
   */
  function ResolveTarget(roots: seq<Option<Node>>, resourceId: Option<string>, hashCodeStr: Option<string>)
    : (r: Resolution)
    ensures Given(resourceId) ==> r == Locate(roots, ResourceIdIs(resourceId.value), BY_RESOURCE_ID + resourceId.value + "'")
    ensures !Given(resourceId) && Given(hashCodeStr) ==>
      match ParseInt(hashCodeStr.value)
      case None => r == Unresolved(INVALID_HASH_CODE + hashCodeStr.value)
      case Some(h) => r == Locate(roots, HashCodeIs(h), BY_HASH_CODE + hashCodeStr.value + "'")
    ensures !Given(resourceId) && !Given(hashCodeStr) ==>
      r == Unresolved(NO_CRITERIA)
  {
    if Given(resourceId) then
      Locate(roots, ResourceIdIs(resourceId.value), BY_RESOURCE_ID + resourceId.value + "'")
    else if Given(hashCodeStr) then
      match ParseInt(hashCodeStr.value)
      case None => Unresolved(INVALID_HASH_CODE + hashCodeStr.value)
      case Some(h) => Locate(roots, HashCodeIs(h), BY_HASH_CODE + hashCodeStr.value + "'")
    else Unresolved(NO_CRITERIA)
  }

  /** A resolved target is a node on screen that carries the resource id, or else the parsed hash code. */
  lemma ResolvedTargetMatches(roots: seq<Option<Node>>, resourceId: Option<string>, hashCodeStr: Option<string>)
    requires ResolveTarget(roots, resourceId, hashCodeStr).Resolved?
    ensures var t := ResolveTarget(roots, resourceId, hashCodeStr).target;
      t in ForestPreOrder(roots)
      && (Given(resourceId) ==> t.info.viewId == resourceId)
      && (!Given(resourceId) ==> Given(hashCodeStr) && ParseInt(hashCodeStr.value) == Some(t.info.hash))
  {
    if !Given(resourceId) && Given(hashCodeStr) {
      var h := ParseInt(hashCodeStr.value).value;
      assert ResolveTarget(roots, resourceId, hashCodeStr) == Locate(roots, HashCodeIs(h), BY_HASH_CODE + hashCodeStr.value + "'");
    }
  }

  /** A resource id hides the hash code: with a non-empty resource id the hash code is never consulted. */
  lemma ResourceIdTakesPrecedence(roots: seq<Option<Node>>, resourceId: string, h1: Option<string>, h2: Option<string>)
    requires resourceId != ""
    ensures ResolveTarget(roots, Some(resourceId), h1) == ResolveTarget(roots, Some(resourceId), h2)
  {
  }

  /** The actions performAction knows. */
  datatype NodeAction =
    | Click | Focus | SetText | ClearText | LongClick
    | ScrollForward | ScrollBackward | AccessibilityFocus | ClearAccessibilityFocus

  const AllActions: seq<NodeAction> :=
    [Click, Focus, SetText, ClearText, LongClick, ScrollForward, ScrollBackward, AccessibilityFocus,
     ClearAccessibilityFocus]

  /** The upper-case name of an action, as accepted with or without the "ACTION_" prefix. */
  function ActionName(a: NodeAction): string {
    match a
    case Click => "CLICK"
    case Focus => "FOCUS"
    case SetText => "SET_TEXT"
    case ClearText => "CLEAR_TEXT"
    case LongClick => "LONG_CLICK"
    case ScrollForward => "SCROLL_FORWARD"
    case ScrollBackward => "SCROLL_BACKWARD"
    case AccessibilityFocus => "ACCESSIBILITY_FOCUS"
    case ClearAccessibilityFocus => "CLEAR_ACCESSIBILITY_FOCUS"
  }

  /** The two case labels of one action in the switch. */
  predicate Names(u: string, a: NodeAction) {
    u == "ACTION_" + ActionName(a) || u == ActionName(a)
  }

  /** The first action among `actions` with `u` as one of its labels. */
  function FindAction(u: string, actions: seq<NodeAction>): (r: Option<NodeAction>)
    ensures r.Some? ==> r.value in actions && Names(u, r.value)
    ensures r.None? ==> forall a :: a in actions ==> !Names(u, a)
  {
    if actions == [] then None
    else if Names(u, actions[0]) then Some(actions[0])
    else
      assert actions == [actions[0]] + actions[1..];
      FindAction(u, actions[1..])
  }

  /** The switch on actionType.toUpperCase(). */
  function DecodeAction(actionType: string): (r: Option<NodeAction>)
    ensures r.Some? ==> Names(ToUpper(actionType), r.value)
    ensures r.None? <==> forall a :: !Names(ToUpper(actionType), a)
  {
    AllActionsComplete();
    FindAction(ToUpper(actionType), AllActions)
  }

  lemma AllActionsComplete()
    ensures forall a :: a in AllActions
  {
    forall a ensures a in AllActions {
      match a
      case Click => assert AllActions[0] == a;
      case Focus => assert AllActions[1] == a;
      case SetText => assert AllActions[2] == a;
      case ClearText => assert AllActions[3] == a;
      case LongClick => assert AllActions[4] == a;
      case ScrollForward => assert AllActions[5] == a;
      case ScrollBackward => assert AllActions[6] == a;
      case AccessibilityFocus => assert AllActions[7] == a;
      case ClearAccessibilityFocus => assert AllActions[8] == a;
    }
  }

  /** The length and first letter of an action's name tell the actions apart. */
  function NameKey(a: NodeAction): (int, char) {
    (|ActionName(a)|, ActionName(a)[0])
  }

  lemma NameKeyInjective(a: NodeAction, b: NodeAction)
    requires NameKey(a) == NameKey(b)
    ensures a == b
  {
  }

  /** No action's own name starts with "ACTION_". */
  lemma NameNotPrefixed(a: NodeAction)
    ensures |ActionName(a)| > 2 && (ActionName(a)[0] != 'A' || ActionName(a)[2] != 'T')
  {
  }

  /** No action's name is a prefixed label. */
  lemma PrefixedIsNoName(x: string, b: NodeAction)
    ensures "ACTION_" + x != ActionName(b)
  {
    NameNotPrefixed(b);
    assert ("ACTION_" + x)[0] == 'A' && ("ACTION_" + x)[2] == 'T';
  }

  /** A string is a label of at most one action. */
  lemma NamesUnique(u: string, a: NodeAction, b: NodeAction)
    requires Names(u, a) && Names(u, b)
    ensures a == b
  {
    PrefixedIsNoName(ActionName(a), b);
    PrefixedIsNoName(ActionName(b), a);
    if u == "ACTION_" + ActionName(a) {
      assert ActionName(a) == u[7..] == ActionName(b);
    }
    NameKeyInjective(a, b);
  }

  /** Every action is accepted by its name and by its name with the "ACTION_" prefix, in any letter case. */
  lemma DecodeActionAcceptsNames(a: NodeAction, actionType: string)
    requires Names(ToUpper(actionType), a)
    ensures DecodeAction(actionType) == Some(a)
  {
    NamesUnique(ToUpper(actionType), a, DecodeAction(actionType).value);
  }

  /** Decoding ignores letter case. */
  lemma DecodeActionIgnoresCase(s: string, t: string)
    requires EqualsIgnoreCase(s, t)
    ensures DecodeAction(s) == DecodeAction(t)
  {
    EqualsIgnoreCaseIsUpperEquality(s, t);
  }

  /** What the node is asked to do: an action id and, for the set-text action, its text argument. */
  datatype NodeRequest = NodeRequest(actionId: int, setText: Option<string>)

  /** The request each action issues; clearing text is setting the empty text. */
  function RequestFor(a: NodeAction, text: string): (r: NodeRequest)
    ensures a == ClearText ==> r == NodeRequest(ACTION_SET_TEXT, Some(""))
    ensures a == SetText ==> r == NodeRequest(ACTION_SET_TEXT, Some(text))
    ensures a != SetText && a != ClearText ==> r.setText.None?
  {
    match a
    case Click => NodeRequest(ACTION_CLICK, None)
    case Focus => NodeRequest(ACTION_FOCUS, None)
    case SetText => NodeRequest(ACTION_SET_TEXT, Some(text))
    case ClearText => NodeRequest(ACTION_SET_TEXT, Some(""))
    case LongClick => NodeRequest(ACTION_LONG_CLICK, None)
    case ScrollForward => NodeRequest(ACTION_SCROLL_FORWARD, None)
    case ScrollBackward => NodeRequest(ACTION_SCROLL_BACKWARD, None)
    case AccessibilityFocus => NodeRequest(ACTION_ACCESSIBILITY_FOCUS, None)
    case ClearAccessibilityFocus => NodeRequest(ACTION_CLEAR_ACCESSIBILITY_FOCUS, None)
  }

  /** The word each action's result message starts with. */
  function ActionVerb(a: NodeAction): string {
    match a
    case Click => "Click"
    case Focus => "Focus"
    case SetText => "Set text"
    case ClearText => "Clear text"
    case LongClick => "Long click"
    case ScrollForward => "Scroll forward"
    case ScrollBackward => "Scroll backward"
    case AccessibilityFocus => "Accessibility focus"
    case ClearAccessibilityFocus => "Clear accessibility focus"
  }

  /** A request that reached a node. */
  datatype Issued = Issued(target: Node, request: NodeRequest)

  /** What sendActionResult reports, and the request performed on a node, if any. */
  datatype ActionReport = ActionReport(success: bool, message: string, issued: Option<Issued>)

  /**
   * The result of performAction once the target is resolved and the action
   * decoded. `accepts` stands for node.performAction: whether the node
   * reports that it carried out the request.
   */
  function ActionResult(res: Resolution, action: Option<NodeAction>, actionType: string, text: Option<string>,
                        accepts: (Node, NodeRequest) -> bool): (r: ActionReport)
    ensures res.Unresolved? ==> r == ActionReport(false, res.message, None)
    ensures res.Resolved? && action.None? ==> r == ActionReport(false, UNKNOWN_ACTION + actionType, None)
    ensures res.Resolved? && action == Some(SetText) && text.None? ==> r == ActionReport(false, TEXT_REQUIRED, None)
    ensures r.issued.Some? <==> res.Resolved? && action.Some? && (action != Some(SetText) || text.Some?)
    ensures r.issued.Some? ==>
      r.issued.value == Issued(res.target, RequestFor(action.value, text.GetOr("")))
      && r.success == accepts(r.issued.value.target, r.issued.value.request)
      && r.message == ActionVerb(action.value) + (if r.success then PERFORMED + FOUND_BY + res.criteria + ")" else FAILED)
    ensures r.success ==> r.issued.Some?
  {
    match res
    case Unresolved(message) => ActionReport(false, message, None)
    case Resolved(target, criteria) =>
      match action
      case None => ActionReport(false, UNKNOWN_ACTION + actionType, None)
      case Some(a) =>
        if a == SetText && text.None? then
          ActionReport(false, TEXT_REQUIRED, None)
        else
          var request := RequestFor(a, text.GetOr(""));
          var success := accepts(target, request);
          ActionReport(success, ActionVerb(a) + (if success then PERFORMED + FOUND_BY + criteria + ")" else FAILED),
                       Some(Issued(target, request)))
  }

  /** performAction */
  method PerformAction(roots: seq<Option<Node>>, resourceId: Option<string>, hashCodeStr: Option<string>,
                       actionType: string, text: Option<string>, accepts: (Node, NodeRequest) -> bool)
    returns (report: ActionReport)
    ensures report == ActionResult(ResolveTarget(roots, resourceId, hashCodeStr), DecodeAction(actionType), actionType, text, accepts)
  {
    var targetNode: Option<Node> := None;
    var searchCriteria := "";
    if Given(resourceId) {
      targetNode := FindNodeByResourceId(roots, resourceId.value);
      searchCriteria := BY_RESOURCE_ID + resourceId.value + "'";
    } else if Given(hashCodeStr) {
      var parsed := ParseInt(hashCodeStr.value);
      if parsed.None? {
        return ActionReport(false, INVALID_HASH_CODE + hashCodeStr.value, None);
      }
      targetNode := FindNodeByHashCode(roots, parsed.value);
      searchCriteria := BY_HASH_CODE + hashCodeStr.value + "'";
    }
    var resolution := ResolveTarget(roots, resourceId, hashCodeStr);
    if targetNode.None? {
      var errorMsg := if searchCriteria == "" then NO_CRITERIA
                      else NODE_WITH + searchCriteria + NOT_FOUND;
      assert resolution == Unresolved(errorMsg);
      return ActionReport(false, errorMsg, None);
    }
    var target := targetNode.value;
    assert resolution == Resolved(target, searchCriteria);
    var action := DecodeAction(actionType);
    report := PerformOn(target, searchCriteria, action, actionType, text, accepts);
  }

  /** The switch of performAction on the resolved target. */
  method PerformOn(target: Node, searchCriteria: string, action: Option<NodeAction>, actionType: string,
                   text: Option<string>, accepts: (Node, NodeRequest) -> bool)
    returns (report: ActionReport)
    ensures report == ActionResult(Resolved(target, searchCriteria), action, actionType, text, accepts)
  {
    var result := false;
    var message := "";
    var issued: Option<Issued> := None;
    if action.None? {
      message := UNKNOWN_ACTION + actionType;
    } else if action.value == SetText && text.None? {
      message := TEXT_REQUIRED;
    } else {
      var request := RequestFor(action.value, text.GetOr(""));
      result := accepts(target, request);
      issued := Some(Issued(target, request));
      message := ActionVerb(action.value) + (if result then PERFORMED else FAILED);
    }
    if result {
      message := message + FOUND_BY + searchCriteria + ")";
      assert message == ActionVerb(action.value) + (PERFORMED + FOUND_BY + searchCriteria + ")");
    }
    report := ActionReport(result, message, issued);
  }

  // ---------------------------------------------------------------------------
  // launchActivity
  // ---------------------------------------------------------------------------

  datatype LaunchKind =
    | PackageLaunch | ComponentLaunch | IntentLaunch | UrlLaunch
    | SettingsLaunch | DialLaunch | SmsLaunch | EmailLaunch

  const AllLaunchKinds: seq<LaunchKind> :=
    [PackageLaunch, ComponentLaunch, IntentLaunch, UrlLaunch, SettingsLaunch, DialLaunch, SmsLaunch, EmailLaunch]

  /** The case label of each launch type. */
  function LaunchName(k: LaunchKind): string {
    match k
    case PackageLaunch => "PACKAGE"
    case ComponentLaunch => "COMPONENT"
    case IntentLaunch => "INTENT"
    case UrlLaunch => "URL"
    case SettingsLaunch => "SETTINGS"
    case DialLaunch => "DIAL"
    case SmsLaunch => "SMS"
    case EmailLaunch => "EMAIL"
  }

  /** The first launch type among `kinds` labelled `u`. */
  function FindLaunchKind(u: string, kinds: seq<LaunchKind>): (r: Option<LaunchKind>)
    ensures r.Some? ==> r.value in kinds && u == LaunchName(r.value)
    ensures r.None? ==> forall k :: k in kinds ==> u != LaunchName(k)
  {
    if kinds == [] then None
    else if u == LaunchName(kinds[0]) then Some(kinds[0])
    else
      assert kinds == [kinds[0]] + kinds[1..];
      FindLaunchKind(u, kinds[1..])
  }

  /** The switch on launchType.toUpperCase(). */
  function ParseLaunchType(launchType: string): (r: Option<LaunchKind>)
    ensures r.Some? ==> ToUpper(launchType) == LaunchName(r.value)
    ensures r.None? <==> forall k :: ToUpper(launchType) != LaunchName(k)
  {
    AllLaunchKindsComplete();
    FindLaunchKind(ToUpper(launchType), AllLaunchKinds)
  }

  lemma AllLaunchKindsComplete()
    ensures forall k :: k in AllLaunchKinds
  {
    forall k ensures k in AllLaunchKinds {
      match k
      case PackageLaunch => assert AllLaunchKinds[0] == k;
      case ComponentLaunch => assert AllLaunchKinds[1] == k;
      case IntentLaunch => assert AllLaunchKinds[2] == k;
      case UrlLaunch => assert AllLaunchKinds[3] == k;
      case SettingsLaunch => assert AllLaunchKinds[4] == k;
      case DialLaunch => assert AllLaunchKinds[5] == k;
      case SmsLaunch => assert AllLaunchKinds[6] == k;
      case EmailLaunch => assert AllLaunchKinds[7] == k;
    }
  }

  lemma LaunchNameInjective(a: LaunchKind, b: LaunchKind)
    requires |LaunchName(a)| == |LaunchName(b)| && LaunchName(a)[0] == LaunchName(b)[0]
    ensures a == b
  {
  }

  /** Every launch type is accepted by its label in any letter case, and only by it. */
  lemma ParseLaunchTypeAcceptsName(k: LaunchKind, launchType: string)
    ensures ParseLaunchType(launchType) == Some(k) <==> ToUpper(launchType) == LaunchName(k)
  {
    var r := ParseLaunchType(launchType);
    if ToUpper(launchType) == LaunchName(k) {
      LaunchNameInjective(k, r.value);
    }
  }

  /** The launch type parses as COMPONENT exactly when it equals "COMPONENT" ignoring case. */
  lemma ComponentIffEqualsIgnoreCase(launchType: string)
    ensures ParseLaunchType(launchType) == Some(ComponentLaunch) <==> EqualsIgnoreCase(launchType, "COMPONENT")
  {
    ParseLaunchTypeAcceptsName(ComponentLaunch, launchType);
    EqualsIgnoreCaseIsUpperEquality(launchType, "COMPONENT");
    ToUpperFixed("COMPONENT");
  }

  /** The failure a launch type reports when one of its required fields is null or empty. */
  function MissingFieldMessage(kind: LaunchKind, packageName: Option<string>, className: Option<string>,
                               intentAction: Option<string>, data: Option<string>): (r: Option<string>)
    ensures kind == SettingsLaunch || kind == EmailLaunch ==> r.None?
    ensures kind == PackageLaunch ==> (r.None? <==> Given(packageName))
    ensures kind == ComponentLaunch ==> (r.None? <==> Given(packageName) && Given(className))
    ensures kind == IntentLaunch ==> (r.None? <==> Given(intentAction))
    ensures kind == UrlLaunch || kind == DialLaunch || kind == SmsLaunch ==> (r.None? <==> Given(data))
  {
    match kind
    case PackageLaunch =>
      if !Given(packageName) then Some(PACKAGE_REQUIRED) else None
    case ComponentLaunch =>
      if !Given(packageName) || !Given(className) then
        Some(COMPONENT_REQUIRED)
      else None
    case IntentLaunch =>
      if !Given(intentAction) then Some(INTENT_REQUIRED) else None
    case UrlLaunch =>
      if !Given(data) then Some(URL_REQUIRED) else None
    case DialLaunch =>
      if !Given(data) then Some(DIAL_REQUIRED) else None
    case SmsLaunch =>
      if !Given(data) then Some(SMS_REQUIRED) else None
    case SettingsLaunch => None
    case EmailLaunch => None
  }

  /** Settings.ACTION_SETTINGS */
  const ACTION_SETTINGS := "android.settings.SETTINGS"

  /** The description of an intent launch: its action, then the data and the category when given. */
  function IntentDescription(intentAction: string, data: Option<string>, category: Option<string>): string {
    var base := DESCRIBE_INTENT + intentAction + "'";
    var withData := if Given(data) then base + (WITH_DATA + data.value + "'") else base;
    if Given(category) then withData + (AND_CATEGORY + category.value + "'") else withData
  }

  /** The description a launch reports; optional data and category extend an intent launch. */
  function LaunchDescription(kind: LaunchKind, packageName: Option<string>, className: Option<string>,
                             intentAction: Option<string>, data: Option<string>, category: Option<string>): string
  {
    match kind
    case PackageLaunch => DESCRIBE_PACKAGE + packageName.GetOr("") + "'"
    case ComponentLaunch => DESCRIBE_COMPONENT + packageName.GetOr("") + "/" + className.GetOr("") + "'"
    case IntentLaunch => IntentDescription(intentAction.GetOr(""), data, category)
    case UrlLaunch => DESCRIBE_URL + data.GetOr("") + "'"
    case SettingsLaunch => DESCRIBE_SETTINGS + intentAction.GetOr(ACTION_SETTINGS) + "'"
    case DialLaunch => DESCRIBE_DIAL + data.GetOr("") + "'"
    case SmsLaunch => DESCRIBE_SMS + data.GetOr("") + "'"
    case EmailLaunch => if Given(data) then DESCRIBE_EMAIL + data.value + "'" else EMAIL_CLIENT
  }

  datatype LaunchReport = LaunchReport(success: bool, message: string)

  /** Why a launch of this type fails before the intent is resolved, if it does. */
  function LaunchFailure(kind: LaunchKind, packageName: Option<string>, className: Option<string>,
                         intentAction: Option<string>, data: Option<string>, hasLauncher: bool): (r: Option<string>)
    ensures r.None? <==>
      MissingFieldMessage(kind, packageName, className, intentAction, data).None? && (kind == PackageLaunch ==> hasLauncher)
    ensures MissingFieldMessage(kind, packageName, className, intentAction, data).Some? ==>
      r == MissingFieldMessage(kind, packageName, className, intentAction, data)
  {
    match MissingFieldMessage(kind, packageName, className, intentAction, data)
    case Some(message) => Some(message)
    case None => if kind == PackageLaunch && !hasLauncher then Some(NO_LAUNCH_INTENT + packageName.value) else None
  }

  /**
   * What launchActivity reports. `hasLauncher` stands for the package
   * manager having a launch intent for the package, `resolvable` for some
   * activity resolving the intent.
   */
  function LaunchResult(launchType: string, packageName: Option<string>, className: Option<string>,
                        intentAction: Option<string>, data: Option<string>, category: Option<string>,
                        hasLauncher: bool, resolvable: bool): (r: LaunchReport)
    ensures ParseLaunchType(launchType).None? ==> r == LaunchReport(false, UNKNOWN_LAUNCH + launchType)
    ensures ParseLaunchType(launchType).Some? ==>
      var kind := ParseLaunchType(launchType).value;
      var missing := MissingFieldMessage(kind, packageName, className, intentAction, data);
      (missing.Some? ==> r == LaunchReport(false, missing.value))
      && (r.success <==> missing.None? && (kind == PackageLaunch ==> hasLauncher) && (kind == ComponentLaunch || resolvable))
      && (r.success ==>
            r.message == LAUNCHED + LaunchDescription(kind, packageName, className, intentAction, data, category))
  {
    match ParseLaunchType(launchType)
    case None => LaunchReport(false, UNKNOWN_LAUNCH + launchType)
    case Some(kind) =>
      match LaunchFailure(kind, packageName, className, intentAction, data, hasLauncher)
      case Some(message) => LaunchReport(false, message)
      case None =>
        var description := LaunchDescription(kind, packageName, className, intentAction, data, category);
        if kind != ComponentLaunch && !resolvable then LaunchReport(false, NO_APP + description)
        else LaunchReport(true, LAUNCHED + description)
  }

  /** A COMPONENT launch never asks whether some activity resolves it, nor whether the package has a launcher. */
  lemma ComponentSkipsResolution(launchType: string, packageName: Option<string>, className: Option<string>,
                                 intentAction: Option<string>, data: Option<string>, category: Option<string>,
                                 hasLauncher: bool, resolvable: bool)
    requires EqualsIgnoreCase(launchType, "COMPONENT")
    ensures LaunchResult(launchType, packageName, className, intentAction, data, category, hasLauncher, resolvable)
      == LaunchResult(launchType, packageName, className, intentAction, data, category, true, true)
  {
    ComponentIffEqualsIgnoreCase(launchType);
  }

  /** launchActivity */
  method LaunchActivity(launchType: string, packageName: Option<string>, className: Option<string>,
                        intentAction: Option<string>, data: Option<string>, category: Option<string>,
                        hasLauncher: bool, resolvable: bool)
    returns (report: LaunchReport)
    ensures report == LaunchResult(launchType, packageName, className, intentAction, data, category, hasLauncher, resolvable)
  {
    var kind := ParseLaunchType(launchType);
    if kind.None? {
      return LaunchReport(false, UNKNOWN_LAUNCH + launchType);
    }
    var failure, launchDescription := BuildIntent(kind.value, packageName, className, intentAction, data, category,
      hasLauncher);
    if failure.Some? {
      return LaunchReport(false, failure.value);
    }
    ComponentIffEqualsIgnoreCase(launchType);
    if !EqualsIgnoreCase(launchType, "COMPONENT") && !resolvable {
      return LaunchReport(false, NO_APP + launchDescription);
    }
    report := LaunchReport(true, LAUNCHED + launchDescription);
  }

  /** The description built for an intent launch, extended step by step. */
  method DescribeIntent(intentAction: string, data: Option<string>, category: Option<string>)
    returns (launchDescription: string)
    ensures launchDescription == IntentDescription(intentAction, data, category)
  {
    launchDescription := DESCRIBE_INTENT + intentAction + "'";
    if Given(data) {
      launchDescription := launchDescription + (WITH_DATA + data.value + "'");
    }
    if Given(category) {
      launchDescription := launchDescription + (AND_CATEGORY + category.value + "'");
    }
  }

  /** The switch of launchActivity: checks the fields the type needs and describes the intent. */
  method BuildIntent(kind: LaunchKind, packageName: Option<string>, className: Option<string>,
                     intentAction: Option<string>, data: Option<string>, category: Option<string>, hasLauncher: bool)
    returns (failure: Option<string>, launchDescription: string)
    ensures failure == LaunchFailure(kind, packageName, className, intentAction, data, hasLauncher)
    ensures failure.None? ==> launchDescription == LaunchDescription(kind, packageName, className, intentAction, data, category)
  {
    match kind {
      case PackageLaunch =>
        if !Given(packageName) {
          return Some(PACKAGE_REQUIRED), "";
        }
        if !hasLauncher {
          return Some(NO_LAUNCH_INTENT + packageName.value), "";
        }
        launchDescription := DESCRIBE_PACKAGE + packageName.value + "'";
        assert MissingFieldMessage(kind, packageName, className, intentAction, data).None?;
        return None, launchDescription;
      case ComponentLaunch =>
        if !Given(packageName) || !Given(className) {
          return Some(COMPONENT_REQUIRED), "";
        }
        launchDescription := DESCRIBE_COMPONENT + packageName.value + "/" + className.value + "'";
        assert MissingFieldMessage(kind, packageName, className, intentAction, data).None?;
        return None, launchDescription;
      case IntentLaunch =>
        if !Given(intentAction) {
          return Some(INTENT_REQUIRED), "";
        }
        launchDescription := DescribeIntent(intentAction.value, data, category);
        assert MissingFieldMessage(kind, packageName, className, intentAction, data).None?;
        return None, launchDescription;
      case UrlLaunch =>
        if !Given(data) {
          return Some(URL_REQUIRED), "";
        }
        launchDescription := DESCRIBE_URL + data.value + "'";
        assert MissingFieldMessage(kind, packageName, className, intentAction, data).None?;
        return None, launchDescription;
      case SettingsLaunch =>
        var settingsAction := if intentAction.Some? then intentAction.value else ACTION_SETTINGS;
        launchDescription := DESCRIBE_SETTINGS + settingsAction + "'";
        assert MissingFieldMessage(kind, packageName, className, intentAction, data).None?;
        return None, launchDescription;
      case DialLaunch =>
        if !Given(data) {
          return Some(DIAL_REQUIRED), "";
        }
        launchDescription := DESCRIBE_DIAL + data.value + "'";
        assert MissingFieldMessage(kind, packageName, className, intentAction, data).None?;
        return None, launchDescription;
      case SmsLaunch =>
        if !Given(data) {
          return Some(SMS_REQUIRED), "";
        }
        launchDescription := DESCRIBE_SMS + data.value + "'";
        assert MissingFieldMessage(kind, packageName, className, intentAction, data).None?;
        return None, launchDescription;
      case EmailLaunch =>
        if Given(data) {
          launchDescription := DESCRIBE_EMAIL + data.value + "'";
        } else {
          launchDescription := EMAIL_CLIENT;
        }
        assert MissingFieldMessage(kind, packageName, className, intentAction, data).None?;
        return None, launchDescription;
    }
  }
}
