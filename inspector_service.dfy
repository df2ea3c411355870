/**
 * The accessibility service object (AccessibilityInspector): its service
 * flags, the last captured tree, and the messages it hands to the socket
 * service, updated by accessibility events and by the broadcasts the socket
 * service sends.
 */
module InspectorService {
  import opened Wrappers
  import opened JavaString
  import opened Json
  import opened Nodes
  import opened Inspector
  import TreeDebug

  // ---------------------------------------------------------------------------
  // The service: flags, announcements, broadcasts
  // ---------------------------------------------------------------------------

  /** AccessibilityServiceInfo constants. */
  const DEFAULT: bv32 := 0x1
  const FLAG_INCLUDE_NOT_IMPORTANT_VIEWS: bv32 := 0x2
  const FLAG_REPORT_VIEW_IDS: bv32 := 0x10
  const FLAG_RETRIEVE_INTERACTIVE_WINDOWS: bv32 := 0x40
  const FEEDBACK_GENERIC: bv32 := 0x10
  const CAPABILITY_CAN_RETRIEVE_WINDOW_CONTENT: bv32 := 0x1

  /** The flags set when the service connects and restored by hideNotImportant. */
  const IMPORTANT_ONLY_FLAGS: bv32 :=
    DEFAULT | FLAG_RETRIEVE_INTERACTIVE_WINDOWS | FEEDBACK_GENERIC | FLAG_REPORT_VIEW_IDS
    | CAPABILITY_CAN_RETRIEVE_WINDOW_CONTENT

  /** allFlags: the same set with not-important views included. */
  const ALL_FLAGS: bv32 := IMPORTANT_ONLY_FLAGS | FLAG_INCLUDE_NOT_IMPORTANT_VIEWS

  /** AccessibilityEvent.TYPE_ANNOUNCEMENT */
  const TYPE_ANNOUNCEMENT: int := 0x4000

  /** Whether an announcement text has anything left after trimming. */
  predicate Announceable(t: string) {
    |Trim(t)| > 0
  }

  function AnnouncementMessage(t: string): JsonValue {
    JObj([Member("announcement", JStr(t))])
  }

  /** `f` applied to the elements of `xs` that `keep` accepts, in order. */
  function Collect<T, U>(xs: seq<T>, keep: T -> bool, f: T -> U): seq<U> {
    if xs == [] then []
    else
      var last := xs[|xs| - 1];
      Collect(xs[..|xs| - 1], keep, f) + (if keep(last) then [f(last)] else [])
  }

  lemma {:induction false} CollectMembers<T, U>(xs: seq<T>, keep: T -> bool, f: T -> U, y: U)
    ensures y in Collect(xs, keep, f) <==> exists i :: 0 <= i < |xs| && keep(xs[i]) && y == f(xs[i])
  {
    if xs != [] {
      var n := |xs| - 1;
      var init := xs[..n];
      var tail := if keep(xs[n]) then [f(xs[n])] else [];
      assert Collect(xs, keep, f) == Collect(init, keep, f) + tail;
      CollectMembers(init, keep, f, y);
      if y in Collect(init, keep, f) {
        var i :| 0 <= i < |init| && keep(init[i]) && y == f(init[i]);
        assert xs[i] == init[i];
      } else if y in tail {
        assert keep(xs[n]) && y == f(xs[n]);
      }
      if exists i :: 0 <= i < |xs| && keep(xs[i]) && y == f(xs[i]) {
        var i :| 0 <= i < |xs| && keep(xs[i]) && y == f(xs[i]);
        if i < n {
          assert init[i] == xs[i];
          assert y in Collect(init, keep, f);
        } else {
          assert y in tail;
        }
      }
    }
  }

  /** The announcement messages for the texts of one event, in order. */
  function Announcements(texts: seq<string>): seq<JsonValue> {
    Collect(texts, Announceable, AnnouncementMessage)
  }

  /** A message is announced exactly when some non-blank text of the event carries it. */
  lemma AnnouncementsMembers(texts: seq<string>, m: JsonValue)
    ensures m in Announcements(texts) <==>
      exists i :: 0 <= i < |texts| && Announceable(texts[i]) && m == AnnouncementMessage(texts[i])
  {
    CollectMembers(texts, Announceable, AnnouncementMessage, m);
  }

  /** A text made only of characters up to U+0020 is never announced, and any other text is. */
  lemma BlankTextNotAnnounced(t: string)
    ensures !Announceable(t) <==> forall i :: 0 <= i < |t| ==> IsTrimmable(t[i])
  {
    TrimEmptyIffBlank(t);
  }

  /** What a broadcast intent carries: its action and the action-request extras. */
  datatype BroadcastIntent = BroadcastIntent(
    action: string, resourceId: Option<string>, hashCode: Option<string>,
    actionType: Option<string>, text: Option<string>)

  /** The screen as both the capture and the searches see it. */
  datatype Screen = Screen(
    graph: TreeDebug.Graph, windows: Option<seq<Option<TreeDebug.Window>>>,
    roots: seq<Option<Node>>, accepts: (Node, NodeRequest) -> bool)

  predicate ScreenOk(s: Screen) {
    TreeDebug.Closed(s.graph) && (s.windows.Some? ==> TreeDebug.RootsInGraph(s.graph, s.windows.value))
  }

  /** The message a capture sends: the window tree with "name" put in. */
  function TreeMessage(tree: seq<Member>): (r: JsonValue)
    ensures r.JObj? && Lookup(r.members, "name") == Some(JStr(""))
    ensures forall k :: k != "name" ==> Lookup(r.members, k) == Lookup(tree, k)
  {
    JObj(Put(tree, "name", JStr("")))
  }

  /** What onReceive does with an intent action. */
  datatype Route = CaptureImportant | CaptureAll | ActionRequest | Ignored

  /** The intent actions the listener answers, compared ignoring case, first match wins. */
  function RouteOf(action: string): Route {
    if EqualsIgnoreCase(action, "A11yInspector") then CaptureImportant
    else if EqualsIgnoreCase(action, "A11yInspectorImportant") then CaptureAll
    else if EqualsIgnoreCase(action, "A11yInspectorAction") then ActionRequest
    else Ignored
  }

  /**
   * What startCapture sends: the captured windows, or, when the window list
   * is unavailable, the tree of the previous capture again, if there was one.
   */
  function CaptureOutput(screen: Screen, last: Option<seq<Member>>): (r: seq<JsonValue>)
    requires ScreenOk(screen)
    ensures screen.windows.Some? ==>
      |r| == 1 && r[0].JObj?
      && Lookup(r[0].members, "children") == Some(JArr(TreeDebug.CapturedWindows(screen.graph, screen.windows.value)))
    ensures screen.windows.None? ==> (r == [] <==> last.None?)
    ensures screen.windows.None? ==> r == (if last.Some? then [TreeMessage(last.value)] else [])
  {
    match screen.windows
    case Some(windows) => [TreeMessage([Member("children", JArr(TreeDebug.CapturedWindows(screen.graph, windows)))])]
    case None => if last.Some? then [TreeMessage(last.value)] else []
  }

  /**
   * The tree the service keeps after a capture: the captured windows, or the
   * previous tree, each with "name" put in. It is exactly what the capture
   * sends, so a later capture without a window list sends it again.
   */
  function StoredTree(screen: Screen, last: Option<seq<Member>>): (r: Option<seq<Member>>)
    requires ScreenOk(screen)
    ensures CaptureOutput(screen, last) == (if r.Some? then [JObj(r.value)] else [])
    ensures r.Some? ==> Lookup(r.value, "name") == Some(JStr(""))
    ensures r.None? <==> screen.windows.None? && last.None?
  {
    match screen.windows
    case Some(windows) =>
      Some(Put([Member("children", JArr(TreeDebug.CapturedWindows(screen.graph, windows)))], "name", JStr("")))
    case None => if last.Some? then Some(Put(last.value, "name", JStr(""))) else None
  }

  /** The actionResult message an action request produces. */
  function ActionMessage(screen: Screen, intent: BroadcastIntent, nullActionMessage: string): (r: JsonValue)
    ensures r.JObj? && Lookup(r.members, "type") == Some(JStr("actionResult"))
  {
    var resolution := ResolveTarget(screen.roots, intent.resourceId, intent.hashCode);
    match intent.actionType
    case Some(actionType) =>
      var report := ActionResult(resolution, DecodeAction(actionType), actionType, intent.text, screen.accepts);
      ResultObject("actionResult", report.success, report.message)
    case None =>
      ResultObject("actionResult", false,
        if resolution.Unresolved? then resolution.message else ACTION_ERROR + nullActionMessage)
  }

  class AccessibilityInspector {
    /** getServiceInfo().flags */
    var flags: bv32
    /** The last tree logNodeTrees handed over with sendJSON. */
    var jsonObject: Option<seq<Member>>
    /** Every message handed to the socket service for broadcast, in order. */
    var outbox: seq<JsonValue>

    /** onServiceConnected */
    constructor ()
      ensures flags == IMPORTANT_ONLY_FLAGS && jsonObject == None && outbox == []
    {
      flags := IMPORTANT_ONLY_FLAGS;
      jsonObject := None;
      outbox := [];
    }

    /** hideNotImportant: drops the include-not-important flag when all flags are set. */
    method HideNotImportant()
      modifies this
      ensures flags == (if old(flags) == ALL_FLAGS then IMPORTANT_ONLY_FLAGS else old(flags))
      ensures old(flags) == ALL_FLAGS || old(flags) == IMPORTANT_ONLY_FLAGS ==>
        flags & FLAG_INCLUDE_NOT_IMPORTANT_VIEWS == 0
      ensures jsonObject == old(jsonObject) && outbox == old(outbox)
    {
      if flags == ALL_FLAGS {
        flags := DEFAULT | FLAG_RETRIEVE_INTERACTIVE_WINDOWS | FEEDBACK_GENERIC | FLAG_REPORT_VIEW_IDS
          | CAPABILITY_CAN_RETRIEVE_WINDOW_CONTENT;
      }
    }

    /** showNotImportant: sets all flags, including not-important views. */
    method ShowNotImportant()
      modifies this
      ensures flags == ALL_FLAGS
      ensures flags & FLAG_INCLUDE_NOT_IMPORTANT_VIEWS != 0
      ensures jsonObject == old(jsonObject) && outbox == old(outbox)
    {
      if flags != ALL_FLAGS {
        flags := ALL_FLAGS;
      }
    }

    /** onAccessibilityEvent: each non-blank text of an announcement event is sent on. */
    method OnAccessibilityEvent(eventType: int, texts: seq<string>)
      modifies this
      ensures outbox == old(outbox) + (if eventType == TYPE_ANNOUNCEMENT then Announcements(texts) else [])
      ensures flags == old(flags) && jsonObject == old(jsonObject)
    {
      if eventType == TYPE_ANNOUNCEMENT {
        for i := 0 to |texts|
          invariant outbox == old(outbox) + Announcements(texts[..i])
          invariant flags == old(flags) && jsonObject == old(jsonObject)
        {
          assert texts[..i + 1][..i] == texts[..i];
          ghost var step := if Announceable(texts[i]) then [AnnouncementMessage(texts[i])] else [];
          assert Announcements(texts[..i + 1]) == Announcements(texts[..i]) + step;
          if |Trim(texts[i])| > 0 {
            outbox := outbox + [AnnouncementMessage(texts[i])];
          }
          assert outbox == old(outbox) + (Announcements(texts[..i]) + step);
        }
        assert texts[..|texts|] == texts;
      }
    }

    /** sendTree: puts "name" into the last tree and sends it; with no tree yet, the put fails and nothing is sent. */
    method SendTree()
      modifies this
      ensures old(jsonObject).None? ==> jsonObject == None && outbox == old(outbox)
      ensures old(jsonObject).Some? ==>
        jsonObject == Some(Put(old(jsonObject).value, "name", JStr("")))
        && outbox == old(outbox) + [TreeMessage(old(jsonObject).value)]
      ensures flags == old(flags)
    {
      if jsonObject.Some? {
        jsonObject := Some(Put(jsonObject.value, "name", JStr("")));
        outbox := outbox + [JObj(jsonObject.value)];
      }
    }

    /** startCapture: logNodeTrees over the windows, then sendTree. */
    method StartCapture(screen: Screen)
      requires ScreenOk(screen)
      modifies this
      ensures outbox == old(outbox) + CaptureOutput(screen, old(jsonObject))
      ensures screen.windows.Some? ==>
        jsonObject == Some(Put(TreeDebug.Capture(screen.graph, screen.windows).value.members, "name", JStr("")))
      ensures screen.windows.None? ==>
        jsonObject == (if old(jsonObject).Some? then Some(Put(old(jsonObject).value, "name", JStr(""))) else None)
      ensures jsonObject == StoredTree(screen, old(jsonObject))
      ensures flags == old(flags)
    {
      var sent := TreeDebug.LogNodeTrees(screen.graph, screen.windows);
      if sent.Some? {
        jsonObject := Some(sent.value.members);
      }
      SendTree();
    }

    /** launchActivity followed by sendLaunchResult. */
    method Launch(launchType: string, packageName: Option<string>, className: Option<string>,
                  intentAction: Option<string>, data: Option<string>, category: Option<string>,
                  hasLauncher: bool, resolvable: bool)
      modifies this
      ensures var r := LaunchResult(launchType, packageName, className, intentAction, data, category, hasLauncher, resolvable);
        outbox == old(outbox) + [ResultObject("launchResult", r.success, r.message)]
      ensures flags == old(flags) && jsonObject == old(jsonObject)
    {
      var report := LaunchActivity(launchType, packageName, className, intentAction, data, category,
        hasLauncher, resolvable);
      outbox := outbox + [ResultObject("launchResult", report.success, report.message)];
    }

    /**
     * performAction with the extras of an action intent, followed by
     * sendActionResult. A missing action raises an exception once a target
     * is found, which is reported with `nullActionMessage`.
     */
    method PerformActionRequest(intent: BroadcastIntent, screen: Screen, nullActionMessage: string)
      modifies this
      ensures outbox == old(outbox) + [ActionMessage(screen, intent, nullActionMessage)]
      ensures flags == old(flags) && jsonObject == old(jsonObject)
    {
      var success: bool;
      var message: string;
      if intent.actionType.Some? {
        var report := PerformAction(screen.roots, intent.resourceId, intent.hashCode, intent.actionType.value,
          intent.text, screen.accepts);
        success, message := report.success, report.message;
      } else {
        var resolution := ResolveTarget(screen.roots, intent.resourceId, intent.hashCode);
        success := false;
        message := if resolution.Unresolved? then resolution.message else ACTION_ERROR + nullActionMessage;
      }
      outbox := outbox + [ResultObject("actionResult", success, message)];
    }

    /**
     * AccessibilityListener.onReceive: the three intent actions, matched
     * ignoring case in this order; any other action is ignored.
     */
    method OnReceive(intent: BroadcastIntent, screen: Screen, nullActionMessage: string)
      requires ScreenOk(screen)
      modifies this
      ensures match RouteOf(intent.action)
        case CaptureImportant =>
          flags == (if old(flags) == ALL_FLAGS then IMPORTANT_ONLY_FLAGS else old(flags))
          && outbox == old(outbox) + CaptureOutput(screen, old(jsonObject))
          && jsonObject == StoredTree(screen, old(jsonObject))
        case CaptureAll =>
          flags == ALL_FLAGS && outbox == old(outbox) + CaptureOutput(screen, old(jsonObject))
          && jsonObject == StoredTree(screen, old(jsonObject))
        case ActionRequest =>
          flags == old(flags) && jsonObject == old(jsonObject)
          && outbox == old(outbox) + [ActionMessage(screen, intent, nullActionMessage)]
        case Ignored =>
          flags == old(flags) && jsonObject == old(jsonObject) && outbox == old(outbox)
    {
      if EqualsIgnoreCase(intent.action, "A11yInspector") {
        HideNotImportant();
        StartCapture(screen);
      } else if EqualsIgnoreCase(intent.action, "A11yInspectorImportant") {
        ShowNotImportant();
        StartCapture(screen);
      } else if EqualsIgnoreCase(intent.action, "A11yInspectorAction") {
        PerformActionRequest(intent, screen, nullActionMessage);
      }
    }
  }
}
