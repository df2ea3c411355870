/**
 * The WebSocket side of the inspector (SocketService): the list of connected
 * clients, the broadcast of a captured tree to all of them, and the dispatch
 * of the commands a client sends. A command becomes a broadcast intent to the
 * accessibility service, a reply to the sending client, or a direct
 * launchActivity call on the service.
 */
module SocketService {
  import opened Wrappers
  import opened JavaString
  import opened Json
  import opened Inspector
  import opened InspectorService

  /** A connected client, compared by identity as the socket list does. */
  type SocketId = nat

  // ---------------------------------------------------------------------------
  // The socket list
  // ---------------------------------------------------------------------------

  /** ArrayList.indexOf: the position of the first occurrence of `x`, when there is one. */
  function IndexOf<T(==)>(s: seq<T>, x: T): (r: Option<nat>)
    ensures r.None? <==> x !in s
    ensures r.Some? ==> r.value < |s| && s[r.value] == x && x !in s[..r.value]
  {
    if s == [] then None
    else if s[0] == x then Some(0)
    else
      match IndexOf(s[1..], x)
      case None => None
      case Some(j) =>
        assert s[..j + 1] == [s[0]] + s[1..][..j];
        Some(j + 1)
  }

  /** ArrayList.remove(Object): drops the first occurrence of `x`, if any, keeping the order of the rest. */
  function RemoveFirst<T(==)>(s: seq<T>, x: T): (r: seq<T>)
    ensures x !in s ==> r == s
    ensures x in s ==> |r| == |s| - 1
  {
    match IndexOf(s, x)
    case None => s
    case Some(i) => s[..i] + s[i + 1..]
  }

  /** Removing a socket takes one copy of it out of the list and leaves the other sockets alone. */
  lemma RemoveFirstMultiset<T>(s: seq<T>, x: T)
    ensures multiset(RemoveFirst(s, x)) == multiset(s) - multiset{x}
  {
    var i := IndexOf(s, x);
    if i.Some? {
      var k := i.value;
      assert s == s[..k] + [x] + s[k + 1..];
    }
  }

  /** A client that connects and then closes leaves the list as it was. */
  lemma CloseUndoesConnect<T>(s: seq<T>, x: T)
    requires x !in s
    ensures RemoveFirst(s + [x], x) == s
  {
    var t := s + [x];
    assert t[..|s|] == s;
    assert IndexOf(t, x) == Some(|s|);
  }

  /** One text sent on one socket. */
  datatype Outgoing = Outgoing(to: SocketId, text: string)

  /** SocketRequestCallback: the connected sockets, in connection order. */
  class SocketServer {
    var sockets: seq<SocketId>

    constructor()
      ensures sockets == []
    {
      sockets := [];
    }

    /** onConnected: the new socket is appended to the list. */
    method OnConnected(ws: SocketId)
      modifies this
      ensures sockets == old(sockets) + [ws]
    {
      sockets := sockets + [ws];
    }

    /**
     * The closed callback: the socket is removed in a `finally` block, so
     * whether or not the close carried an exception.
     */
    method OnClosed(ws: SocketId, error: Option<string>)
      modifies this
      ensures sockets == RemoveFirst(old(sockets), ws)
    {
      sockets := RemoveFirst(sockets, ws);
    }

    /** BroadcastMessage: the message goes to every socket in the list, in list order. */
    method BroadcastMessage(message: string) returns (sends: seq<Outgoing>)
      ensures |sends| == |sockets|
      ensures forall i :: 0 <= i < |sends| ==> sends[i] == Outgoing(sockets[i], message)
    {
      sends := [];
      for k := 0 to |sockets|
        invariant |sends| == k
        invariant forall i :: 0 <= i < k ==> sends[i] == Outgoing(sockets[i], message)
      {
        sends := sends + [Outgoing(sockets[k], message)];
      }
    }
  }

  // ---------------------------------------------------------------------------
  // Commands
  // ---------------------------------------------------------------------------

  /** A text frame as the string callback sees it: parsed into an object, or refused by the parser. */
  datatype Frame = Parsed(obj: InObject) | Malformed(error: string)

  datatype Command = CaptureCmd | PingCmd | CaptureNotImportantCmd | PerformActionCmd | LaunchActivityCmd

  /** The "message" value each command is recognised by, ignoring case. */
  function CommandName(c: Command): string {
    match c
    case CaptureCmd => "capture"
    case PingCmd => "ping"
    case CaptureNotImportantCmd => "captureNotImportant"
    case PerformActionCmd => "performAction"
    case LaunchActivityCmd => "launchActivity"
  }

  /** The command a "message" value names, if any. */
  function MatchCommand(m: string): (r: Option<Command>)
    ensures r.Some? ==> EqualsIgnoreCase(m, CommandName(r.value))
    ensures r.None? <==> forall c :: !EqualsIgnoreCase(m, CommandName(c))
  {
    if EqualsIgnoreCase(m, "capture") then Some(CaptureCmd)
    else if EqualsIgnoreCase(m, "ping") then Some(PingCmd)
    else if EqualsIgnoreCase(m, "captureNotImportant") then Some(CaptureNotImportantCmd)
    else if EqualsIgnoreCase(m, "performAction") then Some(PerformActionCmd)
    else if EqualsIgnoreCase(m, "launchActivity") then Some(LaunchActivityCmd)
    else None
  }

  /** No "message" value names two commands, so the order of the tests does not matter. */
  lemma MatchCommandUnique(m: string, c: Command)
    requires EqualsIgnoreCase(m, CommandName(c))
    ensures MatchCommand(m) == Some(c)
  {
  }

  /** jsonObject.getString("message"), when the field is present. */
  function MessageOf(o: InObject): (r: Option<string>)
    ensures r.Some? <==> "message" in o
  {
    OptString(o, "message", None)
  }

  /** A string field read with optString(name, null). */
  function Field(o: InObject, name: string): (r: Option<string>)
    ensures r.Some? <==> name in o
  {
    OptString(o, name, None)
  }

  /** A string field read with optString(name, ""). */
  function FieldOrEmpty(o: InObject, name: string): (r: string)
    ensures name !in o ==> r == ""
  {
    OptString(o, name, Some("")).value
  }

  /** The value when it is present and non-empty, which is when it is put into an intent. */
  function IfGiven(s: Option<string>): (r: Option<string>)
    ensures r.Some? <==> Given(s)
    ensures r.Some? ==> r == s
  {
    if Given(s) then s else None
  }

  /** The arguments of a direct launchActivity call. */
  datatype LaunchCall = LaunchCall(
    launchType: string, packageName: Option<string>, className: Option<string>, intentAction: Option<string>,
    data: Option<string>, category: Option<string>, extras: Option<string>)

  /** What handling a frame does outside the callback. */
  datatype Effect =
    | Broadcast(intent: BroadcastIntent)
    | Reply(to: SocketId, response: JsonValue)
    | Launch(call: LaunchCall)

  const CAPTURE_ACTION := "A11yInspector"
  const CAPTURE_ALL_ACTION := "A11yInspectorImportant"
  const PERFORM_ACTION := "A11yInspectorAction"
  const MISSING_IDENTIFIER := "Missing required parameter: either resourceId or hashCode must be provided"
  const MISSING_ACTION := "Missing required parameter: action"
  const MISSING_LAUNCH_TYPE := "Missing required parameter: launchType"
  const SERVICE_UNAVAILABLE := "Accessibility service not available"
  const INVALID_JSON := "Invalid JSON format: "

  /** An intent with only an action set. */
  function PlainIntent(action: string): BroadcastIntent {
    BroadcastIntent(action, None, None, None, None)
  }

  /** The error sent back for a frame the parser refused. */
  function InvalidJsonResponse(error: string): (r: JsonValue)
    ensures r.JObj? && Lookup(r.members, "type") == Some(JStr("error"))
    ensures Lookup(r.members, "message") == Some(JStr(INVALID_JSON + error))
  {
    JObj([Member("type", JStr("error")), Member("message", JStr(INVALID_JSON + error))])
  }

  /** The reply to "ping". */
  const PONG := JObj([Member("message", JStr("pong"))])

  /**
   * A performAction request: broadcast to the service when it names a target
   * and an action, with only the non-empty fields as extras; otherwise an
   * actionResult error to the sender.
   */
  function ActionRequestEffect(sender: SocketId, o: InObject): (r: Effect)
    ensures var resourceId, hashCode := Field(o, "resourceId"), Field(o, "hashCode");
      var action, text := FieldOrEmpty(o, "action"), Field(o, "text");
      && (!Given(resourceId) && !Given(hashCode) ==> r == Reply(sender, ResultObject("actionResult", false, MISSING_IDENTIFIER)))
      && ((Given(resourceId) || Given(hashCode)) && action == "" ==>
            r == Reply(sender, ResultObject("actionResult", false, MISSING_ACTION)))
      && (r.Broadcast? <==> (Given(resourceId) || Given(hashCode)) && action != "")
      && (r.Broadcast? ==>
            r.intent.action == PERFORM_ACTION && r.intent.actionType == Some(action)
            && (r.intent.resourceId.Some? <==> Given(resourceId)) && (Given(resourceId) ==> r.intent.resourceId == resourceId)
            && (r.intent.hashCode.Some? <==> Given(hashCode)) && (Given(hashCode) ==> r.intent.hashCode == hashCode)
            && (r.intent.text.Some? <==> Given(text)) && (Given(text) ==> r.intent.text == text))
  {
    var resourceId, hashCode := Field(o, "resourceId"), Field(o, "hashCode");
    var action, text := FieldOrEmpty(o, "action"), Field(o, "text");
    if Given(resourceId) || Given(hashCode) then
      if action != "" then
        Broadcast(BroadcastIntent(PERFORM_ACTION, IfGiven(resourceId), IfGiven(hashCode), Some(action), IfGiven(text)))
      else
        Reply(sender, ResultObject("actionResult", false, MISSING_ACTION))
    else
      Reply(sender, ResultObject("actionResult", false, MISSING_IDENTIFIER))
  }

  /**
   * A launchActivity request: a direct call on the accessibility service when
   * it is running and a launch type is given; otherwise a launchResult error.
   */
  function LaunchRequestEffect(sender: SocketId, o: InObject, serviceAvailable: bool): (r: Effect)
    ensures !serviceAvailable ==> r == Reply(sender, ResultObject("launchResult", false, SERVICE_UNAVAILABLE))
    ensures serviceAvailable && FieldOrEmpty(o, "launchType") == "" ==>
      r == Reply(sender, ResultObject("launchResult", false, MISSING_LAUNCH_TYPE))
    ensures r.Launch? <==> serviceAvailable && FieldOrEmpty(o, "launchType") != ""
    ensures r.Launch? ==>
      r.call.launchType == FieldOrEmpty(o, "launchType")
      && r.call.packageName == Field(o, "packageName") && r.call.className == Field(o, "className")
      && r.call.intentAction == Field(o, "intentAction") && r.call.data == Field(o, "data")
      && r.call.category == Field(o, "category") && r.call.extras == Field(o, "extras")
  {
    if serviceAvailable then
      var launchType := FieldOrEmpty(o, "launchType");
      if launchType != "" then
        Launch(LaunchCall(launchType, Field(o, "packageName"), Field(o, "className"), Field(o, "intentAction"),
          Field(o, "data"), Field(o, "category"), Field(o, "extras")))
      else
        Reply(sender, ResultObject("launchResult", false, MISSING_LAUNCH_TYPE))
    else
      Reply(sender, ResultObject("launchResult", false, SERVICE_UNAVAILABLE))
  }

  /** What one command does. */
  function CommandEffect(c: Command, sender: SocketId, o: InObject, serviceAvailable: bool): Effect {
    match c
    case CaptureCmd => Broadcast(PlainIntent(CAPTURE_ACTION))
    case PingCmd => Reply(sender, PONG)
    case CaptureNotImportantCmd => Broadcast(PlainIntent(CAPTURE_ALL_ACTION))
    case PerformActionCmd => ActionRequestEffect(sender, o)
    case LaunchActivityCmd => LaunchRequestEffect(sender, o, serviceAvailable)
  }

  /**
   * What a text frame does: nothing for a null frame or an object naming no
   * command, an error reply for a frame the parser refuses, and otherwise the
   * one effect of the command it names.
   */
  function Responses(sender: SocketId, frame: Option<Frame>, serviceAvailable: bool): (r: seq<Effect>)
    ensures |r| <= 1
    ensures frame.None? ==> r == []
    ensures frame.Some? && frame.value.Malformed? ==> r == [Reply(sender, InvalidJsonResponse(frame.value.error))]
    ensures frame.Some? && frame.value.Parsed? ==>
      (r == [] <==> MessageOf(frame.value.obj).None? || MatchCommand(MessageOf(frame.value.obj).value).None?)
  {
    match frame
    case None => []
    case Some(Malformed(error)) => [Reply(sender, InvalidJsonResponse(error))]
    case Some(Parsed(o)) =>
      match MessageOf(o)
      case None => []
      case Some(m) =>
        match MatchCommand(m)
        case None => []
        case Some(c) => [CommandEffect(c, sender, o, serviceAvailable)]
  }

  /** Whether the "message" field is present and names the command. */
  predicate NamesCommand(o: InObject, c: Command) {
    "message" in o && EqualsIgnoreCase(ValueString(o["message"]), CommandName(c))
  }

  /**
   * The string callback onConnected installs: the five commands are tested
   * one after the other, each on its own.
   */
  method OnString(sender: SocketId, frame: Option<Frame>, serviceAvailable: bool) returns (effects: seq<Effect>)
    ensures effects == Responses(sender, frame, serviceAvailable)
  {
    effects := [];
    if frame.None? {
      return;
    }
    match frame.value {
      case Malformed(error) =>
        effects := [Reply(sender, InvalidJsonResponse(error))];
        return;
      case Parsed(o) =>
        ghost var m := MessageOf(o);
        if NamesCommand(o, CaptureCmd) {
          MatchCommandUnique(m.value, CaptureCmd);
          effects := effects + [Broadcast(PlainIntent(CAPTURE_ACTION))];
        }
        if NamesCommand(o, PingCmd) {
          MatchCommandUnique(m.value, PingCmd);
          effects := effects + [Reply(sender, PONG)];
        }
        if NamesCommand(o, CaptureNotImportantCmd) {
          MatchCommandUnique(m.value, CaptureNotImportantCmd);
          effects := effects + [Broadcast(PlainIntent(CAPTURE_ALL_ACTION))];
        }
        if NamesCommand(o, PerformActionCmd) {
          MatchCommandUnique(m.value, PerformActionCmd);
          effects := effects + [ActionRequestEffect(sender, o)];
        }
        if NamesCommand(o, LaunchActivityCmd) {
          MatchCommandUnique(m.value, LaunchActivityCmd);
          effects := effects + [LaunchRequestEffect(sender, o, serviceAvailable)];
        }
        return;
    }
  }

  // ---------------------------------------------------------------------------
  // What the service makes of the broadcasts
  // ---------------------------------------------------------------------------

  /**
   * Every intent the socket side broadcasts is one the service's listener
   * answers: "capture" asks for important views only, "captureNotImportant"
   * for all views, "performAction" for an action request.
   */
  lemma BroadcastsAreRouted(sender: SocketId, frame: Option<Frame>, serviceAvailable: bool, e: Effect)
    requires e in Responses(sender, frame, serviceAvailable) && e.Broadcast?
    ensures frame.Some? && frame.value.Parsed? && MessageOf(frame.value.obj).Some?
    ensures var c := MatchCommand(MessageOf(frame.value.obj).value);
      c.Some? &&
      RouteOf(e.intent.action) == (match c.value
        case CaptureCmd => CaptureImportant
        case CaptureNotImportantCmd => CaptureAll
        case _ => ActionRequest)
    ensures RouteOf(e.intent.action) == ActionRequest ==> e.intent.actionType.Some?
  {
    assert EqualsIgnoreCase(CAPTURE_ACTION, "A11yInspector");
    assert EqualsIgnoreCase(CAPTURE_ALL_ACTION, "A11yInspectorImportant");
    assert EqualsIgnoreCase(PERFORM_ACTION, "A11yInspectorAction");
  }

  /**
   * An action request from a client always carries an action, so the
   * service's answer never depends on the null-action exception.
   */
  lemma ActionBroadcastHasAction(sender: SocketId, o: InObject, screen: Screen, x: string, y: string)
    requires ActionRequestEffect(sender, o).Broadcast?
    ensures var intent := ActionRequestEffect(sender, o).intent;
      ActionMessage(screen, intent, x) == ActionMessage(screen, intent, y)
  {
  }
}
