# Accessibility Inspector Service, modelled in Dafny

Accessibility Inspector Service is an Android accessibility service. It
captures the accessibility node trees of the windows on screen, turns them into
JSON and sends them to desktop clients over a WebSocket. It also performs
actions on nodes and launches activities at a client's request. This project
models the core of that service and proves properties of the model:

- **Node finders** (`CustomNodeFinder`), module `NodeFinder` over the tree
  of module `Nodes`. These are the recursive searches by text, by regular
  expression, by view id and by a property object, plus node counts and
  statistics. The view-id, property and all-nodes finders are proved equal
  to a filter of the pre-order visit of the tree. The text and regex finders
  are proved equal to that filter when the tree's nodes are distinct objects,
  because their duplicate check compares node identities.
- **Tree capture** (`TreeDebug`), modules `TreeDebug`, `NodeRecord` and
  `DebugDescription`. This covers the walk of each active window with its
  seen set, the JSON record of a node, the one-line debug description, and
  the rules that decide which windows reach the captured tree. The live tree
  is a graph: a child may refer back to a node already seen. The walk is
  proved to expand every node at most once.
- **Service commands** (`AccessibilityInspector`), modules `Inspector` and
  `InspectorService`. These are target resolution by resource id or hash
  code, action decoding and execution, launch-request validation and
  description, announcements, service flags, and the broadcast receiver.
  The service object is a class whose fields are its flags, the last
  captured tree and the messages handed to the socket service.
- **Socket service** (`SocketService`), module `SocketService`. This covers
  the list of connected sockets, the broadcast to all of them, and the
  dispatch of client frames to broadcasts, replies and direct launch calls.

Modules `Wrappers`, `JavaString` and `Json` give the Java and org.json
behaviour the core relies on. That includes ASCII case mapping,
`equalsIgnoreCase`, `trim`, `Integer.parseInt`, `lastIndexOf`, `optString`
and `JSONObject.put` on an insertion-ordered object.

The operating system's answers are parameters of the model. These are whether
a node accepts an action, whether a package has a launcher intent, whether an
intent resolves, the regular-expression engine, and whether the service
instance is available.

## Model

| member | source | states |
|---|---|---|
| Nodes.PreOrder | app/src/main/java/com/jwlilly/accessibilityinspector/CustomNodeFinder.java:293-308 | The order in which the recursive finders visit a tree: the node first, then each present child's subtree left to right. |
| Nodes.FilterMembers | app/src/main/java/com/jwlilly/accessibilityinspector/CustomNodeFinder.java:30-63 | A node is in a filtered visit exactly when it is visited and passes the test; this is the meaning of each finder's result list. |
| Nodes.GatheredIsFilter | app/src/main/java/com/jwlilly/accessibilityinspector/CustomNodeFinder.java:161-205 | The accumulator-passing recursion the finders use appends to the incoming list exactly the pre-order filter of the subtree. |
| NodeFinder.CollectTextOrDescription | app/src/main/java/com/jwlilly/accessibilityinspector/CustomNodeFinder.java:30-63 | The recursive text search returns the incoming results followed by every node, in pre-order, whose text or (when the text test fails) content description passes the test; with distinct nodes the contains() guard never drops a hit. |
| NodeFinder.TextSearchIsGathered | app/src/main/java/com/jwlilly/accessibilityinspector/CustomNodeFinder.java:30-63 | When node identities are distinct and not already in the results, the contains() duplicate check has no effect: the search equals the plain gather. |
| NodeFinder.VisitNodeSpec | app/src/main/java/com/jwlilly/accessibilityinspector/CustomNodeFinder.java:33-52 | Visiting one node adds at most that node, and adds it at most once even when both its text and its description match. |
| NodeFinder.FindNodesByText | app/src/main/java/com/jwlilly/accessibilityinspector/CustomNodeFinder.java:20-28 | A null root or null text gives an empty list; otherwise, when the nodes of the tree are distinct objects, the nodes whose text or content description equals the query, in pre-order. |
| NodeFinder.ExactHitMeaning | app/src/main/java/com/jwlilly/accessibilityinspector/CustomNodeFinder.java:33-57 | A node is a text hit exactly when its text or its content description is the query string. |
| NodeFinder.FindNodesByRegex | app/src/main/java/com/jwlilly/accessibilityinspector/CustomNodeFinder.java:67-75 | A null root or pattern gives an empty list; otherwise, when the nodes of the tree are distinct objects, the pre-order nodes whose text or content description matches the pattern. |
| NodeFinder.LiteralRegexIsTextSearch | app/src/main/java/com/jwlilly/accessibilityinspector/CustomNodeFinder.java:77-115 | A pattern that matches exactly itself finds the same nodes as the text search for that string. |
| NodeFinder.InvalidPatternFindsNothing | app/src/main/java/com/jwlilly/accessibilityinspector/CustomNodeFinder.java:80-112 | A pattern the engine rejects finds nothing: every node is skipped and the search carries on into the children. |
| NodeFinder.CollectMatching | app/src/main/java/com/jwlilly/accessibilityinspector/CustomNodeFinder.java:128-147 | The view-id and properties recursion appends the matching nodes of the subtree in pre-order to the incoming results. |
| NodeFinder.FindNodesByViewId | app/src/main/java/com/jwlilly/accessibilityinspector/CustomNodeFinder.java:118-126 | A null view id gives an empty list; otherwise exactly the nodes with that resource name, in pre-order. |
| NodeFinder.ViewIdResultMembers | app/src/main/java/com/jwlilly/accessibilityinspector/CustomNodeFinder.java:128-147 | A node is in the view-id result exactly when it is in the tree and its resource name equals the query. |
| NodeFinder.MatchesStringValue | app/src/main/java/com/jwlilly/accessibilityinspector/CustomNodeFinder.java:250-258 | A string property matches exactly when the node value is present and equals the expected value as a string. |
| NodeFinder.MatchesAllProperties | app/src/main/java/com/jwlilly/accessibilityinspector/CustomNodeFinder.java:169-189 | The key loop with its early break is true exactly when the object has at least one property, known or not, and every property matches; an unknown name counts as a match. |
| NodeFinder.FindNodesByProps | app/src/main/java/com/jwlilly/accessibilityinspector/CustomNodeFinder.java:151-159 | A null property object gives an empty list; otherwise the pre-order nodes that match all the given known properties. |
| NodeFinder.EmptyPropsFindNothing | app/src/main/java/com/jwlilly/accessibilityinspector/CustomNodeFinder.java:187-189 | An empty property object matches no node, because a node with no checked property is rejected. |
| NodeFinder.PropertyNameIgnoresCase | app/src/main/java/com/jwlilly/accessibilityinspector/CustomNodeFinder.java:211-221 | Property names are matched after lower-casing, so names equal up to case test the same thing. |
| NodeFinder.UnknownPropertyIgnored | app/src/main/java/com/jwlilly/accessibilityinspector/CustomNodeFinder.java:240-242 | An unknown property name neither passes nor fails a node, as long as some other property is checked. |
| NodeFinder.IntRequirementEncodingsAgree | app/src/main/java/com/jwlilly/accessibilityinspector/CustomNodeFinder.java:269-280 | An integer requirement given as a JSON number or as its decimal string selects the same nodes. |
| NodeFinder.BoolRequirementEncodingsAgree | app/src/main/java/com/jwlilly/accessibilityinspector/CustomNodeFinder.java:260-267 | A boolean requirement given as a JSON boolean or as "true"/"false" selects the same nodes. |
| NodeFinder.GetAllNodes | app/src/main/java/com/jwlilly/accessibilityinspector/CustomNodeFinder.java:285-291 | Every node of the tree, in pre-order; none for a null root. |
| NodeFinder.CountNodes | app/src/main/java/com/jwlilly/accessibilityinspector/CustomNodeFinder.java:311-326 | The number of nodes in the tree, equal to the length of the pre-order visit. |
| NodeFinder.StatsOf | app/src/main/java/com/jwlilly/accessibilityinspector/CustomNodeFinder.java:331-358 | Each statistics count is at most the total number of nodes. |
| NodeFinder.GetTreeStats | app/src/main/java/com/jwlilly/accessibilityinspector/CustomNodeFinder.java:331-358 | "Root is null" for a null root; otherwise the report of the counts over the pre-order visit. |
| NodeRecord.GetSimpleName | app/src/main/java/com/google/android/accessibility/utils/TreeDebug.java:205-212 | The simple name holds no '.', is the text after the last '.', and is the whole name when there is no dot. |
| NodeRecord.SimpleNameWithDot | app/src/main/java/com/google/android/accessibility/utils/TreeDebug.java:196-203 | A suffix of the class name that starts at its last '.' (kept), or the whole name when there is none. |
| NodeRecord.StandardActionToken | app/src/main/java/com/google/android/accessibility/utils/TreeDebug.java:519-547 | A standard action id has a non-empty token, and every other id has none. |
| NodeRecord.ActionToken | app/src/main/java/com/google/android/accessibility/utils/TreeDebug.java:518-553 | A non-empty label gives "<label> (custom)", which overrides the standard token; an action has no token exactly when it has no label and is not standard. |
| NodeRecord.ActionTokensMembers | app/src/main/java/com/google/android/accessibility/utils/TreeDebug.java:517-554 | A token is listed exactly when it is non-empty and some action of the list produces it. |
| NodeRecord.EncodeActions | app/src/main/java/com/google/android/accessibility/utils/TreeDebug.java:517-554 | The loop over the action list collects the token list in list order. |
| NodeRecord.PropertyListIsOrderedSelection | app/src/main/java/com/google/android/accessibility/utils/TreeDebug.java:559-598 | The "properties" array holds exactly the properties that hold, in the fixed order of the checks. |
| NodeRecord.MetadataRole | app/src/main/java/com/google/android/accessibility/utils/TreeDebug.java:395-404 | The metadata "role" is the node's simple class name, or "??" without a class name, the same as the record's "name". |
| NodeRecord.MetadataCheckable | app/src/main/java/com/google/android/accessibility/utils/TreeDebug.java:505-511 | "checkable" is present exactly for checkable nodes, as "checked" or "not checked". |
| NodeRecord.MetadataActions | app/src/main/java/com/google/android/accessibility/utils/TreeDebug.java:513-558 | "actions" is present exactly when the action mask is non-zero and some action has a token. |
| NodeRecord.MetadataProperties | app/src/main/java/com/google/android/accessibility/utils/TreeDebug.java:559-598 | "properties" is present exactly when some property holds. |
| DebugDescription.ActionSummaryJoinsNames | app/src/main/java/com/google/android/accessibility/utils/TreeDebug.java:291-325 | After setLength removes the last character, the action summary is "(action:" followed by the set bits' names joined by "/" and ")". With no named bit set it is "(action)", because the ':' is removed. |
| DebugDescription.SlashTerminatedIsJoin | app/src/main/java/com/google/android/accessibility/utils/TreeDebug.java:293-322 | Appending a name and a "/" per set bit yields the "/"-join of the names plus one trailing "/". |
| DebugDescription.NodeDebugDescription | app/src/main/java/com/google/android/accessibility/utils/TreeDebug.java:215-384 | The description holds no line break, because every \n and \r is removed at the end. |
| DebugDescription.StripKeepsPlainText | app/src/main/java/com/google/android/accessibility/utils/TreeDebug.java:383 | Text without line breaks passes through the removal unchanged. |
| DebugDescription.StripConcat | app/src/main/java/com/google/android/accessibility/utils/TreeDebug.java:383 | The removal works character by character, so it distributes over concatenation. |
| DebugDescription.DescriptionStartsWithWindowId | app/src/main/java/com/google/android/accessibility/utils/TreeDebug.java:216-218 | The description starts with the node's window id in decimal. |
| TreeDebug.AttachChildren | app/src/main/java/com/google/android/accessibility/utils/TreeDebug.java:187-190 | "children" is put only when some child record was made; then it holds them, and every other key keeps its value. |
| TreeDebug.ChildRecord | app/src/main/java/com/google/android/accessibility/utils/TreeDebug.java:178-186 | A child's record is its own name and metadata, with a "children" array after them only when it has recorded children. |
| TreeDebug.WalkNode | app/src/main/java/com/google/android/accessibility/utils/TreeDebug.java:167-194 | A node already seen gives nothing. Otherwise it is marked seen and yields one record per present child, and the nodes expanded are exactly the newly seen ones, each once. |
| TreeDebug.WalkSlots | app/src/main/java/com/google/android/accessibility/utils/TreeDebug.java:178-186 | The child loop yields one record per present child slot, and a null child is skipped. |
| TreeDebug.WalkExpandsEachNodeOnce | app/src/main/java/com/google/android/accessibility/utils/TreeDebug.java:169-172 | From an empty seen set, a walk expands the root first, expands every node at most once, and so expands at most as many nodes as the graph has, even on a cyclic graph. |
| TreeDebug.SeenNodeNotExpanded | app/src/main/java/com/google/android/accessibility/utils/TreeDebug.java:169-172 | A node that is already in the seen set is never expanded again. |
| TreeDebug.TreeWalker.LogNodeTreeJson | app/src/main/java/com/google/android/accessibility/utils/TreeDebug.java:167-194 | The recursive method leaves the parent record with the walk's children attached and leaves the seen set equal to the walk's. |
| TreeDebug.LogNodeTree | app/src/main/java/com/google/android/accessibility/utils/TreeDebug.java:129-142 | A null root leaves the window object unchanged; otherwise its "children" come from a walk that starts with an empty seen set. |
| TreeDebug.WindowMetadata | app/src/main/java/com/google/android/accessibility/utils/TreeDebug.java:63-88 | The window's metadata names the role "Window" and carries the window id; "title" is present exactly when the window has a title, with its text; x1, y1, x2 and y2 are the root's bounds. |
| NodeRecord.BoundsLookups | app/src/main/java/com/google/android/accessibility/utils/TreeDebug.java:80-83 | The bounds members read back as x1 = left, y1 = top, x2 = right, y2 = bottom. |
| TreeDebug.LogNodeTrees | app/src/main/java/com/google/android/accessibility/utils/TreeDebug.java:47-126 | The capture loop sends the object whose "children" are the windows kept by the capture rules, or nothing when the window list is null. |
| TreeDebug.CapturedWindowsConcat | app/src/main/java/com/google/android/accessibility/utils/TreeDebug.java:55-114 | Windows are handled one at a time, so the capture of two lists is the capture of each, in order. |
| TreeDebug.SkippedWindowsAddNothing | app/src/main/java/com/google/android/accessibility/utils/TreeDebug.java:55-59 | A null, inactive or rootless window adds nothing to the capture. |
| TreeDebug.CapturedWindowsQualify | app/src/main/java/com/google/android/accessibility/utils/TreeDebug.java:95-113 | Every captured window comes from a surviving window of the list and has a non-empty "children" array. |
| TreeDebug.PaneTitleTestNeverFires | app/src/main/java/com/google/android/accessibility/utils/TreeDebug.java:95-109 | As written, the empty-window test reduces to "no child records", because "paneTitle" is never a top-level key of a record. |
| TreeDebug.StatusBarWindowKeptAsWritten | app/src/main/java/com/google/android/accessibility/utils/TreeDebug.java:102-103 | As written, a window whose first child's metadata carries the pane title "Status bar" is kept. The intended test, which reads the metadata, drops it. |
| TreeDebug.NullRootAbortsAsWritten | app/src/main/java/com/google/android/accessibility/utils/TreeDebug.java:74-79 | As written, an active window with a null root aborts the whole capture, and nothing is sent; the exception also escapes startCapture and onReceive. |
| TreeDebug.NullRootWindowSkipped | app/src/main/java/com/google/android/accessibility/utils/TreeDebug.java:74-79 | In the corrected capture, a window with a null root is skipped and the others are captured as before. |
| Inspector.FirstMatch | app/src/main/java/com/jwlilly/accessibilityinspector/AccessibilityInspector.java:516-536 | The search result is None exactly when no node in the visit matches, and otherwise a matching node of the visit. |
| Inspector.FirstMatchIsFirst | app/src/main/java/com/jwlilly/accessibilityinspector/AccessibilityInspector.java:516-536 | The found node is the first matching node in visit order. |
| Inspector.SearchIsFirstMatch | app/src/main/java/com/jwlilly/accessibilityinspector/AccessibilityInspector.java:516-536 | The recursive depth-first search with early return finds the first match of the pre-order visit. |
| Inspector.FindRecursive | app/src/main/java/com/jwlilly/accessibilityinspector/AccessibilityInspector.java:516-536 | findNodeByResourceIdRecursive and findNodeByHashCodeRecursive return what the early-return search finds. |
| Inspector.FindInWindows | app/src/main/java/com/jwlilly/accessibilityinspector/AccessibilityInspector.java:484-497 | The loop over the windows' roots returns the first match across the roots in window order. |
| Inspector.FindNodeByResourceId | app/src/main/java/com/jwlilly/accessibilityinspector/AccessibilityInspector.java:484-497 | The result is None exactly when no node has that resource name; otherwise it is the first such node in window and pre-order. |
| Inspector.FindNodeByHashCode | app/src/main/java/com/jwlilly/accessibilityinspector/AccessibilityInspector.java:500-513 | The result is None exactly when no node has that hash code; otherwise it is the first such node. |
| Inspector.Locate | app/src/main/java/com/jwlilly/accessibilityinspector/AccessibilityInspector.java:389-395 | Resolution succeeds exactly when some node matches. Failure gives "Node with <criteria> not found". |
| Inspector.ResolveTarget | app/src/main/java/com/jwlilly/accessibilityinspector/AccessibilityInspector.java:374-395 | A non-empty resource id is used first. Otherwise a non-empty hash code is parsed, and a parse failure is reported. Otherwise the "No search criteria" error is returned. |
| Inspector.ResolvedTargetMatches | app/src/main/java/com/jwlilly/accessibilityinspector/AccessibilityInspector.java:374-395 | A resolved target has the requested resource id or, failing that, the parsed hash code. |
| Inspector.ResourceIdTakesPrecedence | app/src/main/java/com/jwlilly/accessibilityinspector/AccessibilityInspector.java:375-387 | With a resource id given, the hash code has no effect on resolution. |
| Inspector.DecodeAction | app/src/main/java/com/jwlilly/accessibilityinspector/AccessibilityInspector.java:400-467 | The action type, upper-cased, names an action exactly when it equals that action's name with or without the ACTION_ prefix. |
| Inspector.NamesUnique | app/src/main/java/com/jwlilly/accessibilityinspector/AccessibilityInspector.java:400-467 | No action type names two actions, so the switch is unambiguous. |
| Inspector.DecodeActionIgnoresCase | app/src/main/java/com/jwlilly/accessibilityinspector/AccessibilityInspector.java:400 | Action types that are equal up to case decode to the same action. |
| Inspector.RequestFor | app/src/main/java/com/jwlilly/accessibilityinspector/AccessibilityInspector.java:413-431 | SET_TEXT carries the text, CLEAR_TEXT carries the empty string, and no other action carries text. |
| Inspector.ActionResult | app/src/main/java/com/jwlilly/accessibilityinspector/AccessibilityInspector.java:369-480 | The resolution error, an unknown action, or a missing SET_TEXT text makes the report fail without issuing an action. Otherwise the action is issued, and the report's success is the node's answer. A successful report names how the target was found. |
| Inspector.PerformAction | app/src/main/java/com/jwlilly/accessibilityinspector/AccessibilityInspector.java:369-480 | performAction reports the outcome that resolution, decoding and the node's answer determine. |
| Inspector.PerformOn | app/src/main/java/com/jwlilly/accessibilityinspector/AccessibilityInspector.java:400-479 | Given a resolved target, the switch issues the decoded request and builds the message from the outcome. |
| Inspector.ParseLaunchType | app/src/main/java/com/jwlilly/accessibilityinspector/AccessibilityInspector.java:173 | The launch type, upper-cased, selects a kind exactly when it equals that kind's name. |
| Inspector.ParseLaunchTypeAcceptsName | app/src/main/java/com/jwlilly/accessibilityinspector/AccessibilityInspector.java:173-272 | A launch type selects a kind exactly when its upper-cased form is that kind's name. |
| Inspector.ComponentIffEqualsIgnoreCase | app/src/main/java/com/jwlilly/accessibilityinspector/AccessibilityInspector.java:188 | COMPONENT is selected exactly by strings equal to "COMPONENT" up to case. |
| Inspector.MissingFieldMessage | app/src/main/java/com/jwlilly/accessibilityinspector/AccessibilityInspector.java:174-268 | Each launch kind demands exactly its own required fields (package; package and class; intent action; data), and SETTINGS and EMAIL demand none. |
| Inspector.LaunchFailure | app/src/main/java/com/jwlilly/accessibilityinspector/AccessibilityInspector.java:174-278 | Building the intent fails exactly on a missing required field or, for PACKAGE, on a package with no launcher intent. |
| Inspector.LaunchResult | app/src/main/java/com/jwlilly/accessibilityinspector/AccessibilityInspector.java:165-320 | An unknown launch type is reported as such. Otherwise success holds exactly when the required fields are present, a PACKAGE has a launcher, and the intent resolves (a COMPONENT skips resolution). A success names what was launched. |
| Inspector.ComponentSkipsResolution | app/src/main/java/com/jwlilly/accessibilityinspector/AccessibilityInspector.java:295-303 | A COMPONENT launch does not depend on whether an activity resolves the intent. |
| Inspector.LaunchActivity | app/src/main/java/com/jwlilly/accessibilityinspector/AccessibilityInspector.java:165-320 | launchActivity reports the result the launch rules determine. |
| Inspector.DescribeIntent | app/src/main/java/com/jwlilly/accessibilityinspector/AccessibilityInspector.java:199-219 | The intent launch description names the action, adding the data and then the category when they are given. |
| Inspector.BuildIntent | app/src/main/java/com/jwlilly/accessibilityinspector/AccessibilityInspector.java:173-278 | The switch fails exactly as the launch rules say; otherwise it yields the launch description for the kind. |
| InspectorService.CollectMembers | app/src/main/java/com/jwlilly/accessibilityinspector/AccessibilityInspector.java:53-61 | A value is produced exactly when some kept input yields it. |
| InspectorService.AnnouncementsMembers | app/src/main/java/com/jwlilly/accessibilityinspector/AccessibilityInspector.java:53-61 | An announcement event sends one message per event text that is not blank after trimming. |
| InspectorService.BlankTextNotAnnounced | app/src/main/java/com/jwlilly/accessibilityinspector/AccessibilityInspector.java:56-59 | A text is skipped exactly when it consists only of characters that trim() removes. |
| InspectorService.TreeMessage | app/src/main/java/com/jwlilly/accessibilityinspector/AccessibilityInspector.java:610-620 | The tree sent has "name" set to the empty string, and every other key is unchanged. |
| InspectorService.CaptureOutput | app/src/main/java/com/jwlilly/accessibilityinspector/AccessibilityInspector.java:634-639 | A capture with a window list sends the tree whose "children" are the captured windows. Without one, it sends the last tree with "name" put in if there is one, and nothing otherwise. |
| InspectorService.StoredTree | app/src/main/java/com/jwlilly/accessibilityinspector/AccessibilityInspector.java:610-639 | The tree kept after a capture is exactly the message the capture sends, with "name" set to ""; it is absent only when there was neither a window list nor an earlier tree. |
| InspectorService.ActionMessage | app/src/main/java/com/jwlilly/accessibilityinspector/AccessibilityInspector.java:562-576 | The action result message is typed "actionResult". |
| InspectorService.AccessibilityInspector.constructor | app/src/main/java/com/jwlilly/accessibilityinspector/AccessibilityInspector.java:94-117 | The service starts with the important-only flags, no tree and nothing sent. |
| InspectorService.AccessibilityInspector.HideNotImportant | app/src/main/java/com/jwlilly/accessibilityinspector/AccessibilityInspector.java:586-598 | All flags are switched to the important-only flags, which drop FLAG_INCLUDE_NOT_IMPORTANT_VIEWS. Any other flag set is left alone. |
| InspectorService.AccessibilityInspector.ShowNotImportant | app/src/main/java/com/jwlilly/accessibilityinspector/AccessibilityInspector.java:600-608 | The flags become the full set, which includes not-important views. |
| InspectorService.AccessibilityInspector.OnAccessibilityEvent | app/src/main/java/com/jwlilly/accessibilityinspector/AccessibilityInspector.java:53-61 | Only announcement events send anything, one message per non-blank text. |
| InspectorService.AccessibilityInspector.SendTree | app/src/main/java/com/jwlilly/accessibilityinspector/AccessibilityInspector.java:610-620 | With a tree, its renamed copy is sent and kept. Without one, nothing changes. |
| InspectorService.AccessibilityInspector.StartCapture | app/src/main/java/com/jwlilly/accessibilityinspector/AccessibilityInspector.java:634-639 | A capture sends what the capture output says. The kept tree becomes the captured windows with "name" put in; without a window list it is the previous tree with "name" put in, or still none. This is the tree a later capture without a window list sends again. |
| InspectorService.AccessibilityInspector.Launch | app/src/main/java/com/jwlilly/accessibilityinspector/AccessibilityInspector.java:351-366 | A launch sends exactly one launch result. |
| InspectorService.AccessibilityInspector.PerformActionRequest | app/src/main/java/com/jwlilly/accessibilityinspector/AccessibilityInspector.java:369-480 | An action request sends exactly one action result. |
| InspectorService.AccessibilityInspector.OnReceive | app/src/main/java/com/jwlilly/accessibilityinspector/AccessibilityInspector.java:139-160 | "A11yInspector" hides not-important views and captures. "A11yInspectorImportant" shows them and captures. Both captures send the capture output and keep the stored tree. "A11yInspectorAction" performs the action. Any other action changes nothing. |
| SocketService.IndexOf | app/src/main/java/com/jwlilly/accessibilityinspector/SocketService.java:241-249 | The position of the first occurrence of a socket, or None exactly when it is not in the list. |
| SocketService.RemoveFirst | app/src/main/java/com/jwlilly/accessibilityinspector/SocketService.java:241-249 | Removing a socket that is in the list shortens it by one. Removing one that is not leaves it unchanged. |
| SocketService.RemoveFirstMultiset | app/src/main/java/com/jwlilly/accessibilityinspector/SocketService.java:241-249 | Removal takes out one copy of the socket and keeps every other socket. |
| SocketService.CloseUndoesConnect | app/src/main/java/com/jwlilly/accessibilityinspector/SocketService.java:127-249 | A client that connects and then closes leaves the list as it was. |
| SocketService.SocketServer.constructor | app/src/main/java/com/jwlilly/accessibilityinspector/SocketService.java:127-128 | The server starts with no connected sockets. |
| SocketService.SocketServer.OnConnected | app/src/main/java/com/jwlilly/accessibilityinspector/SocketService.java:127-128 | A new connection is appended to the socket list. |
| SocketService.SocketServer.OnClosed | app/src/main/java/com/jwlilly/accessibilityinspector/SocketService.java:241-249 | A closed connection is removed from the list; other sockets keep their order. |
| SocketService.SocketServer.BroadcastMessage | app/src/main/java/com/jwlilly/accessibilityinspector/SocketService.java:254-257 | One send per connected socket, in list order, each carrying the message. |
| SocketService.MatchCommand | app/src/main/java/com/jwlilly/accessibilityinspector/SocketService.java:134-191 | The "message" value selects a command exactly when it equals that command's name up to case. |
| SocketService.MatchCommandUnique | app/src/main/java/com/jwlilly/accessibilityinspector/SocketService.java:134-191 | No message selects two commands, so the order of the tests does not matter. |
| SocketService.IfGiven | app/src/main/java/com/jwlilly/accessibilityinspector/SocketService.java:158-167 | A request field is put into the intent exactly when it is present and non-empty, unchanged. |
| SocketService.InvalidJsonResponse | app/src/main/java/com/jwlilly/accessibilityinspector/SocketService.java:226-236 | A frame that fails to parse gets an "error" reply carrying the parser's message. |
| SocketService.ActionRequestEffect | app/src/main/java/com/jwlilly/accessibilityinspector/SocketService.java:149-189 | A missing identifier or a missing action gives the corresponding error reply. Otherwise the request is broadcast with exactly the non-empty fields given. |
| SocketService.LaunchRequestEffect | app/src/main/java/com/jwlilly/accessibilityinspector/SocketService.java:191-224 | An unavailable service or an empty launch type gives the corresponding error reply. Otherwise launchActivity is called with the request's fields. |
| SocketService.Responses | app/src/main/java/com/jwlilly/accessibilityinspector/SocketService.java:130-239 | A frame gives at most one effect. A malformed frame gets the invalid-JSON reply. A parsed frame gets nothing exactly when it has no message or names no command. |
| SocketService.OnString | app/src/main/java/com/jwlilly/accessibilityinspector/SocketService.java:130-239 | The string callback produces the effects the dispatch rules state. |
| SocketService.BroadcastsAreRouted | app/src/main/java/com/jwlilly/accessibilityinspector/SocketService.java:134-189 | Every broadcast goes to the receiver branch of its command. An action request always carries an action type. |
| SocketService.ActionBroadcastHasAction | app/src/main/java/com/jwlilly/accessibilityinspector/SocketService.java:149-189 | An action request broadcast from a socket never reaches the service's null-action path. |

## Left out

- gzip compression and decompression of the messages, and their serialisation to text (`toString`), are not modelled. A message is a JSON value.
- The random per-node "id" and the dp-scaled sizes (`convertPixelsToDp`, `DecimalFormat`) of a node record are left out. They are random or floating point.
- Regular-expression matching (`String.matches`) is a parameter. It returns None for an invalid pattern, which is where the source catches the exception.
- The Android collaborators are parameters or inputs: `getWindows`, `AccessibilityNodeInfo.performAction`, `PackageManager`, `startActivity` and `AccessibilityNodeInfoUtils`.
- The service lifecycle is left out: the notification, the port the server listens on, `onStartCommand`, `onUnbind` and the registration of receivers. So is the static `SocketService.data` field; a message is passed as a value instead. In the service, every send writes that one field and then calls `startService`, and `onStartCommand` reads the field only later. A message handed over before the previous one was broadcast therefore replaces it. For example, an announcement event with two non-blank texts writes both before either is broadcast, and a launch result is written from the socket server's thread. So `outbox` is the sequence of messages the service hands over, not the sequence clients receive: clients may get a later message twice and never the earlier one.
- JavaString.ParseInt: accepts the ASCII digits '0' to '9' only. `Integer.parseInt` also accepts the other Unicode decimal digits through `Character.digit`, so a hash code or integer property written in, say, Arabic-Indic digits parses in the service but is a format error in the model.
- Case mapping (`toUpperCase`, `toLowerCase`, `equalsIgnoreCase`) covers ASCII letters only, not the full Unicode tables. It is also independent of the locale. `equalsIgnoreCase` is locale-independent in Java as well, so `SocketService.MatchCommand` and `InspectorService.RouteOf` are unaffected. The no-argument `toLowerCase()` and `toUpperCase()` use the device's default locale, which the next three lines are about.
- NodeFinder.GetTreeStats: writes the counts in ASCII digits. The service's `String.format("%d")` has no locale argument, so it uses the default locale's digits. Under an Arabic or Persian default locale, a 12-node tree is reported as "Total nodes: ١٢, …" in the service and "Total nodes: 12, …" in the model.
- NodeFinder.NodeMatchesProperty: lower-cases the property name without a locale. Under a Turkish or Azeri default locale, `toLowerCase()` maps 'I' to dotless 'ı'. So `{"viewId":"x"}` becomes the unknown key "viewıd", which counts as a match, and findNodesByProps returns every node. The model returns only the nodes whose view id is x.
- Inspector.DecodeAction: upper-cases the action type without a locale. Under a Turkish or Azeri default locale, `toUpperCase()` maps 'i' to dotted 'İ'. So "click" becomes "CLİCK", which the service reports as "Unknown action type: click". The model decodes it as a click.
- Inspector.ParseLaunchType: upper-cases the launch type without a locale. Under a Turkish or Azeri default locale, "intent" becomes "İNTENT", which the service reports as "Unknown launch type: intent". The model selects the INTENT launch.
- The finders and the action-target searches walk trees, which is how they recurse, with no cycle guard. Only the capture walks a graph with a seen set.
- `launchType.toUpperCase()` on a null launch type and `actionType.toUpperCase()` on a null action type throw. The socket service never sends null for either. The one reachable case, an action intent without an action type, is modelled through `nullActionMessage`, which reports the exception's text.
- "Failed to create launch intent" cannot be reached, because every switch branch that breaks has set the intent. It is not modelled.
- The extras JSON (`addExtrasToIntent`) is carried as a field of the launch call, but its conversion into intent extras is not modelled.
- The `SecurityException` and generic `Exception` handlers of launchActivity and performAction are left out. They report what the operating system throws.
- Intents, `StringBuilder`s and JSON objects are values. Aliasing of the captured JSON object between logNodeTrees and sendTree is represented by the service keeping the last tree.
- The imperative `StringBuilder` of nodeDebugDescription is modelled as a string-valued function. The action summary's `setLength` step is stated on values in `ActionSummary`.
- `Log` calls, including `Log.d` of a null string, are left out.
- `logOrderedTraversalTree` and the other TreeDebug helpers outside the capture path are left out.
- Integer widths: node ids, hash codes and bounds are unbounded integers. `Int32` bounds the parsed hash code where `Integer.parseInt` is modelled.

## Findings

| source | as written | input that shows it | evidently intended | confidence | as-written member | corrected member |
|---|---|---|---|---|---|---|
| app/src/main/java/com/google/android/accessibility/utils/TreeDebug.java:102-103 | The status-bar test asks the first child record for "paneTitle" at its top level. A record keeps it inside "metadata" (line 453), so the test never fires. | An active window whose first child is the status-bar pane, i.e. a record whose metadata has paneTitle "Status bar". | Such a window is treated as empty and left out of the capture. | not executed | TreeDebug.StatusBarWindowKeptAsWritten | TreeDebug.IsEmptyWindow |
| app/src/main/java/com/google/android/accessibility/utils/TreeDebug.java:74-79 | For an active window with a null root, logNodeTree returns, and then `root.getBoundsInScreen` throws a NullPointerException that no handler catches. The whole capture ends and nothing is sent. The exception also escapes startCapture and onReceive (AccessibilityInspector.java:139-160, 634-639), so it plausibly ends the service process. | A window list containing one active window whose root is null. | The window is skipped and the other windows are captured. | not executed | TreeDebug.NullRootAbortsAsWritten | TreeDebug.NullRootWindowSkipped |

`TreeDebug.IsEmptyWindowAsWritten` and `TreeDebug.CaptureLoopAsWritten`
model the code as written. `TreeDebug.PaneTitleTestNeverFires` proves that
the as-written test reduces to "no child records". `TreeDebug.IsEmptyWindow`
reads "paneTitle" from the first child's metadata.
`TreeDebug.StatusBarWindowKeptAsWritten` proves that it drops the window the
as-written test keeps. The rest of the model, including `TreeDebug.LogNodeTrees`,
uses the corrected definitions.
