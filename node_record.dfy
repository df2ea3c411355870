/**
 * The JSON record TreeDebug writes for one node (nodeDebugDescriptionJson):
 * a "name" (the simple class name) and a "metadata" object whose members
 * appear in the order the record is built. The random per-node "id" and the
 * dp-scaled sizes are not part of this model.
 */
module NodeRecord {
  import opened Wrappers
  import opened JavaString
  import opened Json
  import opened Nodes

  /**
   * getSimpleName: the part of a class name from its last '.', with every
   * '.' removed; a name without a dot comes back whole.
   */
  function GetSimpleName(fullName: string): (r: string)
    ensures '.' !in r
    ensures '.' !in fullName ==> r == fullName
    ensures forall i :: 0 <= i < |fullName| && fullName[i] == '.' && '.' !in fullName[i + 1..] ==>
      r == fullName[i + 1..]
  {
    var dot := LastIndexOf(fullName, '.');
    if dot < 0 then
      assert RemoveChar(fullName, '.') == fullName by {
        RemoveCharAbsent(fullName, '.');
      }
      RemoveChar(fullName[0..], '.')
    else
      var rest := fullName[dot + 1..];
      assert RemoveChar(fullName[dot..], '.') == rest by {
        assert fullName[dot..] == ['.'] + rest;
        DropLeadingChar(rest, '.');
      }
      RemoveChar(fullName[dot..], '.')
  }

  lemma DropLeadingChar(rest: string, c: char)
    requires c !in rest
    ensures RemoveChar([c] + rest, c) == rest
  {
    RemoveCharConcat([c], rest, c);
    assert RemoveChar([c], c) == RemoveChar([], c) + [];
    RemoveCharAbsent(rest, c);
  }

  /** appendSimpleName: the part of a class name from its last '.', the dot kept. */
  function SimpleNameWithDot(fullName: string): (r: string)
    ensures |r| <= |fullName| && r == fullName[|fullName| - |r|..]
    ensures '.' !in fullName ==> r == fullName
    ensures '.' in fullName ==> r != [] && r[0] == '.' && '.' !in r[1..]
  {
    var dot := LastIndexOf(fullName, '.');
    if dot < 0 then
      assert fullName[|fullName| - |fullName|..] == fullName;
      fullName
    else
      var r := fullName[dot..];
      assert r[1..] == fullName[dot + 1..];
      assert forall j :: 0 <= j < |r[1..]| ==> r[1..][j] == fullName[dot + 1 + j];
      r
  }

  /** The standard actions the record names, with their tokens. */
  const KnownActionIds: set<int> := {
    ACTION_FOCUS, ACTION_ACCESSIBILITY_FOCUS, ACTION_CLEAR_ACCESSIBILITY_FOCUS,
    ACTION_SCROLL_BACKWARD, ACTION_SCROLL_FORWARD, ACTION_CLICK, ACTION_LONG_CLICK,
    ACTION_EXPAND, ACTION_COLLAPSE}

  /** The fixed token of a standard action id, or "" for any other id. */
  function StandardActionToken(id: int): (r: string)
    ensures r == "" <==> id !in KnownActionIds
  {
    if id == ACTION_FOCUS then "focus"
    else if id == ACTION_ACCESSIBILITY_FOCUS then "a11y focus"
    else if id == ACTION_CLEAR_ACCESSIBILITY_FOCUS then "clear a11y focus"
    else if id == ACTION_SCROLL_BACKWARD then "scroll backward"
    else if id == ACTION_SCROLL_FORWARD then "scroll forward"
    else if id == ACTION_CLICK then "click"
    else if id == ACTION_LONG_CLICK then "long click"
    else if id == ACTION_EXPAND then "expand"
    else if id == ACTION_COLLAPSE then "collapse"
    else ""
  }

  predicate HasCustomLabel(a: ActionInfo) {
    a.actionLabel.Some? && |a.actionLabel.value| > 0
  }

  /** The token of one action: a non-empty label overrides the standard token. */
  function ActionToken(a: ActionInfo): (r: string)
    ensures HasCustomLabel(a) ==> r == a.actionLabel.value + " (custom)"
    ensures !HasCustomLabel(a) ==> r == StandardActionToken(a.id)
    ensures r == "" <==> !HasCustomLabel(a) && a.id !in KnownActionIds
  {
    if HasCustomLabel(a) then a.actionLabel.value + " (custom)" else StandardActionToken(a.id)
  }

  /** The tokens of an action list, in list order, actions without a token dropped. */
  function ActionTokens(actions: seq<ActionInfo>): (r: seq<string>)
    ensures |r| <= |actions|
    ensures forall t :: t in r ==> t != ""
  {
    if actions == [] then []
    else
      var token := ActionToken(actions[|actions| - 1]);
      ActionTokens(actions[..|actions| - 1]) + (if token != "" then [token] else [])
  }

  /** A token is listed exactly when some action of the list produces it. */
  lemma {:induction false} ActionTokensMembers(actions: seq<ActionInfo>)
    ensures forall t :: t in ActionTokens(actions) <==>
      t != "" && exists i :: 0 <= i < |actions| && ActionToken(actions[i]) == t
  {
    if actions != [] {
      var init := actions[..|actions| - 1];
      ActionTokensMembers(init);
      assert forall i :: 0 <= i < |init| ==> init[i] == actions[i];
    }
  }

  /** The loop over getActionList() that collects the action tokens. */
  method EncodeActions(actions: seq<ActionInfo>) returns (tokens: seq<string>)
    ensures tokens == ActionTokens(actions)
  {
    tokens := [];
    for i := 0 to |actions|
      invariant tokens == ActionTokens(actions[..i])
    {
      var action := actions[i];
      var actionText := "";
      if action.id == ACTION_FOCUS {
        actionText := "focus";
      }
      if action.id == ACTION_ACCESSIBILITY_FOCUS {
        actionText := "a11y focus";
      }
      if action.id == ACTION_CLEAR_ACCESSIBILITY_FOCUS {
        actionText := "clear a11y focus";
      }
      if action.id == ACTION_SCROLL_BACKWARD {
        actionText := "scroll backward";
      }
      if action.id == ACTION_SCROLL_FORWARD {
        actionText := "scroll forward";
      }
      if action.id == ACTION_CLICK {
        actionText := "click";
      }
      if action.id == ACTION_LONG_CLICK {
        actionText := "long click";
      }
      if action.id == ACTION_EXPAND {
        actionText := "expand";
      }
      if action.id == ACTION_COLLAPSE {
        actionText := "collapse";
      }
      if action.actionLabel.Some? && |action.actionLabel.value| > 0 {
        actionText := action.actionLabel.value + " (custom)";
      }
      if |actionText| > 0 {
        tokens := tokens + [actionText];
      }
      assert actions[..i + 1][..i] == actions[..i];
    }
    assert actions[..|actions|] == actions;
  }

  /** The properties a record can list, in the order it lists them. */
  const PropertyOrder: seq<string> := [
    "focusable", "screen reader focusable", "focused", "selected", "scrollable",
    "clickable", "long clickable", "accessibility focused", "disabled"]

  /** Whether a node has the named property. */
  predicate PropertyHolds(f: Flags, name: string) {
    if name == "focusable" then f.focusable
    else if name == "screen reader focusable" then f.screenReaderFocusable
    else if name == "focused" then f.focused
    else if name == "selected" then f.selected
    else if name == "scrollable" then f.scrollable
    else if name == "clickable" then f.clickable
    else if name == "long clickable" then f.longClickable
    else if name == "accessibility focused" then f.accessibilityFocused
    else if name == "disabled" then !f.enabled
    else false
  }

  function Flagged(b: bool, name: string): seq<string> {
    if b then [name] else []
  }

  /** The "properties" array, one flag after the other. */
  function PropertyList(f: Flags): seq<string> {
    Flagged(f.focusable, "focusable")
    + Flagged(f.screenReaderFocusable, "screen reader focusable")
    + Flagged(f.focused, "focused")
    + Flagged(f.selected, "selected")
    + Flagged(f.scrollable, "scrollable")
    + Flagged(f.clickable, "clickable")
    + Flagged(f.longClickable, "long clickable")
    + Flagged(f.accessibilityFocused, "accessibility focused")
    + Flagged(!f.enabled, "disabled")
  }

  function HoldsOf(f: Flags): string -> bool {
    name => PropertyHolds(f, name)
  }

  /** The list names exactly the properties the node has, in the fixed order. */
  lemma PropertyListIsOrderedSelection(f: Flags)
    ensures PropertyList(f) == Filter(PropertyOrder, HoldsOf(f))
  {
    var p := HoldsOf(f);
    var s5 := PropertyOrder[..5];
    FirstPropertiesSelected(f);
    var s6 := s5 + [PropertyOrder[5]];
    var s7 := s6 + [PropertyOrder[6]];
    var s8 := s7 + [PropertyOrder[7]];
    var s9 := s8 + [PropertyOrder[8]];
    assert s9 == PropertyOrder;
    FilterSnoc(s5, PropertyOrder[5], p);
    FilterSnoc(s6, PropertyOrder[6], p);
    FilterSnoc(s7, PropertyOrder[7], p);
    FilterSnoc(s8, PropertyOrder[8], p);
  }

  lemma FirstPropertiesSelected(f: Flags)
    ensures Flagged(f.focusable, "focusable") + Flagged(f.screenReaderFocusable, "screen reader focusable") + Flagged(f.focused, "focused") + Flagged(f.selected, "selected") + Flagged(f.scrollable, "scrollable") == Filter(PropertyOrder[..5], HoldsOf(f))
  {
    var p := HoldsOf(f);
    var s1 := [PropertyOrder[0]];
    var s2 := s1 + [PropertyOrder[1]];
    var s3 := s2 + [PropertyOrder[2]];
    var s4 := s3 + [PropertyOrder[3]];
    var s5 := s4 + [PropertyOrder[4]];
    assert s5 == PropertyOrder[..5];
    FilterSnoc([], PropertyOrder[0], p);
    assert [] + [PropertyOrder[0]] == s1;
    FilterSnoc(s1, PropertyOrder[1], p);
    FilterSnoc(s2, PropertyOrder[2], p);
    FilterSnoc(s3, PropertyOrder[3], p);
    FilterSnoc(s4, PropertyOrder[4], p);
  }

  /** The "checkable" text of a checkable node. */
  function CheckableText(checked: bool): string {
    if checked then "checked" else "not checked"
  }

  function JStrings(ts: seq<string>): (r: seq<JsonValue>)
    ensures |r| == |ts| && forall i :: 0 <= i < |ts| ==> r[i] == JStr(ts[i])
  {
    seq(|ts|, i requires 0 <= i < |ts| => JStr(ts[i]))
  }

  /** A string-valued member, absent when the value is null. */
  function StrMember(key: string, v: Option<string>): (r: seq<Member>)
    ensures forall m :: m in r ==> m.key == key
  {
    if v.Some? then [Member(key, JStr(v.value))] else []
  }

  function TrimOpt(v: Option<string>): Option<string> {
    if v.Some? then Some(Trim(v.value)) else None
  }

  /** The text recorded for the labelling node: its trimmed description if non-blank, else its text. */
  function LabeledByText(l: LabelInfo): Option<string> {
    if l.contentDescription.Some? && Trim(l.contentDescription.value) != "" then Some(Trim(l.contentDescription.value))
    else l.text
  }

  /** The "name" of a record, which is also its "role". */
  function RecordName(info: NodeInfo): string {
    if info.className.Some? then GetSimpleName(info.className.value) else "??"
  }

  predicate NoKey(ms: seq<Member>, key: string) {
    forall m :: m in ms ==> m.key != key
  }

  /** A member that is put only when `present` holds. */
  function When(present: bool, key: string, v: JsonValue): (r: seq<Member>)
    ensures forall m :: m in r ==> m.key == key
  {
    if present then [Member(key, v)] else []
  }

  function BoundsMembers(b: Rect): (r: seq<Member>)
    ensures forall m :: m in r ==> m.key in {"x1", "y1", "x2", "y2"}
  {
    [Member("x1", JInt(b.left)), Member("y1", JInt(b.top)), Member("x2", JInt(b.right)), Member("y2", JInt(b.bottom))]
  }

  /** Each corner key of the bounds members reads back its coordinate. */
  lemma BoundsLookups(b: Rect)
    ensures Lookup(BoundsMembers(b), "x1") == Some(JInt(b.left))
    ensures Lookup(BoundsMembers(b), "y1") == Some(JInt(b.top))
    ensures Lookup(BoundsMembers(b), "x2") == Some(JInt(b.right))
    ensures Lookup(BoundsMembers(b), "y2") == Some(JInt(b.bottom))
  {
    var ms := BoundsMembers(b);
    assert ms[1..] == [Member("y1", JInt(b.top)), Member("x2", JInt(b.right)), Member("y2", JInt(b.bottom))];
    assert ms[1..][1..] == [Member("x2", JInt(b.right)), Member("y2", JInt(b.bottom))];
    assert ms[1..][1..][1..] == [Member("y2", JInt(b.bottom))];
    assert "x1" != "y1" && "x1" != "x2" && "y1" != "x2" by { assert "x1"[0] != "y1"[0] && "x1"[1] != "x2"[1]; }
    assert "x1" != "y2" && "y1" != "y2" && "x2" != "y2" by { assert "x1"[0] != "y2"[0] && "y1"[1] != "y2"[1]; }
    var rest := ms[1..][1..];
    assert Lookup(rest, "x2") == Some(JInt(b.right));
    assert Lookup(rest, "y2") == Some(JInt(b.bottom)) by { assert Lookup(rest, "y2") == Lookup(rest[1..], "y2"); }
    assert Lookup(ms, "x2") == Lookup(rest, "x2") && Lookup(ms, "y2") == Lookup(rest, "y2") by {
      assert Lookup(ms, "x2") == Lookup(ms[1..], "x2") && Lookup(ms, "y2") == Lookup(ms[1..], "y2");
    }
  }

  /** The role description, put only for a node with a class name. */
  function RoleDescriptionMember(info: NodeInfo): (r: seq<Member>)
    ensures forall m :: m in r ==> m.key == "roleDescription"
  {
    if info.className.Some? then StrMember("roleDescription", info.roleDescription) else []
  }

  /** Hash code and role; the role names the node's simple class name. */
  function RoleMembers(info: NodeInfo): (r: seq<Member>)
    ensures NoKey(r, "checkable") && NoKey(r, "actions") && NoKey(r, "properties")
    ensures Lookup(r, "role") == Some(JStr(RecordName(info)))
  {
    var before := [Member("hashCode", JInt(info.hash))] + RoleDescriptionMember(info);
    var role := [Member("role", JStr(RecordName(info)))];
    assert Lookup(before + role, "role") == Some(JStr(RecordName(info))) by {
      LookupAbsent(before, "role");
      LookupConcat(before, role, "role");
    }
    before + role
  }

  /** Validity, error, tooltip, visibility, importance and bounds. */
  function StatusMembers(info: NodeInfo): (r: seq<Member>)
    ensures NoKey(r, "role") && NoKey(r, "checkable") && NoKey(r, "actions") && NoKey(r, "properties")
  {
    When(info.flags.contentInvalid, "contentInvalid", JBool(true))
    + StrMember("errorMessage", info.error)
    + StrMember("tooltip", info.tooltip)
    + When(!info.flags.visibleToUser, "visibility", JStr("invisible"))
    + [Member("importantForAccessibility", JBool(info.flags.importantForAccessibility))]
    + BoundsMembers(info.bounds)
  }

  /** Role, validity, visibility and bounds. */
  function IdentityMembers(info: NodeInfo): (r: seq<Member>)
    ensures NoKey(r, "checkable") && NoKey(r, "actions") && NoKey(r, "properties")
    ensures Lookup(r, "role") == Some(JStr(RecordName(info)))
  {
    var r := RoleMembers(info) + StatusMembers(info);
    assert Lookup(r, "role") == Some(JStr(RecordName(info))) by {
      LookupConcat(RoleMembers(info), StatusMembers(info), "role");
    }
    r
  }

  function LocaleTexts(ls: seq<LocaleString>): seq<string> {
    seq(|ls|, i requires 0 <= i < |ls| => ls[i].text + " - " + ls[i].languageTag)
  }

  function LabelMembers(l: Option<LabelInfo>): (r: seq<Member>)
    ensures forall m :: m in r ==> m.key in {"labeledBy", "labeledById"}
  {
    if l.None? then []
    else StrMember("labeledBy", LabeledByText(l.value)) + [Member("labeledById", JInt(l.value.hash))]
  }

  function StateMembers(info: NodeInfo): (r: seq<Member>)
    ensures forall m :: m in r ==> m.key in {"stateDescription", "state"}
  {
    if info.utils.state.None? then []
    else if info.stateDescription.Some? then [Member("stateDescription", JStr(Trim(info.stateDescription.value)))]
    else [Member("state", JStr(Trim(info.utils.state.value)))]
  }

  /** Pane title, link and locale spans, and text. */
  function SpanMembers(info: NodeInfo): (r: seq<Member>)
    ensures NoKey(r, "role") && NoKey(r, "checkable") && NoKey(r, "actions") && NoKey(r, "properties")
  {
    var utils := info.utils;
    When(info.paneTitle.Some? && info.paneTitle.value != "", "paneTitle", JStr(info.paneTitle.GetOr("")))
    + When(|utils.clickableStrings| > 0, "links", JArr(JStrings(utils.clickableStrings)))
    + When(|utils.localeStrings| > 0, "locales", JArr(JStrings(LocaleTexts(utils.localeStrings))))
    + StrMember("text", TrimOpt(utils.text))
  }

  /** Pane title, spans and text, then label, hint, description and state. */
  function TextMembers(info: NodeInfo): (r: seq<Member>)
    ensures NoKey(r, "role") && NoKey(r, "checkable") && NoKey(r, "actions") && NoKey(r, "properties")
  {
    SpanMembers(info)
    + LabelMembers(info.labeledBy)
    + StrMember("hint", TrimOpt(info.hint))
    + StrMember("content", TrimOpt(info.contentDescription))
    + StateMembers(info)
  }

  function CheckableMembers(f: Flags): (r: seq<Member>)
    ensures NoKey(r, "role") && NoKey(r, "actions") && NoKey(r, "properties")
  {
    if f.checkable then [Member("checkable", JStr(CheckableText(f.checked)))] else []
  }

  function ActionMembers(info: NodeInfo): (r: seq<Member>)
    ensures NoKey(r, "role") && NoKey(r, "checkable") && NoKey(r, "properties")
  {
    var tokens := ActionTokens(info.actions);
    if info.actionMask != 0 && tokens != [] then [Member("actions", JArr(JStrings(tokens)))] else []
  }

  function PropertyMembers(f: Flags): (r: seq<Member>)
    ensures NoKey(r, "role") && NoKey(r, "checkable") && NoKey(r, "actions")
  {
    var names := PropertyList(f);
    if names != [] then [Member("properties", JArr(JStrings(names)))] else []
  }

  function CollectionMembers(info: NodeInfo): (r: seq<Member>)
    ensures NoKey(r, "role") && NoKey(r, "checkable") && NoKey(r, "actions") && NoKey(r, "properties")
  {
    var c := info.collection.GetOr(CollectionInfo(0, 0));
    var item := info.collectionItem.GetOr(CollectionItemInfo(0, 0));
    When(info.collection.Some?, "collectionInfo",
      JStr("Rows: " + IntToString(c.rowCount) + ", Columns: " + IntToString(c.columnCount)))
    + When(info.utils.isHeading, "heading", JBool(true))
    + When(info.collectionItem.Some?, "collectionItemInfo",
      JStr("Row: " + IntToString(item.rowIndex) + ", Column: " + IntToString(item.columnIndex)))
  }

  /** The "metadata" object of a node's record, part after part. */
  function Metadata(info: NodeInfo): seq<Member> {
    Assemble(IdentityMembers(info), TextMembers(info), CheckableMembers(info.flags),
      ActionMembers(info), PropertyMembers(info.flags), CollectionMembers(info))
  }

  function Assemble(a: seq<Member>, b: seq<Member>, c: seq<Member>, d: seq<Member>, e: seq<Member>, g: seq<Member>)
    : seq<Member>
  {
    a + b + c + d + e + g
  }

  /** A node's record: "name", then "metadata". */
  function RecordMembers(info: NodeInfo): seq<Member> {
    [Member("name", JStr(RecordName(info))), Member("metadata", JObj(Metadata(info)))]
  }

  /** Looking up a key in assembled parts when only one of the parts can hold it. */
  lemma AssembleLookup(a: seq<Member>, b: seq<Member>, c: seq<Member>, d: seq<Member>, e: seq<Member>,
                       g: seq<Member>, key: string)
    ensures NoKey(b, key) && NoKey(c, key) && NoKey(d, key) && NoKey(e, key) && NoKey(g, key) ==>
      Lookup(Assemble(a, b, c, d, e, g), key) == Lookup(a, key)
    ensures NoKey(a, key) && NoKey(b, key) && NoKey(d, key) && NoKey(e, key) && NoKey(g, key) ==>
      Lookup(Assemble(a, b, c, d, e, g), key) == Lookup(c, key)
    ensures NoKey(a, key) && NoKey(b, key) && NoKey(c, key) && NoKey(e, key) && NoKey(g, key) ==>
      Lookup(Assemble(a, b, c, d, e, g), key) == Lookup(d, key)
    ensures NoKey(a, key) && NoKey(b, key) && NoKey(c, key) && NoKey(d, key) && NoKey(g, key) ==>
      Lookup(Assemble(a, b, c, d, e, g), key) == Lookup(e, key)
  {
    LookupConcat(a, b, key);
    LookupConcat(a + b, c, key);
    LookupConcat(a + b + c, d, key);
    LookupConcat(a + b + c + d, e, key);
    LookupConcat(a + b + c + d + e, g, key);
    if NoKey(a, key) { LookupAbsent(a, key); }
    if NoKey(b, key) { LookupAbsent(b, key); }
    if NoKey(c, key) { LookupAbsent(c, key); }
    if NoKey(d, key) { LookupAbsent(d, key); }
    if NoKey(e, key) { LookupAbsent(e, key); }
    if NoKey(g, key) { LookupAbsent(g, key); }
  }

  /** The role a record states is its name. */
  lemma MetadataRole(info: NodeInfo)
    ensures Lookup(Metadata(info), "role") == Some(JStr(RecordName(info)))
  {
    AssembleLookup(IdentityMembers(info), TextMembers(info), CheckableMembers(info.flags), ActionMembers(info),
      PropertyMembers(info.flags), CollectionMembers(info), "role");
  }

  /** "checkable" is present exactly for checkable nodes, with the checked state in words. */
  lemma MetadataCheckable(info: NodeInfo)
    ensures Lookup(Metadata(info), "checkable") ==
      if info.flags.checkable then Some(JStr(CheckableText(info.flags.checked))) else None
  {
    AssembleLookup(IdentityMembers(info), TextMembers(info), CheckableMembers(info.flags), ActionMembers(info),
      PropertyMembers(info.flags), CollectionMembers(info), "checkable");
  }

  /** "actions" is present exactly when the action mask is non-zero and some action has a token. */
  lemma MetadataActions(info: NodeInfo)
    ensures Lookup(Metadata(info), "actions") ==
      if info.actionMask != 0 && ActionTokens(info.actions) != [] then Some(JArr(JStrings(ActionTokens(info.actions))))
      else None
  {
    AssembleLookup(IdentityMembers(info), TextMembers(info), CheckableMembers(info.flags), ActionMembers(info),
      PropertyMembers(info.flags), CollectionMembers(info), "actions");
  }

  /** "properties" is present exactly when some property holds. */
  lemma MetadataProperties(info: NodeInfo)
    ensures Lookup(Metadata(info), "properties") ==
      if PropertyList(info.flags) != [] then Some(JArr(JStrings(PropertyList(info.flags)))) else None
  {
    AssembleLookup(IdentityMembers(info), TextMembers(info), CheckableMembers(info.flags), ActionMembers(info),
      PropertyMembers(info.flags), CollectionMembers(info), "properties");
  }
}
