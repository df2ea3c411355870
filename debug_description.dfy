/**
 * The one-line debug description of a node (nodeDebugDescription): window id,
 * simple class name, bounds, texts, checked state, a summary of the legacy
 * action mask, flags and collection facts, with line breaks removed.
 */
module DebugDescription {
  import opened Wrappers
  import opened JavaString
  import opened Nodes
  import opened NodeRecord

  /** The action bits the summary names, in the order it names them. */
  const FOCUS_BIT: bv32 := 0x1
  const A11Y_FOCUS_BIT: bv32 := 0x40
  const CLEAR_A11Y_FOCUS_BIT: bv32 := 0x80
  const SCROLL_BACKWARD_BIT: bv32 := 0x2000
  const SCROLL_FORWARD_BIT: bv32 := 0x1000
  const CLICK_BIT: bv32 := 0x10
  const LONG_CLICK_BIT: bv32 := 0x20
  const EXPAND_BIT: bv32 := 0x40000
  const COLLAPSE_BIT: bv32 := 0x80000

  function Named(mask: bv32, bit: bv32, name: string): seq<string> {
    if mask & bit != 0 then [name] else []
  }

  /** The names of the set action bits, in summary order. */
  function MaskTokens(mask: bv32): seq<string> {
    Named(mask, FOCUS_BIT, "FOCUS")
    + Named(mask, A11Y_FOCUS_BIT, "A11Y_FOCUS")
    + Named(mask, CLEAR_A11Y_FOCUS_BIT, "CLEAR_A11Y_FOCUS")
    + Named(mask, SCROLL_BACKWARD_BIT, "SCROLL_BACKWARD")
    + Named(mask, SCROLL_FORWARD_BIT, "SCROLL_FORWARD")
    + Named(mask, CLICK_BIT, "CLICK")
    + Named(mask, LONG_CLICK_BIT, "LONG_CLICK")
    + Named(mask, EXPAND_BIT, "EXPAND")
    + Named(mask, COLLAPSE_BIT, "COLLAPSE")
  }

  /** Each name followed by "/", as the summary appends them. */
  function SlashTerminated(names: seq<string>): (r: string)
    ensures names != [] ==> r != [] && r[|r| - 1] == '/'
  {
    if names == [] then ""
    else SlashTerminated(names[..|names| - 1]) + names[|names| - 1] + "/"
  }

  /**
   * The action summary as the StringBuilder produces it: "(action:", each
   * name with a trailing "/", then the last character dropped and ")" added.
   */
  function ActionSummary(mask: bv32): string {
    if mask == 0 then ""
    else
      var built := "(action:" + SlashTerminated(MaskTokens(mask));
      built[..|built| - 1] + ")"
  }

  /** The slash-terminated text is the "/"-join of the names plus one trailing "/". */
  lemma {:induction false} SlashTerminatedIsJoin(names: seq<string>)
    requires names != []
    ensures SlashTerminated(names) == Join(names, "/") + "/"
  {
    if |names| > 1 {
      var init := names[..|names| - 1];
      SlashTerminatedIsJoin(init);
      assert SlashTerminated(names) == (Join(init, "/") + "/") + names[|names| - 1] + "/";
    } else {
      assert names[..0] == [];
    }
  }

  /**
   * Dropping the last character removes the final "/", so the names come out
   * joined by "/"; with no named bit set, it removes the ':' instead.
   */
  lemma ActionSummaryJoinsNames(mask: bv32)
    requires mask != 0
    ensures MaskTokens(mask) == [] ==> ActionSummary(mask) == "(action)"
    ensures MaskTokens(mask) != [] ==> ActionSummary(mask) == "(action:" + Join(MaskTokens(mask), "/") + ")"
  {
    var names := MaskTokens(mask);
    var built := "(action:" + SlashTerminated(names);
    if names != [] {
      SlashTerminatedIsJoin(names);
      assert built == ("(action:" + Join(names, "/")) + "/";
    }
  }

  /** The simple class name, with the role description in parentheses when there is one. */
  function ClassText(info: NodeInfo): string {
    if info.className.None? then "??"
    else if info.roleDescription.Some? then
      SimpleNameWithDot(info.className.value + " (" + info.roleDescription.value + ")")
    else SimpleNameWithDot(info.className.value)
  }

  function IfText(b: bool, s: string): string {
    if b then s else ""
  }

  /** A braced section "tag{value}" for a present value. */
  function Braced(tag: string, v: Option<string>): string {
    if v.Some? then tag + "{" + v.value + "}" else ""
  }

  function BoundsText(b: Rect): string {
    ":(" + IntToString(b.left) + ", " + IntToString(b.top) + " - " + IntToString(b.right) + ", " + IntToString(b.bottom)
    + ")"
  }

  function TextsText(info: NodeInfo): string {
    (if info.paneTitle.Some? && info.paneTitle.value != "" then ":PANE{" + info.paneTitle.value + "}" else "")
    + Braced(":TEXT", TrimOpt(info.utils.text))
    + Braced(":CONTENT", TrimOpt(info.contentDescription))
    + Braced(":STATE", TrimOpt(info.utils.state))
    + IfText(info.flags.checkable, ":" + CheckableText(info.flags.checked))
  }

  function FlagsText(info: NodeInfo): string {
    var f := info.flags;
    IfText(f.focusable, ":focusable")
    + IfText(f.screenReaderFocusable, ":screenReaderfocusable")
    + IfText(f.focused, ":focused")
    + IfText(f.selected, ":selected")
    + IfText(f.scrollable, ":scrollable")
    + IfText(f.clickable, ":clickable")
    + IfText(f.longClickable, ":longClickable")
    + IfText(f.accessibilityFocused, ":accessibilityFocused")
    + IfText(info.utils.supportsTextLocation, ":supportsTextLocation")
    + IfText(!f.enabled, ":disabled")
  }

  function CollectionText(info: NodeInfo): string {
    (if info.collection.Some? then
      ":collection#R" + IntToString(info.collection.value.rowCount) + "C" + IntToString(info.collection.value.columnCount)
     else "")
    + (if info.utils.isHeading then ":heading" else if info.collectionItem.Some? then ":item" else "")
    + (if info.collectionItem.Some? then
      "#r" + IntToString(info.collectionItem.value.rowIndex) + "c" + IntToString(info.collectionItem.value.columnIndex)
     else "")
  }

  /** What follows the window id. */
  function DescriptionBody(info: NodeInfo): string {
    ClassText(info) + IfText(!info.flags.visibleToUser, ":invisible")
    + BoundsText(info.bounds) + TextsText(info) + ActionSummary(info.actionMask) + FlagsText(info)
    + CollectionText(info)
  }

  /** Everything the StringBuilder holds before line breaks are removed. */
  function RawDescription(info: NodeInfo): string {
    IntToString(info.windowId) + DescriptionBody(info)
  }

  function StripLineBreaks(s: string): (r: string)
    ensures '\n' !in r && '\r' !in r
  {
    RemoveCharKeepsAbsent(RemoveChar(s, '\n'), '\r', '\n');
    RemoveChar(RemoveChar(s, '\n'), '\r')
  }

  /** nodeDebugDescription: a single line describing the node. */
  function NodeDebugDescription(info: NodeInfo): (r: string)
    ensures '\n' !in r && '\r' !in r
  {
    StripLineBreaks(RawDescription(info))
  }

  lemma NumberHasNoLineBreaks(i: int)
    ensures '\n' !in IntToString(i) && '\r' !in IntToString(i)
  {
    var s := IntToString(i);
    var digits := if i < 0 then NatToString(-i) else NatToString(i);
    assert forall k :: 0 <= k < |digits| ==> IsDigit(digits[k]);
    assert s == if i < 0 then "-" + digits else digits;
  }

  /** Removing line breaks leaves a text without any unchanged. */
  lemma StripKeepsPlainText(s: string)
    requires '\n' !in s && '\r' !in s
    ensures StripLineBreaks(s) == s
  {
    RemoveCharAbsent(s, '\n');
    RemoveCharAbsent(s, '\r');
  }

  /** Stripping line breaks works piece by piece. */
  lemma StripConcat(a: string, b: string)
    ensures StripLineBreaks(a + b) == StripLineBreaks(a) + StripLineBreaks(b)
  {
    RemoveCharConcat(a, b, '\n');
    RemoveCharConcat(RemoveChar(a, '\n'), RemoveChar(b, '\n'), '\r');
  }

  /** The description starts with the node's window id. */
  lemma DescriptionStartsWithWindowId(info: NodeInfo)
    ensures |IntToString(info.windowId)| <= |NodeDebugDescription(info)|
    ensures NodeDebugDescription(info)[..|IntToString(info.windowId)|] == IntToString(info.windowId)
  {
    var id := IntToString(info.windowId);
    var rest := DescriptionBody(info);
    StripConcat(id, rest);
    NumberHasNoLineBreaks(info.windowId);
    StripKeepsPlainText(id);
    assert NodeDebugDescription(info) == id + StripLineBreaks(rest);
  }
}
