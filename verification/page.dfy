/**
 * The page root `Portfolio` (app/page.tsx): the one-shot loading flag, the
 * developer-view flag, the active-section field written by the viewport
 * observer, and the global keyboard shortcuts.
 */
module Page {
  import opened Common

  /** Section ids in digit-key order: key `k` goes to `SectionIds[k - 1]`. */
  const SectionIds: seq<string> := ["identity", "experience", "skills", "projects", "education", "contact"]

  lemma SectionIdsUnique()
    ensures |SectionIds| == 6 && Unique(SectionIds)
    ensures forall i :: 0 <= i < |SectionIds| ==> SectionIds[i] != ""
  {
  }

  // ---------------------------------------------------------------------
  // JavaScript `parseInt(s)` with no radix argument
  // ---------------------------------------------------------------------

  /** The characters `parseInt` skips at the start: white space and line terminators. */
  const JsWhiteSpace: set<char> := {
    '\t', '\U{B}', '\U{C}', ' ', '\U{A0}', '\U{FEFF}', '\n', '\r', '\U{2028}', '\U{2029}',
    '\U{1680}', '\U{2000}', '\U{2001}', '\U{2002}', '\U{2003}', '\U{2004}', '\U{2005}',
    '\U{2006}', '\U{2007}', '\U{2008}', '\U{2009}', '\U{200A}', '\U{202F}', '\U{205F}', '\U{3000}'
  }

  predicate IsJsWhiteSpace(c: char) {
    c in JsWhiteSpace
  }

  function TrimStart(s: string): (r: string)
    ensures r == [] || !IsJsWhiteSpace(r[0])
  {
    if s != [] && IsJsWhiteSpace(s[0]) then TrimStart(s[1..]) else s
  }

  /** What `TrimStart` keeps is a suffix of its input, and everything it drops is white space. */
  lemma {:induction false} TrimStartIsSuffix(s: string)
    ensures |TrimStart(s)| <= |s| && TrimStart(s) == s[|s| - |TrimStart(s)|..]
    ensures forall i :: 0 <= i < |s| - |TrimStart(s)| ==> IsJsWhiteSpace(s[i])
  {
    if s != [] && IsJsWhiteSpace(s[0]) {
      TrimStartIsSuffix(s[1..]);
    }
  }

  /** The value of `c` as a digit in base `radix` (10 or 16), if it is one. */
  function DigitValue(c: char, radix: nat): (d: Option<nat>)
    ensures d.Some? ==> d.value < radix
    ensures radix == 10 ==> (d.Some? <==> '0' <= c <= '9')
  {
    if '0' <= c <= '9' && (c as int - '0' as int) < radix then Some(c as int - '0' as int)
    else if 'a' <= c <= 'z' && c as int - 'a' as int + 10 < radix then Some(c as int - 'a' as int + 10)
    else if 'A' <= c <= 'Z' && c as int - 'A' as int + 10 < radix then Some(c as int - 'A' as int + 10)
    else None
  }

  /** Length of the longest prefix of `s` made of base-`radix` digits. */
  function DigitRun(s: string, radix: nat): (n: nat)
    ensures n <= |s|
    ensures forall i :: 0 <= i < n ==> DigitValue(s[i], radix).Some?
    ensures n < |s| ==> DigitValue(s[n], radix).None?
  {
    if s != [] && DigitValue(s[0], radix).Some? then 1 + DigitRun(s[1..], radix) else 0
  }

  /** The number written by a string of base-`radix` digits, most significant first. */
  function DigitsValue(digits: string, radix: nat): nat
    requires forall i :: 0 <= i < |digits| ==> DigitValue(digits[i], radix).Some?
  {
    if digits == [] then 0
    else DigitsValue(digits[..|digits| - 1], radix) * radix + DigitValue(digits[|digits| - 1], radix).value
  }

  /** `t` without its leading `+` or `-`, if any. */
  function StripSign(t: string): string {
    if t != [] && (t[0] == '-' || t[0] == '+') then t[1..] else t
  }

  /** `u` starts with the hexadecimal prefix `0x` or `0X`. */
  predicate HasHexPrefix(u: string) {
    |u| >= 2 && u[0] == '0' && (u[1] == 'x' || u[1] == 'X')
  }

  /** The number at the start of `v` in base `radix`, or `None` when `v` does not start with a digit. */
  function LeadingNumber(v: string, radix: nat): Option<nat> {
    var n := DigitRun(v, radix);
    if n == 0 then None else Some(DigitsValue(v[..n], radix))
  }

  /**
   * `parseInt(s)`: skip leading white space, read an optional sign, read a
   * `0x`/`0X` prefix as base 16, then the longest run of digits; no digits is
   * `NaN`, written `None`.
   */
  function ParseInt(s: string): Option<int> {
    var t := TrimStart(s);
    var negative := t != [] && t[0] == '-';
    var u := StripSign(t);
    var magnitude := if HasHexPrefix(u) then LeadingNumber(u[2..], 16) else LeadingNumber(u, 10);
    match magnitude
    case None => None
    case Some(m) => var k: int := m; Some(if negative then -k else k)
  }

  /** A key whose text holds no decimal digit is `NaN` to `parseInt`. */
  lemma NoDigitIsNaN(s: string)
    requires forall i :: 0 <= i < |s| ==> !('0' <= s[i] <= '9')
    ensures ParseInt(s).None?
  {
    var t := TrimStart(s);
    TrimStartIsSuffix(s);
    var u := StripSign(t);
    assert u == s[|s| - |u|..];
    if u != [] {
      assert u[0] == s[|s| - |u|];
      assert !HasHexPrefix(u);
      assert DigitRun(u, 10) == 0;
    }
  }

  /** `d` and `D` are `NaN` to `parseInt`. */
  lemma LetterDIsNaN(key: string)
    ensures IsLetterD(key) ==> ParseInt(key).None?
  {
    if IsLetterD(key) { NoDigitIsNaN(key); }
  }

  lemma TrimDigit(c: char)
    requires '0' <= c <= '9'
    ensures TrimStart([c]) == [c]
  {
    assert !IsJsWhiteSpace(c);
  }

  lemma LeadingDigit(c: char)
    requires '0' <= c <= '9'
    ensures LeadingNumber([c], 10) == Some(c as int - '0' as int)
  {
    assert DigitRun([c], 10) == 1 by {
      assert [c][1..] == [];
    }
    assert [c][..1] == [c];
    assert DigitsValue([c], 10) == c as int - '0' as int by {
      assert [c][..0] == [];
    }
  }

  /** A one-character key holding a decimal digit parses to that digit. */
  lemma ParseSingleDigit(c: char)
    requires '0' <= c <= '9'
    ensures ParseInt([c]) == Some(c as int - '0' as int)
  {
    TrimDigit(c);
    assert StripSign([c]) == [c];
    assert !HasHexPrefix([c]);
    LeadingDigit(c);
  }

  // ---------------------------------------------------------------------
  // Keyboard shortcuts (`handleKeyDown`)
  // ---------------------------------------------------------------------

  /** A `keydown` event: its `key` text and the Ctrl and Meta modifier flags. */
  datatype KeyEvent = KeyEvent(key: string, ctrlKey: bool, metaKey: bool)

  /**
   * What one key press asks for: a section to navigate to, whether the key's
   * default action is cancelled (`e.preventDefault()`), and whether to flip
   * developer view.
   */
  datatype KeyCommand = KeyCommand(navigateTo: Option<string>, preventDefault: bool, toggleDeveloperView: bool)

  /** `e.key.toLowerCase() === "d"`. */
  predicate IsLetterD(key: string) {
    key == "d" || key == "D"
  }

  /** The focused element is a text field, given its tag name (`None` when nothing has focus). */
  predicate IsTyping(focusTag: Option<string>) {
    focusTag == Some("INPUT") || focusTag == Some("TEXTAREA")
  }

  /**
   * The decision `handleKeyDown` takes for one key press: a key parsing to
   * 1..6 navigates to that section and cancels the key's default action;
   * `d`/`D` without Ctrl or Meta and outside a text field flips developer
   * view. No key does both.
   */
  function HandleKeyDown(e: KeyEvent, focusTag: Option<string>): (c: KeyCommand)
    ensures c.navigateTo.Some? ==> c.navigateTo.value in SectionIds
    ensures c.preventDefault <==> c.navigateTo.Some?
    ensures c.navigateTo.Some? ==> !c.toggleDeveloperView
    ensures c.toggleDeveloperView ==> IsLetterD(e.key) && !e.ctrlKey && !e.metaKey && !IsTyping(focusTag)
  {
    var keyNum := ParseInt(e.key);
    var navigate :=
      if keyNum.Some? && keyNum.value >= 1 && keyNum.value <= 6 && SectionIds[keyNum.value - 1] != ""
      then Some(SectionIds[keyNum.value - 1]) else None;
    var toggle := IsLetterD(e.key) && !e.ctrlKey && !e.metaKey && !IsTyping(focusTag);
    LetterDIsNaN(e.key);
    KeyCommand(navigate, navigate.Some?, toggle)
  }

  /** Digit keys 1..6 navigate to the sections in page order and never touch developer view. */
  lemma DigitKeyNavigates(c: char, ctrl: bool, meta: bool, focusTag: Option<string>)
    requires '1' <= c <= '6'
    ensures HandleKeyDown(KeyEvent([c], ctrl, meta), focusTag)
         == KeyCommand(Some(SectionIds[c as int - '1' as int]), true, false)
  {
    ParseSingleDigit(c);
  }

  /** Digit keys 0 and 7..9 do nothing. */
  lemma OtherDigitKeysIgnored(c: char, ctrl: bool, meta: bool, focusTag: Option<string>)
    requires c == '0' || '7' <= c <= '9'
    ensures HandleKeyDown(KeyEvent([c], ctrl, meta), focusTag) == KeyCommand(None, false, false)
  {
    ParseSingleDigit(c);
  }

  /** A key whose text has no decimal digit (NaN to `parseInt`) never navigates. */
  lemma NonNumericKeyNeverNavigates(e: KeyEvent, focusTag: Option<string>)
    requires forall i :: 0 <= i < |e.key| ==> !('0' <= e.key[i] <= '9')
    ensures HandleKeyDown(e, focusTag).navigateTo == None
  {
    NoDigitIsNaN(e.key);
  }

  /** `d` or `D` flips developer view exactly when no modifier is held and no text field has focus. */
  lemma LetterDToggles(e: KeyEvent, focusTag: Option<string>)
    requires IsLetterD(e.key)
    ensures HandleKeyDown(e, focusTag).navigateTo == None
    ensures HandleKeyDown(e, focusTag).toggleDeveloperView <==> !e.ctrlKey && !e.metaKey && !IsTyping(focusTag)
  {
  }

  /** Whether each press of `keys` (with the focus at that moment) flips developer view. */
  function TogglingPresses(keys: seq<(KeyEvent, Option<string>)>): (t: seq<bool>)
    ensures |t| == |keys|
  {
    if keys == [] then []
    else
      var last := keys[|keys| - 1];
      TogglingPresses(keys[..|keys| - 1]) + [HandleKeyDown(last.0, last.1).toggleDeveloperView]
  }

  /** Developer view after a run of key presses. */
  function DeveloperViewAfterKeys(view: bool, keys: seq<(KeyEvent, Option<string>)>): bool {
    FlipEach(view, TogglingPresses(keys))
  }

  /** Developer view ends flipped iff an odd number of the presses were toggling ones; two restore it. */
  lemma DeveloperViewParity(view: bool, keys: seq<(KeyEvent, Option<string>)>)
    ensures DeveloperViewAfterKeys(view, keys) == (if CountTrue(TogglingPresses(keys)) % 2 == 0 then view else !view)
  {
    FlipEachParity(view, TogglingPresses(keys));
  }

  // ---------------------------------------------------------------------
  // Navigation and the viewport observer
  // ---------------------------------------------------------------------

  /**
   * `handleNavigate`: the element to scroll into view, given the ids of the
   * elements present in the document; an id with no element is a no-op.
   */
  function HandleNavigate(sectionId: string, documentIds: set<string>): (scrollTo: Option<string>)
    ensures scrollTo.Some? <==> sectionId in documentIds
    ensures scrollTo.Some? ==> scrollTo.value == sectionId
  {
    if sectionId in documentIds then Some(sectionId) else None
  }

  /** One entry of an intersection-observer batch (threshold 0.3). */
  datatype ObserverEntry = ObserverEntry(targetId: string, isIntersecting: bool)

  /** The active section after `entries` are visited in order: each intersecting entry overwrites it. */
  function AfterBatch(entries: seq<ObserverEntry>, current: string): string {
    if entries == [] then current
    else if entries[|entries| - 1].isIntersecting then entries[|entries| - 1].targetId
    else AfterBatch(entries[..|entries| - 1], current)
  }

  /** The last intersecting entry wins; with no intersecting entry the active section stays. */
  lemma {:induction false} AfterBatchIsLastIntersecting(entries: seq<ObserverEntry>, current: string)
    ensures (forall j :: 0 <= j < |entries| ==> !entries[j].isIntersecting) ==> AfterBatch(entries, current) == current
    ensures (exists j :: 0 <= j < |entries| && entries[j].isIntersecting) ==>
      exists k :: 0 <= k < |entries| && entries[k].isIntersecting
        && AfterBatch(entries, current) == entries[k].targetId
        && forall j :: k < j < |entries| ==> !entries[j].isIntersecting
  {
    if entries != [] {
      var n := |entries|;
      var init := entries[..n - 1];
      AfterBatchIsLastIntersecting(init, current);
      if !entries[n - 1].isIntersecting {
        if exists j :: 0 <= j < n && entries[j].isIntersecting {
          var j :| 0 <= j < n && entries[j].isIntersecting;
          assert init[j].isIntersecting;
          var k :| 0 <= k < |init| && init[k].isIntersecting
            && AfterBatch(init, current) == init[k].targetId
            && forall j :: k < j < |init| ==> !init[j].isIntersecting;
          assert entries[k] == init[k];
        } else {
          forall j | 0 <= j < |init| ensures !init[j].isIntersecting {
            assert init[j] == entries[j];
          }
        }
      }
    }
  }

  // ---------------------------------------------------------------------
  // The page state
  // ---------------------------------------------------------------------

  /**
   * The `Portfolio` component while mounted: its three state fields, whether
   * the 2000 ms loading timer is still pending, and whether the component is
   * mounted (its timer, observer and key listener live only while it is).
   */
  class Portfolio {
    var activeSection: string
    var isLoading: bool
    var developerView: bool
    var loadingTimerPending: bool
    var mounted: bool

    /** The timer is pending only while mounted and still loading. */
    ghost predicate Valid()
      reads this
    {
      loadingTimerPending ==> mounted && isLoading
    }

    /** Mount: the initial state, with the loading timer started. */
    constructor ()
      ensures Valid()
      ensures activeSection == "identity" && isLoading && !developerView
      ensures loadingTimerPending && mounted
    {
      activeSection := "identity";
      isLoading := true;
      developerView := false;
      loadingTimerPending := true;
      mounted := true;
    }

    /** The 2000 ms loading timer fires: the page is revealed, once and for good. */
    method LoadingTimerFires()
      requires Valid()
      modifies this
      ensures Valid()
      ensures isLoading == (old(isLoading) && !old(loadingTimerPending))
      ensures !loadingTimerPending
      ensures !old(isLoading) ==> !isLoading
      ensures activeSection == old(activeSection) && developerView == old(developerView)
      ensures mounted == old(mounted)
    {
      if loadingTimerPending {
        isLoading := false;
        loadingTimerPending := false;
      }
    }

    /** Unmount: the loading timer is cleared, the observer and key listener are released. */
    method Unmount()
      requires Valid()
      modifies this
      ensures Valid() && !mounted && !loadingTimerPending
      ensures activeSection == old(activeSection) && isLoading == old(isLoading)
      ensures developerView == old(developerView)
    {
      loadingTimerPending := false;
      mounted := false;
    }

    /**
     * The observer callback on one batch: every intersecting entry, in batch
     * order, sets the active section. After unmount no batch is delivered.
     */
    method ObserverBatch(entries: seq<ObserverEntry>)
      requires Valid()
      modifies this`activeSection
      ensures Valid()
      ensures activeSection == (if mounted then AfterBatch(entries, old(activeSection)) else old(activeSection))
    {
      if !mounted { return; }
      var i := 0;
      while i < |entries|
        invariant 0 <= i <= |entries|
        invariant activeSection == AfterBatch(entries[..i], old(activeSection))
      {
        assert entries[..i + 1][..i] == entries[..i];
        if entries[i].isIntersecting {
          activeSection := entries[i].targetId;
        }
        i := i + 1;
      }
      assert entries[..i] == entries;
    }

    /**
     * The window `keydown` listener: navigates (cancelling the key's default
     * action and scrolling the matching element into view, returned as
     * `defaultPrevented` and `scrolledTo`) or flips developer view. It never
     * writes the active section or the loading flag.
     */
    method KeyDown(e: KeyEvent, focusTag: Option<string>, documentIds: set<string>)
      returns (defaultPrevented: bool, scrolledTo: Option<string>)
      requires Valid()
      modifies this`developerView
      ensures Valid()
      ensures var c := HandleKeyDown(e, focusTag);
        && defaultPrevented == (mounted && c.preventDefault)
        && scrolledTo == (if mounted && c.navigateTo.Some? then HandleNavigate(c.navigateTo.value, documentIds) else None)
        && developerView == (if mounted && c.toggleDeveloperView then !old(developerView) else old(developerView))
    {
      defaultPrevented := false;
      scrolledTo := None;
      if !mounted { return; }
      var c := HandleKeyDown(e, focusTag);
      if c.navigateTo.Some? {
        defaultPrevented := true;
        scrolledTo := HandleNavigate(c.navigateTo.value, documentIds);
      }
      if c.toggleDeveloperView {
        developerView := !developerView;
      }
    }

    /** The "Dev View" button: flips developer view (it stays clickable while loading). */
    method DeveloperViewButton()
      requires Valid()
      modifies this`developerView
      ensures Valid()
      ensures developerView == (if mounted then !old(developerView) else old(developerView))
    {
      if mounted {
        developerView := !developerView;
      }
    }
  }

  /** Two button clicks leave developer view as it was, and nothing else moves. */
  method TwoButtonClicksRestore(p: Portfolio)
    requires p.Valid() && p.mounted
    modifies p
    ensures p.developerView == old(p.developerView)
    ensures p.activeSection == old(p.activeSection) && p.isLoading == old(p.isLoading)
  {
    p.DeveloperViewButton();
    p.DeveloperViewButton();
  }
}
