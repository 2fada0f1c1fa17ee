/**
 * The browser-side state machines of theme/static/js/main.js with the DOM reduced to
 * the fields the handlers change: the theme toggle, the mobile menu, the header and
 * scroll-to-top thresholds, the scroll-depth tracker, and the form validation rules.
 * Events are method calls; what the browser measures (scroll offsets, window width,
 * the clicked element) is a parameter.
 */
module Client {
  import opened Wrappers
  import opened Text

  // ---- the class attribute of the root element ----

  /** The length of the class token at the start of `s`. */
  function TokenLength(s: string): (n: nat)
    decreases |s|
    ensures n <= |s|
    ensures forall i :: 0 <= i < n ==> !IsDomSpace(s[i])
    ensures n == |s| || IsDomSpace(s[n])
  {
    if s == [] || IsDomSpace(s[0]) then 0 else 1 + TokenLength(s[1..])
  }

  /** The class tokens of an attribute value: split on ASCII whitespace, empties dropped. */
  function Tokens(s: string): (ts: seq<string>)
    decreases |s|
  {
    if s == [] then []
    else if IsDomSpace(s[0]) then Tokens(s[1..])
    else
      var n := TokenLength(s);
      [s[..n]] + Tokens(s[n..])
  }

  /** The first occurrence of each token, in order (the DOM's ordered set parser). */
  function Dedup(ts: seq<string>): (r: seq<string>)
    decreases |ts|
    ensures forall i :: 0 <= i < |r| ==> r[i] in ts
    ensures forall i :: 0 <= i < |ts| ==> ts[i] in r
    ensures forall i, j :: 0 <= i < j < |r| ==> r[i] != r[j]
  {
    if ts == [] then []
    else
      var d := Dedup(ts[..|ts| - 1]);
      assert forall i :: 0 <= i < |ts| - 1 ==> ts[i] == ts[..|ts| - 1][i];
      if ts[|ts| - 1] in d then d else d + [ts[|ts| - 1]]
  }

  /** Tokens joined by single spaces (the DOM's ordered set serializer). */
  function Serialize(ts: seq<string>): string
    decreases |ts|
  {
    if ts == [] then "" else if |ts| == 1 then ts[0] else Serialize(ts[..|ts| - 1]) + " " + ts[|ts| - 1]
  }

  /** `classList.add(token)`: the attribute becomes the serialized token set with `token` in it. */
  function ClassListAdd(c: string, token: string): (r: string)
    ensures token !in Dedup(Tokens(c)) ==> Contains(r, token)
  {
    var set_ := Dedup(Tokens(c));
    if token in set_ then Serialize(set_)
    else
      var ts := set_ + [token];
      assert ts[..|ts| - 1] == set_;
      if |ts| == 1 then ContainsEnd("", token); assert "" + token == token; Serialize(ts)
      else ContainsEnd(Serialize(set_) + " ", token); Serialize(ts)
  }

  /** The regular expression /theme-\w+/ matches at `i`. */
  predicate ThemeMatchAt(c: string, i: nat) {
    OccursAt(c, "theme-", i) && i + 6 < |c| && IsWordChar(c[i + 6])
  }

  /** The leftmost match of /theme-\w+/ at or after `from`. */
  function FirstThemeMatch(c: string, from: nat): (r: Option<nat>)
    decreases |c| - from
    ensures r.Some? ==> from <= r.value && ThemeMatchAt(c, r.value)
    ensures r.Some? ==> forall i :: from <= i < r.value ==> !ThemeMatchAt(c, i)
    ensures r.None? ==> forall i :: from <= i ==> !ThemeMatchAt(c, i)
  {
    if from >= |c| then None
    else if ThemeMatchAt(c, from) then Some(from)
    else FirstThemeMatch(c, from + 1)
  }

  /** The end of the run of word characters starting at `k`: where the greedy `\w+` stops. */
  function WordEnd(c: string, k: nat): (e: nat)
    requires k <= |c|
    decreases |c| - k
    ensures k <= e <= |c|
    ensures forall i :: k <= i < e ==> IsWordChar(c[i])
    ensures e == |c| || !IsWordChar(c[e])
  {
    if k < |c| && IsWordChar(c[k]) then WordEnd(c, k + 1) else k
  }

  /** `className.replace(/theme-\w+/, 'theme-' + theme)`: the first match only. */
  function ReplaceTheme(c: string, theme: string): (r: string)
    ensures FirstThemeMatch(c, 0).None? ==> r == c
    ensures FirstThemeMatch(c, 0).Some? ==> Contains(r, "theme-" + theme)
    ensures FirstThemeMatch(c, 0).Some? ==>
              var i, e := FirstThemeMatch(c, 0).value, WordEnd(c, FirstThemeMatch(c, 0).value + 6);
              var n := i + 6 + |theme|;
              |r| == n + (|c| - e) && r[..i] == c[..i] && r[i..n] == "theme-" + theme && r[n..] == c[e..]
  {
    match FirstThemeMatch(c, 0)
    case None => c
    case Some(i) =>
      var rest := c[WordEnd(c, i + 6)..];
      ContainsMiddle(c[..i], "theme-" + theme, rest);
      assert c[..i] + ("theme-" + theme) + rest == c[..i] + "theme-" + theme + rest;
      c[..i] + "theme-" + theme + rest
  }

  /**
   * `setTheme`: replace the first theme-word class with `theme-<theme>`; only when no
   * "theme-" text is left anywhere in the attribute, add that class.
   */
  function SetThemeClass(c: string, theme: string): string {
    var replaced := ReplaceTheme(c, theme);
    if Contains(replaced, "theme-") then replaced else ClassListAdd(replaced, "theme-" + theme)
  }

  /** A string that contains `t + u` contains `t`. */
  lemma ContainsPrefixOf(s: string, t: string, u: string)
    requires Contains(s, t + u)
    ensures Contains(s, t)
  {
    var i: nat :| i <= |s| && OccursAt(s, t + u, i);
    assert s[i..i + |t|] == (t + u)[..|t|];
    assert OccursAt(s, t, i);
  }

  /**
   * After `setTheme`, the class attribute names the theme, provided it held a
   * theme-word class or no "theme-" text at all (an attribute with a bare "theme-" not
   * followed by a word character is left as it is).
   */
  lemma SetThemeApplies(c: string, theme: string)
    requires FirstThemeMatch(c, 0).Some? || !Contains(c, "theme-")
    ensures Contains(SetThemeClass(c, theme), "theme-" + theme)
  {
    var replaced := ReplaceTheme(c, theme);
    if FirstThemeMatch(c, 0).Some? {
      ContainsPrefixOf(replaced, "theme-", theme);
    } else {
      assert replaced == c;
      NoThemeToken(c, "theme-" + theme);
    }
  }

  /** Every token is a piece of the attribute text. */
  lemma {:induction false} TokensOccur(s: string, tok: string)
    requires tok in Tokens(s)
    ensures Contains(s, tok)
    decreases |s|
  {
    if s != [] {
      if IsDomSpace(s[0]) {
        TokensOccur(s[1..], tok);
        ContainsEndShift(s, 1, tok);
      } else {
        var n := TokenLength(s);
        if tok == s[..n] {
          assert OccursAt(s, tok, 0);
        } else {
          TokensOccur(s[n..], tok);
          ContainsEndShift(s, n, tok);
        }
      }
    }
  }

  /** A substring of a suffix is a substring of the whole. */
  lemma ContainsEndShift(s: string, k: nat, tok: string)
    requires k <= |s| && Contains(s[k..], tok)
    ensures Contains(s, tok)
  {
    var i: nat :| i <= |s[k..]| && OccursAt(s[k..], tok, i);
    assert s[k + i..k + i + |tok|] == s[k..][i..i + |tok|];
    assert OccursAt(s, tok, k + i);
  }

  /** An attribute without "theme-" text has no token starting with it. */
  lemma NoThemeToken(c: string, tok: string)
    requires !Contains(c, "theme-")
    requires |tok| >= 6 && tok[..6] == "theme-"
    ensures tok !in Dedup(Tokens(c))
  {
    if tok in Dedup(Tokens(c)) {
      TokensOccur(c, tok);
      assert tok == "theme-" + tok[6..];
      ContainsPrefixOf(c, "theme-", tok[6..]);
      assert false;
    }
  }

  // ---- theme toggle ----

  /** `getStoredTheme() || 'dark'`: a missing or empty stored value means dark. */
  function InitialTheme(stored: Option<string>): (t: string)
    ensures stored.Some? && stored.value != "" ==> t == stored.value
    ensures stored.None? || stored.value == "" ==> t == "dark"
  {
    if stored.Some? && stored.value != "" then stored.value else "dark"
  }

  /** The theme a click switches to: light from dark, dark from anything else. */
  function NextTheme(t: string): string {
    if t == "dark" then "light" else "dark"
  }

  /** Two clicks come back to dark or light. */
  lemma NextThemeFlips(t: string)
    requires t == "dark" || t == "light"
    ensures NextTheme(t) != t && NextTheme(NextTheme(t)) == t
  {
  }

  /** The icon for a theme: a sun while dark, a moon otherwise. */
  function IconFor(t: string): string {
    if t == "dark" then "fas fa-sun" else "fas fa-moon"
  }

  /** The toggle's label names the theme the next click switches to. */
  function LabelFor(t: string): string {
    "Switch to " + NextTheme(t) + " theme"
  }

  /**
   * `ThemeToggle`: the current theme, the root element's class attribute, the
   * toggle's icon class (when it has an icon) and aria-label, and the stored theme.
   */
  class ThemeToggle {
    const hasToggle: bool
    const hasIcon: bool
    var currentTheme: string
    var htmlClass: string
    var iconClass: string
    var ariaLabel: string
    var stored: Option<string>

    /** The label (and the icon, when there is one) show the current theme. */
    predicate Shown()
      reads this
    {
      ariaLabel == LabelFor(currentTheme) && (hasIcon ==> iconClass == IconFor(currentTheme))
    }

    /** The constructor: read the stored theme; with a toggle present, apply it. */
    constructor (stored: Option<string>, htmlClass: string, hasToggle: bool, hasIcon: bool, iconClass: string, ariaLabel: string)
      ensures this.hasToggle == hasToggle && this.hasIcon == hasIcon && this.stored == stored
      ensures currentTheme == InitialTheme(stored)
      ensures hasToggle ==> this.htmlClass == SetThemeClass(htmlClass, currentTheme) && this.ariaLabel == LabelFor(currentTheme)
      ensures hasToggle && hasIcon ==> this.iconClass == IconFor(currentTheme)
      ensures !hasToggle ==> this.htmlClass == htmlClass && this.ariaLabel == ariaLabel
      ensures !(hasToggle && hasIcon) ==> this.iconClass == iconClass
      ensures hasToggle ==> Shown()
    {
      this.hasToggle := hasToggle;
      this.hasIcon := hasIcon;
      this.stored := stored;
      this.currentTheme := InitialTheme(stored);
      this.iconClass := iconClass;
      this.ariaLabel := ariaLabel;
      this.htmlClass := htmlClass;
      new;
      if hasToggle {
        SetTheme(currentTheme);
        UpdateToggleIcon();
      }
    }

    /** `setTheme`. */
    method SetTheme(theme: string)
      modifies this
      ensures htmlClass == SetThemeClass(old(htmlClass), theme)
      ensures currentTheme == old(currentTheme) && iconClass == old(iconClass)
      ensures ariaLabel == old(ariaLabel) && stored == old(stored)
    {
      htmlClass := ReplaceTheme(htmlClass, theme);
      if !Contains(htmlClass, "theme-") {
        htmlClass := ClassListAdd(htmlClass, "theme-" + theme);
      }
    }

    /** `updateToggleIcon`. */
    method UpdateToggleIcon()
      modifies this
      ensures iconClass == (if hasIcon then IconFor(currentTheme) else old(iconClass))
      ensures ariaLabel == LabelFor(currentTheme)
      ensures currentTheme == old(currentTheme) && htmlClass == old(htmlClass) && stored == old(stored)
    {
      if hasIcon {
        iconClass := if currentTheme == "dark" then "fas fa-sun" else "fas fa-moon";
      }
      ariaLabel := "Switch to " + (if currentTheme == "dark" then "light" else "dark") + " theme";
    }

    /** The click handler (registered only when the toggle exists): flip, apply, show and store. */
    method Click()
      requires hasToggle
      modifies this
      ensures currentTheme == NextTheme(old(currentTheme))
      ensures htmlClass == SetThemeClass(old(htmlClass), currentTheme)
      ensures iconClass == (if hasIcon then IconFor(currentTheme) else old(iconClass))
      ensures ariaLabel == LabelFor(currentTheme)
      ensures stored == Some(currentTheme)
      ensures Shown() && currentTheme in {"dark", "light"}
      ensures old(Shown()) ==> old(ariaLabel) == "Switch to " + currentTheme + " theme"
      ensures old(currentTheme) in {"dark", "light"} ==>
                currentTheme != old(currentTheme) && ariaLabel == "Switch to " + old(currentTheme) + " theme"
    {
      currentTheme := if currentTheme == "dark" then "light" else "dark";
      SetTheme(currentTheme);
      UpdateToggleIcon();
      stored := Some(currentTheme);
    }
  }

  // ---- mobile navigation ----

  /** Where a click lands. */
  datatype ClickTarget =
    | ToggleButton   // the menu toggle or inside it
    | NavLink        // an element carrying the nav-link class
    | InsideNav      // anything else inside the navigation
    | Outside        // anywhere else on the page

  /** The menu is above this width on a desktop layout. */
  const DesktopWidth := 768

  /**
   * `MobileNavigation`: whether the menu is open, the navigation's `active` class,
   * the toggle's aria-expanded attribute and the body's overflow style.
   */
  class MobileNavigation {
    var isOpen: bool
    var navActive: bool
    var ariaExpanded: string
    var bodyOverflow: string

    /** The attributes follow the open state (true after any open or close). */
    predicate Shows(open: bool)
      reads this
    {
      isOpen == open && navActive == open
      && ariaExpanded == (if open then "true" else "false")
      && bodyOverflow == (if open then "hidden" else "")
    }

    constructor (navActive: bool, ariaExpanded: string, bodyOverflow: string)
      ensures !isOpen && this.navActive == navActive
      ensures this.ariaExpanded == ariaExpanded && this.bodyOverflow == bodyOverflow
    {
      isOpen := false;
      this.navActive := navActive;
      this.ariaExpanded := ariaExpanded;
      this.bodyOverflow := bodyOverflow;
    }

    /** `openMenu`. */
    method OpenMenu()
      modifies this
      ensures Shows(true)
    {
      isOpen := true;
      navActive := true;
      ariaExpanded := "true";
      bodyOverflow := "hidden";
    }

    /** `closeMenu`. */
    method CloseMenu()
      modifies this
      ensures Shows(false)
    {
      isOpen := false;
      navActive := false;
      ariaExpanded := "false";
      bodyOverflow := "";
    }

    /** `toggleMenu`: flips the open state. */
    method ToggleMenu()
      modifies this
      ensures Shows(!old(isOpen))
    {
      if isOpen {
        CloseMenu();
      } else {
        OpenMenu();
      }
    }

    /**
     * A click, run through the listeners it reaches: the toggle's, the navigation's,
     * then the document's, which closes an open menu on a click outside both.
     */
    method Click(target: ClickTarget)
      modifies this
      ensures target == ToggleButton ==> Shows(!old(isOpen))
      ensures target == NavLink || (target == Outside && old(isOpen)) ==> Shows(false)
      ensures target == InsideNav || (target == Outside && !old(isOpen)) ==> unchanged(this)
    {
      if target == ToggleButton {
        ToggleMenu();
      }
      if target == NavLink {
        CloseMenu();
      }
      if isOpen && target == Outside {
        CloseMenu();
      }
    }

    /** The keydown listener: Escape closes an open menu and does nothing otherwise. */
    method KeyDown(key: string)
      modifies this
      ensures key == "Escape" && old(isOpen) ==> Shows(false)
      ensures !(key == "Escape" && old(isOpen)) ==> unchanged(this)
    {
      if key == "Escape" && isOpen {
        CloseMenu();
      }
    }

    /** The resize listener: wider than 768 pixels closes an open menu. */
    method Resize(innerWidth: int)
      modifies this
      ensures innerWidth > DesktopWidth && old(isOpen) ==> Shows(false)
      ensures !(innerWidth > DesktopWidth && old(isOpen)) ==> unchanged(this)
    {
      if innerWidth > DesktopWidth && isOpen {
        CloseMenu();
      }
    }
  }

  // ---- header and scroll-to-top thresholds ----

  /** The header is marked scrolled past this many pixels. */
  const HeaderThreshold := 50

  /** The scroll-to-top button shows past this many pixels. */
  const ButtonThreshold := 500

  /** `HeaderEffects`: the header's `scrolled` class and the last scroll offset. */
  class HeaderEffects {
    var scrolled: bool
    var lastScrollY: int

    constructor (scrollY: int)
      ensures !scrolled && lastScrollY == scrollY
    {
      scrolled := false;
      lastScrollY := scrollY;
    }

    /** The scroll listener. */
    method OnScroll(scrollY: int)
      modifies this
      ensures scrolled <==> scrollY > HeaderThreshold
      ensures lastScrollY == scrollY
    {
      if scrollY > HeaderThreshold {
        scrolled := true;
      } else {
        scrolled := false;
      }
      lastScrollY := scrollY;
    }
  }

  /** `ScrollToTop`: the button's opacity and transform styles. */
  class ScrollToTop {
    var opacity: string
    var transform: string

    /** Visible exactly when fully opaque and in place. */
    predicate Visible()
      reads this
    {
      opacity == "1" && transform == "translateY(0)"
    }

    /** `createButton`: the button starts hidden below the fold. */
    constructor ()
      ensures opacity == "0" && transform == "translateY(100px)"
    {
      opacity := "0";
      transform := "translateY(100px)";
    }

    /** `updateButton`. */
    method UpdateButton(scrollTop: int)
      modifies this
      ensures Visible() <==> scrollTop > ButtonThreshold
      ensures scrollTop <= ButtonThreshold ==> opacity == "0" && transform == "translateY(100px)"
    {
      if scrollTop > ButtonThreshold {
        opacity := "1";
        transform := "translateY(0)";
      } else {
        opacity := "0";
        transform := "translateY(100px)";
      }
    }
  }

  // ---- scroll depth ----

  /** The scroll-depth milestones, in percent, in the order they are checked. */
  const Milestones: seq<int> := [25, 50, 75, 90, 100]

  /** The entries of `ms` that are at most `x`. */
  function Upto(ms: seq<int>, x: int): (r: set<int>)
    ensures forall m :: m in r <==> m in ms && m <= x
  {
    if ms == [] then {}
    else
      var last := ms[|ms| - 1];
      assert forall m :: m in ms <==> m in ms[..|ms| - 1] || m == last;
      Upto(ms[..|ms| - 1], x) + (if last <= x then {last} else {})
  }

  /** The milestones reached by a maximum scroll of `x` percent. */
  function Reached(x: int): set<int> {
    Upto(Milestones, x)
  }

  /** One milestone of the listener's loop: it is new exactly when above the old maximum. */
  lemma ScrollStep(j: nat, lo: int, hi: int, tracked: set<int>)
    requires j < |Milestones| && lo < hi
    requires tracked == Reached(lo) + Upto(Milestones[..j], hi)
    ensures (hi >= Milestones[j] && Milestones[j] !in tracked) <==> lo < Milestones[j] <= hi
    ensures (if hi >= Milestones[j] && Milestones[j] !in tracked then tracked + {Milestones[j]} else tracked)
      == Reached(lo) + Upto(Milestones[..j + 1], hi)
  {
    assert Milestones[..j + 1] == Milestones[..j] + [Milestones[j]];
    assert Milestones[j] !in Milestones[..j];
  }

  /** The entries of `ms`, in order, that lie above `lo` and at most `hi`. */
  function Crossed(ms: seq<int>, lo: int, hi: int): (r: seq<int>)
    ensures |r| <= |ms|
    ensures forall i :: 0 <= i < |r| ==> r[i] in ms && lo < r[i] <= hi
  {
    if ms == [] then []
    else
      var init := Crossed(ms[..|ms| - 1], lo, hi);
      assert forall i :: 0 <= i < |init| ==> init[i] in ms[..|ms| - 1];
      var m := ms[|ms| - 1];
      if lo < m <= hi then init + [m] else init
  }

  lemma AppendAssoc(a: seq<int>, b: seq<int>, c: seq<int>)
    ensures (a + b) + c == a + (b + c)
  {
  }

  /** Crossing one more entry appends it when it lies in the range. */
  lemma CrossedStep(ms: seq<int>, j: nat, lo: int, hi: int)
    requires j < |ms|
    ensures Crossed(ms[..j + 1], lo, hi) == Crossed(ms[..j], lo, hi) + (if lo < ms[j] <= hi then [ms[j]] else [])
  {
    assert ms[..j + 1][..j] == ms[..j];
  }

  /** Every entry of `ms` in the range is crossed. */
  lemma {:induction false} CrossedComplete(ms: seq<int>, lo: int, hi: int, m: int)
    requires m in ms && lo < m <= hi
    ensures m in Crossed(ms, lo, hi)
  {
    var init := ms[..|ms| - 1];
    if m != ms[|ms| - 1] {
      assert m in init;
      CrossedComplete(init, lo, hi, m);
    }
  }

  predicate Increasing(s: seq<int>) {
    forall i, j :: 0 <= i < j < |s| ==> s[i] < s[j]
  }

  /** Crossing an increasing list of milestones reports them in increasing order. */
  lemma {:induction false} CrossedIncreasing(ms: seq<int>, lo: int, hi: int)
    requires Increasing(ms)
    ensures Increasing(Crossed(ms, lo, hi))
  {
    if ms != [] {
      var init := ms[..|ms| - 1];
      CrossedIncreasing(init, lo, hi);
      var c := Crossed(init, lo, hi);
      assert forall i :: 0 <= i < |c| ==> c[i] < ms[|ms| - 1] by {
        forall i | 0 <= i < |c|
          ensures c[i] < ms[|ms| - 1]
        {
          var k :| 0 <= k < |init| && init[k] == c[i];
        }
      }
    }
  }

  /**
   * `trackScrollDepth`: the maximum scroll percentage, the milestones recorded as
   * tracked, and the milestones sent to the analytics tag, in the order sent.
   */
  class ScrollDepth {
    var maxScroll: int
    var tracked: set<int>
    var reported: seq<int>

    /** Each milestone is tracked once reached, and reported at most once, in order. */
    ghost predicate Valid()
      reads this
    {
      maxScroll >= 0 && tracked == Reached(maxScroll)
      && Increasing(reported)
      && forall i :: 0 <= i < |reported| ==> reported[i] in tracked
    }

    constructor ()
      ensures Valid() && maxScroll == 0 && reported == []
    {
      maxScroll := 0;
      tracked := {};
      reported := [];
    }

    /**
     * The throttled scroll listener, given the rounded scroll percentage and whether
     * the analytics tag is defined.
     */
    method OnScroll(percent: int, tagDefined: bool)
      requires Valid()
      modifies this
      ensures Valid()
      ensures maxScroll == if percent > old(maxScroll) then percent else old(maxScroll)
      ensures reported == old(reported)
        + (if percent > old(maxScroll) && tagDefined then Crossed(Milestones, old(maxScroll), percent) else [])
    {
      if percent > maxScroll {
        ghost var lo := maxScroll;
        ghost var before := reported;
        ghost var sent: seq<int> := [];
        maxScroll := percent;
        for j := 0 to |Milestones|
          invariant maxScroll == percent
          invariant tracked == Reached(lo) + Upto(Milestones[..j], percent)
          invariant sent == (if tagDefined then Crossed(Milestones[..j], lo, percent) else [])
          invariant reported == before + sent
        {
          var milestone := Milestones[j];
          ScrollStep(j, lo, percent, tracked);
          CrossedStep(Milestones, j, lo, percent);
          if percent >= milestone && milestone !in tracked {
            tracked := tracked + {milestone};
            if tagDefined {
              AppendAssoc(before, sent, [milestone]);
              sent := sent + [milestone];
              reported := reported + [milestone];
            }
          }
        }
        assert Milestones[..|Milestones|] == Milestones;
        assert tracked == Reached(percent);
        NewMilestonesAbove(before, lo, percent, tagDefined);
      }
    }

    /** The milestones sent on one scroll come after every one sent before. */
    lemma NewMilestonesAbove(before: seq<int>, lo: int, hi: int, tagDefined: bool)
      requires Increasing(before) && forall i :: 0 <= i < |before| ==> before[i] in Reached(lo)
      requires lo < hi
      ensures var s := before + (if tagDefined then Crossed(Milestones, lo, hi) else []);
        Increasing(s) && forall i :: 0 <= i < |s| ==> s[i] in Reached(hi)
    {
      var c := Crossed(Milestones, lo, hi);
      CrossedIncreasing(Milestones, lo, hi);
      var s := before + (if tagDefined then c else []);
      assert forall i :: 0 <= i < |s| ==> s[i] in Reached(hi) by {
        forall i | 0 <= i < |s|
          ensures s[i] in Reached(hi)
        {
          if i >= |before| {
            assert s[i] == c[i - |before|];
          }
        }
      }
    }
  }

  /** Each milestone is sent at most once: the reported list stays strictly increasing. */
  lemma ReportedOnce(d: ScrollDepth, i: int, j: int)
    requires d.Valid() && 0 <= i < j < |d.reported|
    ensures d.reported[i] != d.reported[j]
  {
  }

  // ---- form validation ----

  /** A character of the bracket class `[^\s@]` of the email pattern. */
  predicate EmailChar(c: char) {
    !IsJsSpace(c) && c != '@'
  }

  predicate AllEmailChars(s: string) {
    forall i :: 0 <= i < |s| ==> EmailChar(s[i])
  }

  /**
   * The language of the pattern `^[^\s@]+@[^\s@]+\.[^\s@]+$`: a non-empty local
   * part, '@', and a domain whose chosen dot has characters on both sides.
   */
  ghost predicate MatchesEmailPattern(s: string) {
    exists a: nat, d: nat :: EmailSplit(s, a, d)
  }

  /** `s` matches the pattern with its '@' at `a` and its chosen dot at `d`. */
  predicate EmailSplit(s: string, a: nat, d: nat) {
    0 < a && a + 1 < d < |s| - 1 && s[a] == '@' && s[d] == '.'
    && AllEmailChars(s[..a]) && AllEmailChars(s[a + 1..d]) && AllEmailChars(s[d + 1..])
  }

  /** The first index of `c` in `s`, if any. */
  function IndexOf(s: string, c: char): (r: Option<nat>)
    ensures r.Some? ==> r.value < |s|
  {
    if s == [] then None
    else if s[0] == c then Some(0)
    else match IndexOf(s[1..], c)
      case None => None
      case Some(k) => Some(k + 1)
  }

  /** IndexOf finds the first occurrence, and finds nothing only when there is none. */
  lemma {:induction false} IndexOfFirst(s: string, c: char)
    ensures IndexOf(s, c).Some? ==> s[IndexOf(s, c).value] == c && c !in s[..IndexOf(s, c).value]
    ensures IndexOf(s, c).None? ==> c !in s
  {
    if s != [] && s[0] != c {
      IndexOfFirst(s[1..], c);
      if IndexOf(s[1..], c).Some? {
        var k := IndexOf(s[1..], c).value;
        assert s[..k + 1] == [s[0]] + s[1..][..k];
      }
    }
  }

  /** Scans a run of email characters one character at a time. */
  predicate ScanEmailChars(s: string) {
    s == [] || (EmailChar(s[0]) && ScanEmailChars(s[1..]))
  }

  /** The scan accepts exactly the runs of email characters. */
  lemma {:induction false} ScanEmailCharsIff(s: string)
    ensures ScanEmailChars(s) <==> AllEmailChars(s)
  {
    if s != [] {
      ScanEmailCharsIff(s[1..]);
      assert forall i :: 1 <= i < |s| ==> s[i] == s[1..][i - 1];
    }
  }

  /** A domain with a dot that is neither its first nor its last character. */
  predicate HasInnerDot(d: string) {
    |d| >= 3 && '.' in d[1..|d| - 1]
  }

  /** The email test, by splitting at the first '@'. */
  predicate IsEmail(s: string) {
    match IndexOf(s, '@')
    case None => false
    case Some(a) =>
      a > 0 && ScanEmailChars(s[..a]) && ScanEmailChars(s[a + 1..]) && HasInnerDot(s[a + 1..])
  }

  /** The email test accepts exactly the strings the pattern matches. */
  lemma EmailTestMatchesPattern(s: string)
    ensures IsEmail(s) <==> MatchesEmailPattern(s)
  {
    if IsEmail(s) {
      EmailTestSound(s);
    }
    if MatchesEmailPattern(s) {
      EmailTestComplete(s);
    }
  }

  /** What the email test accepts, the pattern matches. */
  lemma EmailTestSound(s: string)
    requires IsEmail(s)
    ensures MatchesEmailPattern(s)
  {
    var a := IndexOf(s, '@').value;
    IndexOfFirst(s, '@');
    var dom := s[a + 1..];
    ScanEmailCharsIff(s[..a]);
    ScanEmailCharsIff(dom);
    var j :| 0 <= j < |dom| - 2 && dom[1..|dom| - 1][j] == '.';
    var k := j + 1;
    assert dom[k] == '.';
    var d := a + 1 + k;
    assert s[a + 1..d] == dom[..k];
    assert s[d + 1..] == dom[k + 1..];
    assert EmailSplit(s, a, d);
  }

  /** What the pattern matches, the email test accepts. */
  lemma EmailTestComplete(s: string)
    requires MatchesEmailPattern(s)
    ensures IsEmail(s)
  {
    var a: nat, d: nat :| EmailSplit(s, a, d);
    NoAt(s[..a]);
    FirstIndexIs(s, '@', a);
    EmailCharsJoin(s, a + 1, d);
    var dom := s[a + 1..];
    ScanEmailCharsIff(s[..a]);
    ScanEmailCharsIff(dom);
    assert dom[1..|dom| - 1][d - a - 2] == '.';
  }

  /** A run of email characters holds no '@'. */
  lemma NoAt(x: string)
    requires AllEmailChars(x)
    ensures '@' !in x
  {
    assert forall i :: 0 <= i < |x| ==> x[i] != '@';
  }

  /** Two runs of email characters joined by one more at `d` are one run. */
  lemma EmailCharsJoin(s: string, lo: nat, d: nat)
    requires lo <= d < |s|
    requires AllEmailChars(s[lo..d]) && EmailChar(s[d]) && AllEmailChars(s[d + 1..])
    ensures AllEmailChars(s[lo..])
  {
    forall i | 0 <= i < |s| - lo
      ensures EmailChar(s[lo..][i])
    {
      var k := lo + i;
      assert s[lo..][i] == s[k];
      if k < d {
        assert s[lo..d][i] == s[k];
      } else if k > d {
        assert s[d + 1..][k - d - 1] == s[k];
      }
    }
  }

  /** An index whose character does not occur before it is the first index. */
  lemma {:induction false} FirstIndexIs(s: string, c: char, a: nat)
    requires a < |s| && s[a] == c && c !in s[..a]
    ensures IndexOf(s, c) == Some(a)
  {
    if a > 0 {
      assert s[0] in s[..a];
      assert s[1..][a - 1] == c;
      assert s[1..][..a - 1] == s[..a][1..];
      FirstIndexIs(s[1..], c, a - 1);
    }
  }

  const RequiredMessage := "This field is required"
  const EmailMessage := "Please enter a valid email address"

  /** The message a field fails with, or None when it is valid (`validateField`). */
  function FieldError(raw: string, required: bool, kind: string): (r: Option<string>)
    ensures r.Some? ==> r.value == RequiredMessage || r.value == EmailMessage
  {
    var value := Trim(raw, JavaScript);
    if kind == "email" && value != "" && !IsEmail(value) then Some(EmailMessage)
    else if required && value == "" then Some(RequiredMessage)
    else None
  }

  /** A field fails exactly when required and blank, or an email field the pattern rejects. */
  lemma FieldErrorMeaning(raw: string, required: bool, kind: string)
    ensures var value := Trim(raw, JavaScript);
      (FieldError(raw, required, kind) == Some(RequiredMessage) <==> required && value == "")
      && (FieldError(raw, required, kind) == Some(EmailMessage)
          <==> kind == "email" && value != "" && !MatchesEmailPattern(value))
      && (FieldError(raw, required, kind).None?
          <==> !(required && value == "") && (kind == "email" && value != "" ==> MatchesEmailPattern(value)))
  {
    EmailTestMatchesPattern(Trim(raw, JavaScript));
  }

  /** A blank optional field is never in error, whatever its type. */
  lemma BlankOptionalFieldValid(raw: string, kind: string)
    requires forall i :: 0 <= i < |raw| ==> IsJsSpace(raw[i])
    ensures FieldError(raw, false, kind).None?
  {
    TrimAllSpace(raw, JavaScript);
  }

  /**
   * An input or textarea: its value, `required` and `type` attributes, its `error`
   * class, and the error-message element of its form group (created when missing).
   */
  class FieldView {
    var value: string
    const required: bool
    const kind: string
    var hasErrorClass: bool
    var hasErrorElement: bool
    var errorText: string
    var errorDisplay: string

    /** The view shows `err`: the class, the message text and the display style. */
    predicate Shows(err: Option<string>)
      reads this
    {
      hasErrorElement && hasErrorClass == err.Some?
      && errorText == (if err.Some? then err.value else "")
      && errorDisplay == (if err.Some? then "block" else "none")
    }

    constructor (value: string, required: bool, kind: string)
      ensures this.value == value && this.required == required && this.kind == kind
      ensures !hasErrorClass && !hasErrorElement
    {
      this.value := value;
      this.required := required;
      this.kind := kind;
      hasErrorClass := false;
      hasErrorElement := false;
      errorText := "";
      errorDisplay := "";
    }

    /** `showValidation`. */
    method ShowValidation(isValid: bool, message: string)
      modifies this`hasErrorClass, this`hasErrorElement, this`errorText, this`errorDisplay
      ensures Shows(if isValid then None else Some(message))
    {
      if !hasErrorElement {
        hasErrorElement := true;
      }
      if isValid {
        hasErrorClass := false;
        errorText := "";
        errorDisplay := "none";
      } else {
        hasErrorClass := true;
        errorText := message;
        errorDisplay := "block";
      }
    }

    /** `validateField`: checks the trimmed value and shows the outcome. */
    method ValidateField() returns (isValid: bool)
      modifies this`hasErrorClass, this`hasErrorElement, this`errorText, this`errorDisplay
      ensures isValid <==> FieldError(value, required, kind).None?
      ensures Shows(FieldError(value, required, kind))
      ensures isValid == !hasErrorClass
    {
      var trimmed := Trim(value, JavaScript);
      isValid := true;
      var message := "";
      if required && trimmed == "" {
        isValid := false;
        message := RequiredMessage;
      }
      if kind == "email" && trimmed != "" {
        if !IsEmail(trimmed) {
          isValid := false;
          message := EmailMessage;
        }
      }
      ShowValidation(isValid, message);
    }
  }

  /** A required field whose check passes. */
  predicate Passes(f: FieldView)
    reads f
  {
    FieldError(f.value, true, f.kind).None?
  }

  /** A required field showing the outcome of its check. */
  predicate ShowsCheck(f: FieldView)
    reads f
  {
    f.Shows(FieldError(f.value, true, f.kind))
  }

  /** The required fields of a form all pass. */
  predicate FormValid(inputs: seq<FieldView>)
    reads set i | 0 <= i < |inputs| :: inputs[i]
  {
    forall i :: 0 <= i < |inputs| && inputs[i].required ==> Passes(inputs[i])
  }

  /** The fields `validateForm` selects: the inputs and textareas marked required. */
  function RequiredFields(inputs: seq<FieldView>): set<FieldView> {
    set i | 0 <= i < |inputs| && inputs[i].required :: inputs[i]
  }

  /**
   * `validateForm`: validates every required field, without stopping at the first
   * failure, so each one shows its own outcome; optional fields are left alone.
   */
  method ValidateForm(inputs: seq<FieldView>) returns (isValid: bool)
    modifies RequiredFields(inputs)`hasErrorClass, RequiredFields(inputs)`hasErrorElement
    modifies RequiredFields(inputs)`errorText, RequiredFields(inputs)`errorDisplay
    ensures isValid <==> FormValid(inputs)
    ensures forall i :: 0 <= i < |inputs| && inputs[i].required ==> ShowsCheck(inputs[i])
  {
    isValid := true;
    for j := 0 to |inputs|
      invariant isValid <==> forall i :: 0 <= i < j && inputs[i].required ==> !inputs[i].hasErrorClass
      invariant forall i :: 0 <= i < j && inputs[i].required ==> ShowsCheck(inputs[i])
    {
      var input := inputs[j];
      if input.required {
        var ok := input.ValidateField();
        if !ok {
          isValid := false;
        }
      }
    }
  }

  /** The submit listener: the submission goes ahead exactly when the form is valid. */
  method Submit(inputs: seq<FieldView>) returns (prevented: bool)
    modifies RequiredFields(inputs)`hasErrorClass, RequiredFields(inputs)`hasErrorElement
    modifies RequiredFields(inputs)`errorText, RequiredFields(inputs)`errorDisplay
    ensures prevented <==> !FormValid(inputs)
    ensures forall i :: 0 <= i < |inputs| && inputs[i].required ==> ShowsCheck(inputs[i])
  {
    var ok := ValidateForm(inputs);
    prevented := !ok;
  }
}
