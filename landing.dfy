/** The landing page script (frontend/js/main.js): the FAQ accordion, the
    button loading state, the e-mail check, and the navbar and hamburger
    class toggles. */
module LandingPage {
  import opened Wrappers
  import opened Text

  // ---------------------------------------------------------------------------
  // FAQ accordion

  /** How many items carry the "active" class. */
  function ActiveCount(active: seq<bool>): (n: nat)
    ensures n <= |active|
  {
    if active == [] then 0 else (if active[0] then 1 else 0) + ActiveCount(active[1..])
  }

  /** The `.faq-item` elements and their "active" classes. */
  class Faq {
    var active: seq<bool>

    constructor (count: nat)
      ensures |active| == count && ActiveCount(active) == 0
    {
      active := seq(count, i => false);
      new;
      NoneActive(active);
    }

    /** The click handler of item `k`'s question: remember whether `k` was open,
        close every item, then open `k` if it was closed. */
    method Click(k: nat)
      requires k < |active|
      modifies this
      ensures |active| == |old(active)|
      ensures forall i :: 0 <= i < |active| ==> (active[i] <==> i == k && !old(active[k]))
      ensures ActiveCount(active) <= 1
    {
      var isActive := active[k];
      var i := 0;
      while i < |active|
        invariant 0 <= i <= |active| == |old(active)|
        invariant forall j :: 0 <= j < i ==> !active[j]
        invariant forall j :: i <= j < |active| ==> active[j] == old(active[j])
      {
        active := active[i := false];
        i := i + 1;
      }
      if !isActive {
        active := active[k := true];
      }
      OnlyOneActive(active, k, !isActive);
    }
  }

  lemma {:induction false} NoneActive(active: seq<bool>)
    requires forall i :: 0 <= i < |active| ==> !active[i]
    ensures ActiveCount(active) == 0
  {
    if active != [] {
      NoneActive(active[1..]);
    }
  }

  /** A list in which at most item `k` is active has at most one active item. */
  lemma {:induction false} OnlyOneActive(active: seq<bool>, k: nat, open: bool)
    requires k < |active|
    requires forall i :: 0 <= i < |active| ==> (active[i] <==> i == k && open)
    ensures ActiveCount(active) == if open then 1 else 0
  {
    if k == 0 {
      NoneActive(active[1..]);
    } else {
      OnlyOneActive(active[1..], k - 1, open);
    }
  }

  // ---------------------------------------------------------------------------
  // Button loading state

  const DefaultLoadingText := "Carregando..."

  /** The markup addLoadingState writes: a spinner icon, then the text. */
  function Spinner(text: string): string {
    "<i class=\"fas fa-spinner fa-spin\"></i> " + text
  }

  /** What `innerHTML = x` stores when `x` may be undefined. */
  function HtmlOf(x: Option<string>): string {
    x.GetOr("undefined")
  }

  /** A button's `disabled` flag, its markup and its `data-original-text`. */
  class Button {
    var disabled: bool
    var innerHTML: string
    var originalText: Option<string>

    constructor (html: string)
      ensures !disabled && innerHTML == html && originalText == None
    {
      disabled := false;
      innerHTML := html;
      originalText := None;
    }

    /** addLoadingState(button, text): `text` is None when the argument is left
        out, which selects the default "Carregando...". */
    method AddLoadingState(text: Option<string>)
      modifies this
      ensures disabled
      ensures originalText == Some(old(innerHTML))
      ensures innerHTML == Spinner(text.GetOr(DefaultLoadingText))
    {
      var t := text.GetOr(DefaultLoadingText);
      disabled := true;
      originalText := Some(innerHTML);
      innerHTML := Spinner(t);
    }

    /** removeLoadingState(button): re-enables the button and puts back the
        saved markup (the text "undefined" if nothing was ever saved). The
        saved value itself stays. */
    method RemoveLoadingState()
      modifies this
      ensures !disabled
      ensures innerHTML == HtmlOf(old(originalText))
      ensures originalText == old(originalText)
    {
      disabled := false;
      innerHTML := HtmlOf(originalText);
    }
  }

  /** Loading then unloading a button gives back exactly its markup, enabled. */
  method LoadAndRestore(b: Button, text: Option<string>)
    modifies b
    ensures !b.disabled && b.innerHTML == old(b.innerHTML)
  {
    b.AddLoadingState(text);
    b.RemoveLoadingState();
  }

  /** A second addLoadingState before the removal saves the spinner markup, so
      the removal leaves the spinner in place of the original markup. */
  method LoadTwiceAndRestore(b: Button, first: Option<string>, second: Option<string>)
    modifies b
    ensures !b.disabled && b.innerHTML == Spinner(first.GetOr(DefaultLoadingText))
  {
    b.AddLoadingState(first);
    b.AddLoadingState(second);
    b.RemoveLoadingState();
  }

  // ---------------------------------------------------------------------------
  // validateEmail: /^[^\s@]+@[^\s@]+\.[^\s@]+$/

  /** `s[lo..hi]` is a run of the class `[^\s@]`: no white space (JavaScript's
      `\s`) and no '@'. */
  predicate Plain(s: string, lo: nat, hi: nat)
    requires lo <= hi <= |s|
  {
    forall k :: lo <= k < hi ==> !IsJsSpace(s[k]) && s[k] != '@'
  }

  /** The regular expression, read literally: three non-empty `[^\s@]` runs
      joined by '@' and by '.'. */
  ghost predicate MatchesEmailPattern(s: string) {
    exists i, j :: 0 < i && i + 1 < j && j + 1 < |s| && s[i] == '@' && s[j] == '.'
      && Plain(s, 0, i) && Plain(s, i + 1, j) && Plain(s, j + 1, |s|)
  }

  /** The index of the first occurrence of `c`. */
  function IndexOf(s: string, c: char): (r: Option<nat>)
    ensures r.Some? ==> r.value < |s| && s[r.value] == c && forall k :: 0 <= k < r.value ==> s[k] != c
    ensures r.None? ==> forall k :: 0 <= k < |s| ==> s[k] != c
  {
    if s == [] then None
    else if s[0] == c then Some(0)
    else match IndexOf(s[1..], c)
      case None => None
      case Some(i) => Some(i + 1)
  }

  /** validateEmail: a non-empty local part before the first '@', no white
      space and no second '@' after it, and a '.' with text on both sides. */
  function ValidateEmail(email: string): (r: bool)
    ensures r <==> MatchesEmailPattern(email)
  {
    match IndexOf(email, '@')
    case None => false
    case Some(i) =>
      var ok := 0 < i && i + 2 < |email| && Plain(email, 0, i) && Plain(email, i + 1, |email|)
                && exists k | i + 1 < k < |email| - 1 :: email[k] == '.';
      EmailSplit(email, i);
      ok
  }

  /** With the first '@' at `i`, the pattern holds exactly when the check of
      ValidateEmail does. */
  lemma EmailSplit(s: string, i: nat)
    requires i < |s| && s[i] == '@' && forall k :: 0 <= k < i ==> s[k] != '@'
    ensures MatchesEmailPattern(s) <==>
              0 < i && i + 2 < |s| && Plain(s, 0, i) && Plain(s, i + 1, |s|)
              && exists k | i + 1 < k < |s| - 1 :: s[k] == '.'
  {
    if MatchesEmailPattern(s) {
      var i', j :| 0 < i' && i' + 1 < j && j + 1 < |s| && s[i'] == '@' && s[j] == '.'
                   && Plain(s, 0, i') && Plain(s, i' + 1, j) && Plain(s, j + 1, |s|);
      assert i' == i;
    }
    if 0 < i && i + 2 < |s| && Plain(s, 0, i) && Plain(s, i + 1, |s|) && exists k | i + 1 < k < |s| - 1 :: s[k] == '.' {
      var j :| i + 1 < j < |s| - 1 && s[j] == '.';
      assert Plain(s, i + 1, j) && Plain(s, j + 1, |s|);
    }
  }

  /** An accepted address has no white space and exactly one '@', with text
      before it. */
  lemma AcceptedEmailShape(s: string)
    requires ValidateEmail(s)
    ensures forall k :: 0 <= k < |s| ==> !IsJsSpace(s[k])
    ensures exists i :: 0 < i < |s| && s[i] == '@' && forall k :: 0 <= k < |s| && k != i ==> s[k] != '@'
  {
    var i, j :| 0 < i && i + 1 < j && j + 1 < |s| && s[i] == '@' && s[j] == '.'
                && Plain(s, 0, i) && Plain(s, i + 1, j) && Plain(s, j + 1, |s|);
    assert forall k :: 0 <= k < |s| && k != i ==> s[k] != '@' && !IsJsSpace(s[k]) by {
      forall k | 0 <= k < |s| && k != i ensures s[k] != '@' && !IsJsSpace(s[k]) {
        if k < i { assert Plain(s, 0, i); }
        else if k < j { assert Plain(s, i + 1, j); }
        else if k > j { assert Plain(s, j + 1, |s|); }
      }
    }
  }

  // ---------------------------------------------------------------------------
  // Navbar and hamburger

  class Navbar {
    var scrolled: bool

    /** The window `scroll` handler: "scrolled" is added past 50 pixels and
        removed otherwise. */
    method OnScroll(scrollY: real)
      modifies this
      ensures scrolled <==> scrollY > 50.0
    {
      if scrollY > 50.0 {
        scrolled := true;
      } else {
        scrolled := false;
      }
    }
  }

  /** The "active" classes of the menu and of the hamburger button. */
  class Hamburger {
    var menuActive: bool
    var buttonActive: bool

    /** The hamburger `click` handler toggles both classes. */
    method Click()
      modifies this
      ensures menuActive == !old(menuActive) && buttonActive == !old(buttonActive)
      ensures old(menuActive) == old(buttonActive) ==> menuActive == buttonActive
    {
      menuActive := !menuActive;
      buttonActive := !buttonActive;
    }
  }
}
