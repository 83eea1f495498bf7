/** The shared page script: field validation on blur and on submit (the
    email and phone recognisers), the theme manager and the cookie-consent
    banner. */
module MainOptimized {
  import opened TextUtil
  import Inquiry

  // ---------------------------------------------------------------------
  // Email: /^[^\s@]+@[^\s@]+\.[^\s@]+$/

  /** `[^\s@]`. */
  predicate EmailChar(c: char) {
    !IsWs(c) && c != '@'
  }

  predicate EmailChars(s: string) {
    forall i :: 0 <= i < |s| ==> EmailChar(s[i])
  }

  /** A `.` with at least one character on each side. */
  predicate HasInnerDot(d: string) {
    exists k :: 1 <= k < |d| - 1 && d[k] == '.'
  }

  /** `isValidEmail`: no whitespace, a first `@` with something before it,
      and after it no further `@` and a dot with a character on each side. */
  predicate IsValidEmail(s: string) {
    var a := IndexOfChar(s, '@');
    NoWs(s) && a >= 1 && EmailChars(s[a + 1..]) && HasInnerDot(s[a + 1..])
  }

  /** The pattern's three groups: local part, domain label, and the rest
      after the last dot the pattern picks. */
  ghost predicate EmailSplit(s: string, i: int, j: int) {
    0 < i && i + 1 < j && j + 1 < |s| && s[i] == '@' && s[j] == '.' &&
    EmailChars(s[..i]) && EmailChars(s[i + 1..j]) && EmailChars(s[j + 1..])
  }

  ghost predicate EmailPattern(s: string) {
    exists i, j :: EmailSplit(s, i, j)
  }

  /** The recogniser accepts exactly what the pattern matches. */
  lemma EmailIffPattern(s: string)
    ensures IsValidEmail(s) <==> EmailPattern(s)
  {
    if IsValidEmail(s) {
      var i, j := EmailRecogniserSplit(s);
    }
    if EmailPattern(s) {
      var i, j :| EmailSplit(s, i, j);
      EmailPatternRecognised(s, i, j);
    }
  }

  lemma EmailRecogniserSplit(s: string) returns (i: int, j: int)
    requires IsValidEmail(s)
    ensures EmailSplit(s, i, j)
  {
    i := IndexOfChar(s, '@');
    var d := s[i + 1..];
    var k :| 1 <= k < |d| - 1 && d[k] == '.';
    j := i + 1 + k;
    assert s[j] == d[k];
    assert s[i + 1..j] == d[..k];
    assert s[j + 1..] == d[k + 1..];
  }

  lemma EmailPatternRecognised(s: string, i: int, j: int)
    requires EmailSplit(s, i, j)
    ensures IsValidEmail(s)
  {
    assert IndexOfChar(s, '@') == i;
    var d := s[i + 1..];
    assert d == s[i + 1..j] + [s[j]] + s[j + 1..];
    assert d[j - i - 1] == '.';
    forall t | 0 <= t < |s| ensures !IsWs(s[t]) {
      if t < i {
        assert s[..i][t] == s[t];
      } else if i < t < j {
        assert s[i + 1..j][t - i - 1] == s[t];
      } else if j < t {
        assert s[j + 1..][t - j - 1] == s[t];
      }
    }
  }

  /** A valid address holds exactly one `@`. */
  lemma EmailHasOneAt(s: string, t: int)
    requires IsValidEmail(s) && 0 <= t < |s| && s[t] == '@'
    ensures t == IndexOfChar(s, '@')
  {
  }

  // ---------------------------------------------------------------------
  // Phone: /^[\+]?[1-9][\d]{0,15}$/ after removing all whitespace

  /** An optional `+`, then one to sixteen digits, the first not `0`. */
  predicate PhoneBody(p: string) {
    var d := if p != [] && p[0] == '+' then p[1..] else p;
    1 <= |d| <= 16 && '1' <= d[0] <= '9' && AllDigits(d)
  }

  /** `isValidPhone`. */
  predicate IsValidPhone(phone: string) {
    PhoneBody(RemoveWs(phone))
  }

  lemma {:induction false} RemoveWsAppend(a: string, b: string)
    ensures RemoveWs(a + b) == RemoveWs(a) + RemoveWs(b)
  {
    if a != [] {
      assert (a + b)[0] == a[0] && (a + b)[1..] == a[1..] + b;
      RemoveWsAppend(a[1..], b);
      if !IsWs(a[0]) {
        assert [a[0]] + RemoveWs(a[1..]) + RemoveWs(b) == [a[0]] + (RemoveWs(a[1..]) + RemoveWs(b));
      }
    } else {
      assert a + b == b;
    }
  }

  lemma {:induction false} RemoveWsOfBlank(w: string)
    requires AllWs(w)
    ensures RemoveWs(w) == []
  {
    if w != [] {
      RemoveWsOfBlank(w[1..]);
    }
  }

  /** Whitespace anywhere in a phone number is irrelevant to its verdict. */
  lemma PhoneIgnoresWhitespace(a: string, w: string, b: string)
    requires AllWs(w)
    ensures IsValidPhone(a + w + b) == IsValidPhone(a + b)
  {
    RemoveWsAppend(a + w, b);
    RemoveWsAppend(a, w);
    RemoveWsAppend(a, b);
    RemoveWsOfBlank(w);
    assert RemoveWs(a) + [] == RemoveWs(a);
  }

  /** A bare Indian mobile number, with or without `+91`, passes this check
      too; with the trunk `0` that the inquiry page allows, it does not. */
  lemma MobileNumbersAsPhones(d: string)
    requires Inquiry.MobileDigits(d)
    ensures IsValidPhone(d) && IsValidPhone("+91" + d)
    ensures Inquiry.IsIndianMobile("0" + d) && !IsValidPhone("0" + d)
  {
    PlainAndCountryCode(d);
    TrunkZeroRejected(d);
  }

  lemma PlainAndCountryCode(d: string)
    requires Inquiry.MobileDigits(d)
    ensures IsValidPhone(d) && IsValidPhone("+91" + d)
  {
    RemoveWsIdentity(d);
    var p := "+91" + d;
    assert p[1..] == "91" + d;
    RemoveWsIdentity(p);
  }

  lemma TrunkZeroRejected(d: string)
    requires Inquiry.MobileDigits(d)
    ensures Inquiry.IsIndianMobile("0" + d) && !IsValidPhone("0" + d)
  {
    var z := "0" + d;
    RemoveWsIdentity(z);
    assert z[|z| - 10..] == d && z[..|z| - 10] == "0";
  }

  // ---------------------------------------------------------------------
  // Field validation

  const REQUIRED_MSG := "This field is required"
  const EMAIL_MSG := "Please enter a valid email address"
  const PHONE_MSG := "Please enter a valid phone number"
  const URL_MSG := "Please enter a valid URL"

  /** A form control: its value, its `type` attribute and whether it has
      the `required` attribute. */
  datatype Field = Field(value: string, kind: string, required: bool)

  /** The message `validateField` shows for a field, or None when it
      passes. `urlOk` is the `new URL(value)` parse check. */
  function FieldError(f: Field, urlOk: string -> bool): (e: Option<string>)
    ensures e == Some(REQUIRED_MSG) <==> f.required && Trim(f.value) == ""
    ensures e == Some(EMAIL_MSG) <==>
      Trim(f.value) != "" && f.kind == "email" && !IsValidEmail(Trim(f.value))
    ensures e == Some(PHONE_MSG) <==>
      Trim(f.value) != "" && f.kind == "tel" && !IsValidPhone(Trim(f.value))
    ensures e == Some(URL_MSG) <==>
      Trim(f.value) != "" && f.kind == "url" && !urlOk(Trim(f.value))
    ensures e.None? || e == Some(REQUIRED_MSG) || e == Some(EMAIL_MSG) ||
      e == Some(PHONE_MSG) || e == Some(URL_MSG)
  {
    var v := Trim(f.value);
    if f.required && v == "" then Some(REQUIRED_MSG)
    else if v != "" && f.kind == "email" && !IsValidEmail(v) then Some(EMAIL_MSG)
    else if v != "" && f.kind == "tel" && !IsValidPhone(v) then Some(PHONE_MSG)
    else if v != "" && f.kind == "url" && !urlOk(v) then Some(URL_MSG)
    else None
  }

  /** An empty optional field passes whatever its type; a field of any other
      type passes once it is filled. */
  lemma FieldPasses(f: Field, urlOk: string -> bool)
    ensures !f.required && Trim(f.value) == "" ==> FieldError(f, urlOk).None?
    ensures Trim(f.value) != "" && f.kind !in {"email", "tel", "url"} ==> FieldError(f, urlOk).None?
  {
  }

  /** The value is trimmed first, so surrounding blanks never change the
      verdict. */
  lemma FieldIgnoresPadding(f: Field, a: string, b: string, urlOk: string -> bool)
    requires AllWs(a) && AllWs(b)
    ensures FieldError(f.(value := a + f.value + b), urlOk) == FieldError(f, urlOk)
  {
    TrimIgnoresPadding(a, f.value, b);
  }

  /** The error state of every field after validating all of them. */
  function ErrorsOf(fs: seq<Field>, urlOk: string -> bool): (es: seq<Option<string>>)
    ensures |es| == |fs|
    ensures forall i :: 0 <= i < |fs| ==> es[i] == FieldError(fs[i], urlOk)
  {
    if fs == [] then [] else [FieldError(fs[0], urlOk)] + ErrorsOf(fs[1..], urlOk)
  }

  predicate AllPass(es: seq<Option<string>>) {
    forall i :: 0 <= i < |es| ==> es[i].None?
  }

  /** A form's controls and the error shown under each (the `field-error`
      element, the `error` class and `aria-invalid`). */
  class Form {
    var fields: seq<Field>
    var shown: seq<Option<string>>

    predicate Valid()
      reads this
    {
      |shown| == |fields|
    }

    constructor (fs: seq<Field>)
      ensures Valid() && fields == fs && AllPass(shown)
    {
      fields := fs;
      shown := seq(|fs|, _ => None);
    }

    /** `validateField(input)`: the old error is removed, the new one (if
        any) shown, and the verdict returned. */
    method ValidateField(i: int, urlOk: string -> bool) returns (ok: bool)
      requires Valid() && 0 <= i < |fields|
      modifies this
      ensures Valid() && fields == old(fields)
      ensures shown == old(shown)[i := FieldError(fields[i], urlOk)]
      ensures ok <==> FieldError(fields[i], urlOk).None?
    {
      var e := FieldError(fields[i], urlOk);
      shown := shown[i := e];
      ok := e.None?;
    }

    /** `handleSubmit`: every field is validated, none skipped after a
        failure, and the submission goes ahead iff all pass. */
    method HandleSubmit(urlOk: string -> bool) returns (proceed: bool)
      requires Valid()
      modifies this
      ensures Valid() && fields == old(fields)
      ensures shown == ErrorsOf(fields, urlOk)
      ensures proceed <==> AllPass(shown)
    {
      var isValid := true;
      var i := 0;
      while i < |fields|
        invariant 0 <= i <= |fields| && Valid() && fields == old(fields)
        invariant forall j :: 0 <= j < i ==> shown[j] == FieldError(fields[j], urlOk)
        invariant isValid <==> forall j :: 0 <= j < i ==> shown[j].None?
      {
        var ok := ValidateField(i, urlOk);
        if !ok {
          isValid := false;
        }
        i := i + 1;
      }
      proceed := isValid;
    }
  }

  // ---------------------------------------------------------------------
  // Theme

  const THEME_KEY := "theme"

  function SystemTheme(prefersDark: bool): (t: string)
    ensures t == "dark" <==> prefersDark
    ensures t == "dark" || t == "light"
  {
    if prefersDark then "dark" else "light"
  }

  /** `savedTheme || systemTheme`. */
  function InitialTheme(saved: Option<string>, prefersDark: bool): (t: string)
    ensures t != ""
    ensures saved.Some? && saved.value != "" ==> t == saved.value
    ensures saved.None? || saved.value == "" ==> t == SystemTheme(prefersDark)
  {
    if saved.Some? && saved.value != "" then saved.value else SystemTheme(prefersDark)
  }

  /** The toggle icon's class for a theme. */
  function IconFor(theme: string): (c: string)
    ensures c == "fas fa-sun" <==> theme == "dark"
    ensures c == "fas fa-sun" || c == "fas fa-moon"
  {
    if theme == "dark" then "fas fa-sun" else "fas fa-moon"
  }

  /** The page's theme markers, the toggle's icon and `localStorage`. */
  class ThemeManager {
    var store: map<string, string>
    /** `data-theme="dark"` on the root element. */
    var dataThemeDark: bool
    /** `dark-mode` on the body. */
    var bodyDark: bool
    /** Whether the toggle button and its icon exist. */
    var hasToggle: bool
    var hasIcon: bool
    var icon: string
    /** Whether `init` has attached the toggle's click listener and the
        system-theme change listener. */
    var listening: bool

    constructor (store0: map<string, string>, toggle: bool, iconPresent: bool)
      ensures store == store0 && hasToggle == toggle && hasIcon == iconPresent
      ensures !dataThemeDark && !bodyDark && icon == "" && !listening
    {
      store := store0;
      dataThemeDark, bodyDark := false, false;
      hasToggle, hasIcon := toggle, iconPresent;
      icon := "";
      listening := false;
    }

    /** `utils.setTheme`: the dark markers are set iff the theme is `dark`,
        and the theme is always stored. */
    method SetTheme(theme: string)
      modifies this
      ensures dataThemeDark == (theme == "dark") && bodyDark == (theme == "dark")
      ensures store == old(store)[THEME_KEY := theme]
      ensures hasToggle == old(hasToggle) && hasIcon == old(hasIcon) && icon == old(icon)
      ensures listening == old(listening)
    {
      dataThemeDark := theme == "dark";
      bodyDark := theme == "dark";
      store := store[THEME_KEY := theme];
    }

    method ShowIcon(theme: string)
      modifies this
      ensures icon == (if hasIcon then IconFor(theme) else old(icon))
      ensures store == old(store) && dataThemeDark == old(dataThemeDark) && bodyDark == old(bodyDark)
      ensures hasToggle == old(hasToggle) && hasIcon == old(hasIcon) && listening == old(listening)
    {
      if hasIcon {
        icon := IconFor(theme);
      }
    }

    /** `themeManager.init`: without a toggle nothing happens; otherwise the
        saved theme, or the system's when none is saved, is applied and
        stored. */
    method Init(prefersDark: bool)
      modifies this
      ensures !old(hasToggle) ==>
        store == old(store) && dataThemeDark == old(dataThemeDark) && bodyDark == old(bodyDark) &&
        icon == old(icon)
      ensures old(hasToggle) ==>
        var t := InitialTheme(GetItem(old(store), THEME_KEY), prefersDark);
        bodyDark == (t == "dark") && dataThemeDark == bodyDark &&
        store == old(store)[THEME_KEY := t] && icon == (if hasIcon then IconFor(t) else old(icon))
      ensures old(hasToggle) ==> HasItem(store, THEME_KEY)
      ensures listening == (old(hasToggle) || old(listening))
      ensures hasToggle == old(hasToggle) && hasIcon == old(hasIcon)
    {
      if !hasToggle {
        return;
      }
      var t := InitialTheme(GetItem(store, THEME_KEY), prefersDark);
      SetTheme(t);
      ShowIcon(t);
      listening := true;
    }

    /** `handleThemeToggle`: the opposite of the current dark state, stored. */
    method Toggle()
      requires listening
      modifies this
      ensures bodyDark == !old(bodyDark) && dataThemeDark == bodyDark
      ensures store == old(store)[THEME_KEY := if bodyDark then "dark" else "light"]
      ensures icon == (if hasIcon then IconFor(if bodyDark then "dark" else "light") else old(icon))
      ensures hasToggle == old(hasToggle) && hasIcon == old(hasIcon) && listening == old(listening)
    {
      var t := if bodyDark then "light" else "dark";
      SetTheme(t);
      ShowIcon(t);
    }

    /** The `prefers-color-scheme` change listener, attached by `init`:
        follows the system only while no theme is stored. */
    method OnSystemChange(prefersDark: bool)
      requires listening
      modifies this
      ensures HasItem(old(store), THEME_KEY) ==>
        store == old(store) && bodyDark == old(bodyDark) && dataThemeDark == old(dataThemeDark) &&
        icon == old(icon)
      ensures !HasItem(old(store), THEME_KEY) ==>
        bodyDark == prefersDark && dataThemeDark == prefersDark &&
        store == old(store)[THEME_KEY := SystemTheme(prefersDark)] &&
        icon == (if hasIcon then IconFor(SystemTheme(prefersDark)) else old(icon))
      ensures hasToggle == old(hasToggle) && hasIcon == old(hasIcon) && listening == old(listening)
    {
      if !HasItem(store, THEME_KEY) {
        var t := SystemTheme(prefersDark);
        SetTheme(t);
        ShowIcon(t);
      }
    }

    /** Applying a theme without storing it: the behaviour the change
        listener's guard presupposes for a visitor who never chose. */
    method ApplyTheme(theme: string)
      modifies this
      ensures dataThemeDark == (theme == "dark") && bodyDark == (theme == "dark")
      ensures store == old(store) && icon == (if hasIcon then IconFor(theme) else old(icon))
      ensures hasToggle == old(hasToggle) && hasIcon == old(hasIcon) && listening == old(listening)
    {
      dataThemeDark := theme == "dark";
      bodyDark := theme == "dark";
      ShowIcon(theme);
    }

    /** Initialisation as evidently intended: a saved choice is applied,
        otherwise the system theme is applied without being stored. */
    method InitFollowingSystem(prefersDark: bool)
      modifies this
      ensures !old(hasToggle) ==>
        store == old(store) && dataThemeDark == old(dataThemeDark) && bodyDark == old(bodyDark) &&
        icon == old(icon)
      ensures old(hasToggle) ==>
        var t := InitialTheme(GetItem(old(store), THEME_KEY), prefersDark);
        bodyDark == (t == "dark") && dataThemeDark == bodyDark && store == old(store) &&
        icon == (if hasIcon then IconFor(t) else old(icon))
      ensures listening == (old(hasToggle) || old(listening))
      ensures hasToggle == old(hasToggle) && hasIcon == old(hasIcon)
    {
      if !hasToggle {
        return;
      }
      ApplyTheme(InitialTheme(GetItem(store, THEME_KEY), prefersDark));
      listening := true;
    }

    /** The change listener as evidently intended: while nothing is stored,
        follow the system without storing it. */
    method FollowSystem(prefersDark: bool)
      requires listening
      modifies this
      ensures HasItem(old(store), THEME_KEY) ==>
        bodyDark == old(bodyDark) && dataThemeDark == old(dataThemeDark) && icon == old(icon)
      ensures !HasItem(old(store), THEME_KEY) ==>
        bodyDark == prefersDark && dataThemeDark == prefersDark &&
        icon == (if hasIcon then IconFor(SystemTheme(prefersDark)) else old(icon))
      ensures store == old(store) && hasToggle == old(hasToggle) && hasIcon == old(hasIcon)
      ensures listening == old(listening)
    {
      if !HasItem(store, THEME_KEY) {
        ApplyTheme(SystemTheme(prefersDark));
      }
    }
  }

  /** As written: a first visit with a light system theme, after which the
      system switches to dark. The stored `light` from `init` silences the
      listener, and the page stays light. */
  method SystemSwitchIgnored() returns (darkAfterSwitch: bool)
    ensures !darkAfterSwitch
  {
    var m := new ThemeManager(map[], true, true);
    m.Init(false);
    m.OnSystemChange(true);
    darkAfterSwitch := m.bodyDark;
  }

  /** As intended: the same visit follows the switch, and any number of
      later ones. */
  method SystemSwitchFollowed() returns (darkAfterSwitch: bool, lightAfterSecond: bool)
    ensures darkAfterSwitch && lightAfterSecond
  {
    var m := new ThemeManager(map[], true, true);
    m.InitFollowingSystem(false);
    m.FollowSystem(true);
    darkAfterSwitch := m.bodyDark;
    m.FollowSystem(false);
    lightAfterSecond := !m.bodyDark;
  }

  // ---------------------------------------------------------------------
  // Cookie consent

  const CONSENT_KEY := "cookieConsent"

  /** The consent banner and the stored answer. */
  class CookieConsent {
    var store: map<string, string>
    var hasBanner: bool
    /** The banner carries `show`. */
    var bannerShown: bool
    /** The 2000 ms timer that shows the banner is pending. */
    var showScheduled: bool
    /** `init` has attached the accept and decline handlers to whichever of
        the two buttons exist. */
    var listening: bool

    constructor (store0: map<string, string>, banner: bool)
      ensures store == store0 && hasBanner == banner
      ensures !bannerShown && !showScheduled && !listening
    {
      store, hasBanner := store0, banner;
      bannerShown, showScheduled, listening := false, false, false;
    }

    /** `cookieConsent.init`: nothing when an answer is stored or there is
        no banner; otherwise the banner's showing is scheduled and the
        buttons listened to. */
    method Init()
      modifies this
      ensures store == old(store) && hasBanner == old(hasBanner) && bannerShown == old(bannerShown)
      ensures HasItem(store, CONSENT_KEY) || !hasBanner ==>
        showScheduled == old(showScheduled) && listening == old(listening)
      ensures !HasItem(store, CONSENT_KEY) && hasBanner ==> showScheduled && listening
    {
      if HasItem(store, CONSENT_KEY) || !hasBanner {
        return;
      }
      showScheduled := true;
      listening := true;
    }

    /** Two seconds later the banner gets `show`, whether or not an answer
        was given in between: the timer is never cancelled. */
    method ShowTimerFires()
      requires showScheduled
      modifies this
      ensures bannerShown && !showScheduled
      ensures store == old(store) && hasBanner == old(hasBanner) && listening == old(listening)
    {
      bannerShown := true;
      showScheduled := false;
    }

    /** `accept` and `decline`: store the answer and hide the banner. */
    method Answer(accepted: bool)
      modifies this
      ensures store == old(store)[CONSENT_KEY := if accepted then "accepted" else "declined"]
      ensures HasItem(store, CONSENT_KEY) && !bannerShown
      ensures hasBanner == old(hasBanner) && listening == old(listening) && showScheduled == old(showScheduled)
    {
      store := store[CONSENT_KEY := if accepted then "accepted" else "declined"];
      bannerShown := false;
    }
  }
}
