/**
 * The register page: its four validated fields, the email pattern
 * `^[a-z0-9._%+-]+@[a-z0-9.-]+\.[a-z]{2,4}$`, the password confirmation
 * check, and what a successful registration does in the browser.
 */
module RegisterPage {
  import opened Common
  import opened Types
  import opened JsNumber
  import opened FormRules
  import Store
  import Client
  import RegisterApi

  predicate LocalChar(c: char) {
    'a' <= c <= 'z' || '0' <= c <= '9' || c == '.' || c == '_' || c == '%' || c == '+' || c == '-'
  }

  predicate DomainChar(c: char) {
    'a' <= c <= 'z' || '0' <= c <= '9' || c == '.' || c == '-'
  }

  predicate Lower(c: char) {
    'a' <= c <= 'z'
  }

  /**
   * `s` matches the pattern with its `@` at `i` and the dot before the
   * top-level label at `j`.
   */
  predicate MatchesAt(s: string, i: int, j: int) {
    && 0 < i && i + 1 < j && j + 3 <= |s| <= j + 5
    && s[i] == '@' && s[j] == '.'
    && (forall k :: 0 <= k < i ==> LocalChar(s[k]))
    && (forall k :: i < k < j ==> DomainChar(s[k]))
    && (forall k :: j < k < |s| ==> Lower(s[k]))
  }

  /** The pattern, as the regular expression defines it: some split of `s` fits. */
  ghost predicate EmailPattern(s: string) {
    exists i, j :: MatchesAt(s, i, j)
  }

  /** The first index of `c` in `s`. */
  function IndexOf(s: string, c: char): (r: Option<nat>)
    ensures r.Some? ==> r.value < |s| && s[r.value] == c && forall k :: 0 <= k < r.value ==> s[k] != c
    ensures r.None? ==> forall k :: 0 <= k < |s| ==> s[k] != c
    decreases |s|
  {
    if s == [] then None
    else if s[0] == c then Some(0)
    else
      match IndexOf(s[1..], c)
      case None => None
      case Some(k) => Some(k + 1)
  }

  /** The last index of `c` in `s`. */
  function LastIndexOf(s: string, c: char): (r: Option<nat>)
    ensures r.Some? ==> r.value < |s| && s[r.value] == c && forall k :: r.value < k < |s| ==> s[k] != c
    ensures r.None? ==> forall k :: 0 <= k < |s| ==> s[k] != c
    decreases |s|
  {
    if s == [] then None
    else if s[|s| - 1] == c then Some(|s| - 1)
    else LastIndexOf(s[..|s| - 1], c)
  }

  /**
   * Neither character class before the top-level label holds `@`, and the
   * label holds no dot: a fitting split is always at the first `@` and the
   * last dot.
   */
  lemma SplitIsUnique(s: string, i: int, j: int)
    requires MatchesAt(s, i, j)
    ensures IndexOf(s, '@') == Some(i) && LastIndexOf(s, '.') == Some(j)
  {
    var a, d := IndexOf(s, '@'), LastIndexOf(s, '.');
    assert a.Some? && a.value <= i;
    assert !LocalChar('@');
    assert d.Some? && d.value >= j;
    assert !Lower('.');
  }

  /** The matcher: try the one candidate split. */
  function EmailPatternMatches(s: string): (b: bool)
    ensures b <==> EmailPattern(s)
  {
    assert forall i, j :: MatchesAt(s, i, j) ==> IndexOf(s, '@') == Some(i) && LastIndexOf(s, '.') == Some(j) by {
      forall i, j | MatchesAt(s, i, j)
        ensures IndexOf(s, '@') == Some(i) && LastIndexOf(s, '.') == Some(j)
      {
        SplitIsUnique(s, i, j);
      }
    }
    match (IndexOf(s, '@'), LastIndexOf(s, '.'))
    case (Some(i), Some(j)) => MatchesAt(s, i, j)
    case _ => false
  }

  /** Upper-case letters are in none of the classes, so an address that has one is refused. */
  lemma UppercaseIsRefused(s: string, k: nat)
    requires k < |s| && 'A' <= s[k] <= 'Z'
    ensures !EmailPatternMatches(s)
  {
    assert !LocalChar(s[k]) && !DomainChar(s[k]) && !Lower(s[k]) && s[k] != '@' && s[k] != '.';
  }

  /** The three character classes of the pattern. */
  datatype CharClass = LocalPart | DomainPart | TopLevel

  predicate InClass(c: char, k: CharClass) {
    match k
    case LocalPart => LocalChar(c)
    case DomainPart => DomainChar(c)
    case TopLevel => Lower(c)
  }

  /** Every character of `s` is in class `k`, checked one character at a time. */
  predicate AllIn(s: string, k: CharClass)
    decreases |s|
  {
    s == [] || (InClass(s[0], k) && AllIn(s[1..], k))
  }

  /** Each character of a string whose characters are all in class `k` is in it. */
  lemma {:induction false} AllInAt(s: string, k: CharClass, i: nat)
    requires AllIn(s, k) && i < |s|
    ensures InClass(s[i], k)
    decreases i
  {
    if i > 0 {
      AllInAt(s[1..], k, i - 1);
    }
  }

  /** A stretch of `s` equal to `part`, whose characters are all in class `k`, has them all in `k`. */
  lemma StretchInClass(s: string, part: string, offset: nat, k: CharClass)
    requires offset + |part| <= |s| && s[offset..offset + |part|] == part && AllIn(part, k)
    ensures forall m :: offset <= m < offset + |part| ==> InClass(s[m], k)
  {
    forall m | offset <= m < offset + |part| ensures InClass(s[m], k) {
      assert s[m] == s[offset..offset + |part|][m - offset];
      AllInAt(part, k, m - offset);
    }
  }

  /**
   * An address built from a local part, a domain and a top-level label of 2
   * to 4 letters, each non-empty and drawn from its class, matches at its
   * `@` and at the dot before the label.
   */
  lemma ComposedAddressMatches(local: string, domain: string, top: string)
    requires |local| > 0 && |domain| > 0 && 2 <= |top| <= 4
    requires AllIn(local, LocalPart) && AllIn(domain, DomainPart) && AllIn(top, TopLevel)
    ensures MatchesAt(local + "@" + domain + "." + top, |local|, |local| + 1 + |domain|)
  {
    var head := local + "@";
    var mid := head + domain;
    var dotted := mid + ".";
    var s := dotted + top;
    var i, j := |local|, |local| + 1 + |domain|;
    assert |head| == i + 1 && |mid| == j && |dotted| == j + 1;
    assert forall m :: 0 <= m < i ==> LocalChar(s[m]) by {
      assert s[..i] == local by { assert s[..i] == dotted[..i] == mid[..i] == head[..i]; }
      StretchInClass(s, local, 0, LocalPart);
    }
    assert forall m :: i < m < j ==> DomainChar(s[m]) by {
      assert s[i + 1..j] == domain by { assert s[i + 1..j] == dotted[i + 1..j] == mid[i + 1..j]; }
      StretchInClass(s, domain, i + 1, DomainPart);
    }
    assert forall m :: j < m < |s| ==> Lower(s[m]) by {
      assert s[j + 1..] == top;
      StretchInClass(s, top, j + 1, TopLevel);
    }
    assert s[i] == mid[i] == head[i] == '@';
    assert s[j] == dotted[j] == '.';
  }

  lemma SampleAddressMatches()
    ensures EmailPatternMatches("admin@example.com")
  {
    ComposedAddressMatches("admin", "example", "com");
    assert "admin" + "@" + "example" + "." + "com" == "admin@example.com";
  }

  lemma CapitalisedAddressIsRefused()
    ensures !EmailPatternMatches("Admin@example.com")
  {
    UppercaseIsRefused("Admin@example.com", 0);
  }

  datatype RegisterForm = RegisterForm(name: string, email: string, password: string, confirmPassword: string)

  datatype RegisterErrors = RegisterErrors(
    name: Option<FieldError>,
    email: Option<FieldError>,
    password: Option<FieldError>,
    confirmPassword: Option<FieldError>)

  function Validate(f: RegisterForm): RegisterErrors {
    RegisterErrors(
      CheckText(f.name, 2),
      CheckPattern(f.email, EmailPatternMatches(f.email)),
      CheckText(f.password, 6),
      CheckText(f.confirmPassword, 6))
  }

  predicate NoErrors(e: RegisterErrors) {
    e.name.None? && e.email.None? && e.password.None? && e.confirmPassword.None?
  }

  /**
   * The form is submitted exactly when the name is at least 2 UTF-16 code
   * units long, the email fits the pattern and both passwords are at least 6.
   */
  lemma ValidFormIff(f: RegisterForm)
    ensures NoErrors(Validate(f)) <==>
      && Utf16Length(f.name) >= 2 && EmailPattern(f.email)
      && Utf16Length(f.password) >= 6 && Utf16Length(f.confirmPassword) >= 6
  {
    if EmailPattern(f.email) {
      var i, j :| MatchesAt(f.email, i, j);
    }
  }

  const PasswordsDontMatch := "Passwords don't match"

  /**
   * `handleSubmit(submitHandler)`: `response` is the answer of
   * `POST /api/users/register`, `redirect` the page's query parameter. The
   * result is the body posted, if any.
   */
  method Submit(b: Client.Browser, f: RegisterForm, redirect: Option<string>, response: Result<UserInfo>)
    returns (posted: Option<RegisterApi.Body>)
    modifies b
    ensures !NoErrors(Validate(f)) ==> posted.None? && b.notices == old(b.notices)
    ensures NoErrors(Validate(f)) && f.password != f.confirmPassword ==>
      posted.None? && b.notices == [PasswordsDontMatch]
    ensures NoErrors(Validate(f)) && f.password == f.confirmPassword ==>
      posted == Some(RegisterApi.Body(Some(f.name), Some(f.email), Some(f.password)))
    ensures posted.Some? && response.Ok? ==>
      && b.dispatched == old(b.dispatched) + [Store.UserLogin(response.value)]
      && b.cookies == old(b.cookies)["userInfo" := Client.UserInfoCookie(response.value)]
      && b.history == old(b.history) + [TextOr(redirect, "/")]
      && b.notices == []
    ensures posted.Some? && response.Err? ==>
      && b.notices == [response.error] && b.dispatched == old(b.dispatched) && b.history == old(b.history)
      && b.cookies == old(b.cookies)
    ensures posted.None? ==>
      b.dispatched == old(b.dispatched) && b.history == old(b.history) && b.cookies == old(b.cookies)
    ensures b.store == old(b.store)  // the store has no `USER_LOGIN` case
  {
    if !NoErrors(Validate(f)) {
      return None;
    }
    b.CloseNotices();
    if f.password != f.confirmPassword {
      b.Notify(PasswordsDontMatch);
      return None;
    }
    posted := Some(RegisterApi.Body(Some(f.name), Some(f.email), Some(f.password)));
    match response
    case Ok(data) =>
      b.Dispatch(Store.UserLogin(data));
      b.SetCookie("userInfo", Client.UserInfoCookie(data));
      b.Push(TextOr(redirect, "/"));
    case Err(message) =>
      b.Notify(message);
  }

  /** The page's effect: a visitor who is already logged in is sent home. */
  method Mount(b: Client.Browser, userInfo: Option<UserInfo>)
    modifies b
    ensures b.history == old(b.history) + (if userInfo.Some? then ["/"] else [])
    ensures b.dispatched == old(b.dispatched) && b.cookies == old(b.cookies) && b.notices == old(b.notices)
    ensures b.store == old(b.store)
  {
    if userInfo.Some? {
      b.Push("/");
    }
  }
}
