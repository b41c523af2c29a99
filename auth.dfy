/**
 * The auth context: the e-mail and password validators, the ordered checks
 * that `login`, `loginAsAdmin` and `register` run before calling the data
 * layer, and the provider that ties those checks, the auth store's state
 * and the local data layer together.
 */
module Auth {
  import opened Wrappers
  import opened Lists
  import opened JsText
  import opened AuthTypes
  import LocalAuth
  import ListenerSet

  // ---------------------------------------------------------------- e-mail

  /** The class `[^\s@]`. */
  predicate Plain(c: char) {
    !IsWhitespace(c) && c != '@'
  }

  predicate AllPlain(s: string) {
    forall k :: 0 <= k < |s| ==> Plain(s[k])
  }

  /** `s` splits as a plain run, `@` at `i`, a plain run, `.` at `j`, a plain run. */
  predicate Splits(s: string, i: int, j: int) {
    0 < i && i + 1 < j && j + 1 < |s| && s[i] == '@' && s[j] == '.'
    && AllPlain(s[..i]) && AllPlain(s[i + 1..j]) && AllPlain(s[j + 1..])
  }

  /** The strings the regular expression `^[^\s@]+@[^\s@]+\.[^\s@]+$` matches. */
  ghost predicate EmailPattern(s: string) {
    exists i, j :: Splits(s, i, j)
  }

  predicate NoWhitespace(s: string) {
    forall k :: 0 <= k < |s| ==> !IsWhitespace(s[k])
  }

  /** A `.` with at least one character on each side. */
  predicate InnerDot(d: string) {
    exists k :: 0 < k < |d| - 1 && d[k] == '.'
  }

  /** The shape `validateEmail` accepts, with `at` the first `@`. */
  predicate Shaped(email: string, at: int)
    requires -1 <= at < |email|
  {
    at > 0 && NoWhitespace(email) && '@' !in email[at + 1..] && InnerDot(email[at + 1..])
  }

  /**
   * `validateEmail`: exactly one `@` and no whitespace, a non-empty part
   * before the `@`, and a `.` inside the part after it.  This is the same
   * set of strings as the regular expression's.
   */
  function ValidateEmail(email: string): (r: bool)
    ensures r <==> EmailPattern(email)
  {
    var at := IndexOf(email, '@');
    ShapedIffPattern(email, at);
    Shaped(email, at)
  }

  lemma ShapedIffPattern(email: string, at: int)
    requires at == IndexOf(email, '@')
    ensures Shaped(email, at) <==> EmailPattern(email)
  {
    if Shaped(email, at) {
      ShapedSplits(email, at);
    }
    forall i, j | Splits(email, i, j) ensures Shaped(email, at) {
      SplitShaped(email, i, j);
    }
  }

  /** Every character of a split string is plain, except the `@` and the `.`, which are not whitespace. */
  lemma SplitChars(s: string, i: int, j: int)
    requires Splits(s, i, j)
    ensures NoWhitespace(s)
    ensures forall k :: 0 <= k < |s| && k != i ==> s[k] != '@'
  {
    forall k | 0 <= k < |s| ensures !IsWhitespace(s[k]) && (k != i ==> s[k] != '@') {
      if k < i {
        assert s[..i][k] == s[k];
      } else if i < k < j {
        assert s[i + 1..j][k - i - 1] == s[k];
      } else if k > j {
        assert s[j + 1..][k - j - 1] == s[k];
      }
    }
  }

  lemma SplitShaped(email: string, i: int, j: int)
    requires Splits(email, i, j)
    ensures Shaped(email, IndexOf(email, '@'))
  {
    SplitChars(email, i, j);
    var at := IndexOf(email, '@');
    assert at == i;
    var d := email[at + 1..];
    assert d[j - i - 1] == '.';
    assert forall m :: 0 <= m < |d| ==> d[m] == email[at + 1 + m];
  }

  /** A stretch of plain characters is plain. */
  lemma PlainSlice(s: string, a: int, b: int)
    requires 0 <= a <= b <= |s| && forall m :: a <= m < b ==> Plain(s[m])
    ensures AllPlain(s[a..b])
  {
    assert forall m :: 0 <= m < b - a ==> s[a..b][m] == s[a + m];
  }

  lemma ShapedSplits(email: string, at: int)
    requires at == IndexOf(email, '@') && Shaped(email, at)
    ensures EmailPattern(email)
  {
    var d := email[at + 1..];
    var k :| 0 < k < |d| - 1 && d[k] == '.';
    var j := at + 1 + k;
    assert forall m :: at < m < |email| ==> email[m] == d[m - at - 1];
    assert email[j] == '.';
    assert forall m :: 0 <= m < |email| && m != at ==> Plain(email[m]);
    PlainSlice(email, 0, at);
    PlainSlice(email, at + 1, j);
    PlainSlice(email, j + 1, |email|);
    assert email[..at] == email[0..at] && email[j + 1..] == email[j + 1..|email|];
    assert Splits(email, at, j);
  }

  /** An address with whitespace anywhere, even at its ends, is refused. */
  lemma WhitespaceRefused(email: string, k: int)
    requires 0 <= k < |email| && IsWhitespace(email[k])
    ensures !ValidateEmail(email)
  {
  }

  /** Lower-casing keeps every character's class: whitespace, `@` and `.` stay where they are. */
  lemma LowerCharClass(c: char)
    ensures IsWhitespace(LowerChar(c)) <==> IsWhitespace(c)
    ensures LowerChar(c) == '@' <==> c == '@'
    ensures LowerChar(c) == '.' <==> c == '.'
  {
  }

  /**
   * A valid address is unchanged by the trim after lower-casing, and what is
   * sent to the data layer is itself a valid address.
   */
  lemma NormalizedStillValid(email: string)
    requires ValidateEmail(email)
    ensures Trim(ToLower(email)) == ToLower(email)
    ensures ValidateEmail(ToLower(email))
  {
    var i, j :| Splits(email, i, j);
    SplitChars(email, i, j);
    LowerKeepsSplit(email, i, j);
    LowerNoWhitespace(email);
    TrimNoWhitespace(ToLower(email));
  }

  lemma LowerNoWhitespace(s: string)
    requires NoWhitespace(s)
    ensures NoWhitespace(ToLower(s))
  {
    forall k | 0 <= k < |s| ensures !IsWhitespace(ToLower(s)[k]) {
      LowerCharClass(s[k]);
    }
  }

  lemma LowerKeepsSplit(s: string, i: int, j: int)
    requires Splits(s, i, j)
    ensures Splits(ToLower(s), i, j)
  {
    var low := ToLower(s);
    LowerSlicePlain(s, 0, i);
    LowerSlicePlain(s, i + 1, j);
    LowerSlicePlain(s, j + 1, |s|);
    assert s[..i] == s[0..i] && s[j + 1..] == s[j + 1..|s|];
    assert low[..i] == low[0..i] && low[j + 1..] == low[j + 1..|s|];
  }

  /** Lower-casing a plain stretch leaves it plain. */
  lemma LowerSlicePlain(s: string, a: int, b: int)
    requires 0 <= a <= b <= |s| && AllPlain(s[a..b])
    ensures AllPlain(ToLower(s)[a..b])
  {
    forall m | 0 <= m < b - a ensures Plain(ToLower(s)[a..b][m]) {
      assert s[a..b][m] == s[a + m];
      LowerCharClass(s[a + m]);
    }
  }

  // -------------------------------------------------------------- password

  /** The four password rules, in the order they are checked. */
  datatype PasswordRule = MinLength | Lowercase | Uppercase | Digit

  const PasswordRules: seq<PasswordRule> := [MinLength, Lowercase, Uppercase, Digit]

  const TooShort := "Password must be at least 8 characters long"
  const NoLowercase := "Password must contain at least one lowercase letter"
  const NoUppercase := "Password must contain at least one uppercase letter"
  const NoNumber := "Password must contain at least one number"

  predicate HasLower(p: string) {
    exists k :: 0 <= k < |p| && 'a' <= p[k] <= 'z'
  }

  predicate HasUpper(p: string) {
    exists k :: 0 <= k < |p| && 'A' <= p[k] <= 'Z'
  }

  predicate HasDigit(p: string) {
    exists k :: 0 <= k < |p| && '0' <= p[k] <= '9'
  }

  predicate Meets(p: string, rule: PasswordRule) {
    match rule
    case MinLength => Utf16Length(p) >= 8
    case Lowercase => HasLower(p)
    case Uppercase => HasUpper(p)
    case Digit => HasDigit(p)
  }

  function Breaks(p: string): PasswordRule -> bool {
    (rule: PasswordRule) => !Meets(p, rule)
  }

  function RuleMessage(rule: PasswordRule): string {
    match rule
    case MinLength => TooShort
    case Lowercase => NoLowercase
    case Uppercase => NoUppercase
    case Digit => NoNumber
  }

  function Messages(rules: seq<PasswordRule>): (r: seq<string>)
    ensures |r| == |rules| && forall k :: 0 <= k < |r| ==> r[k] == RuleMessage(rules[k])
  {
    if rules == [] then [] else [RuleMessage(rules[0])] + Messages(rules[1..])
  }

  /**
   * `validatePassword`: the message of every rule the password breaks, in
   * the rules' order; none exactly when it meets all four.
   */
  function ValidatePassword(p: string): (r: seq<string>)
    ensures r == Failing(p, PasswordRules) == Messages(Filter(PasswordRules, Breaks(p)))
    ensures r == [] <==> Utf16Length(p) >= 8 && HasLower(p) && HasUpper(p) && HasDigit(p)
  {
    var e1 := if Utf16Length(p) < 8 then [TooShort] else [];
    var e2 := e1 + if !HasLower(p) then [NoLowercase] else [];
    var e3 := e2 + if !HasUpper(p) then [NoUppercase] else [];
    var e4 := e3 + if !HasDigit(p) then [NoNumber] else [];
    FailingIsFiltered(p, PasswordRules);
    FailingInOrder(p);
    e4
  }

  lemma FailingInOrder(p: string)
    ensures Failing(p, PasswordRules)
      == Earned(p, MinLength) + Earned(p, Lowercase) + Earned(p, Uppercase) + Earned(p, Digit)
  {
    var s1: seq<PasswordRule> := [Lowercase, Uppercase, Digit];
    var s2: seq<PasswordRule> := [Uppercase, Digit];
    var s3: seq<PasswordRule> := [Digit];
    assert PasswordRules[1..] == s1 && s1[1..] == s2 && s2[1..] == s3 && s3[1..] == [];
    assert Failing(p, s3) == Earned(p, Digit);
    assert Failing(p, s2) == Earned(p, Uppercase) + Earned(p, Digit);
    assert Failing(p, s1) == Earned(p, Lowercase) + (Earned(p, Uppercase) + Earned(p, Digit));
  }

  /** The message a password earns for one rule: none when it meets it. */
  function Earned(p: string, rule: PasswordRule): seq<string> {
    if Meets(p, rule) then [] else [RuleMessage(rule)]
  }

  /** Each rule in turn contributes the message it earns. */
  function Failing(p: string, rules: seq<PasswordRule>): seq<string> {
    if rules == [] then [] else Earned(p, rules[0]) + Failing(p, rules[1..])
  }

  /** Rule by rule, the earned messages are the messages of the rules broken. */
  lemma {:induction false} FailingIsFiltered(p: string, rules: seq<PasswordRule>)
    ensures Failing(p, rules) == Messages(Filter(rules, Breaks(p)))
  {
    if rules != [] {
      FailingIsFiltered(p, rules[1..]);
      var rest := Filter(rules[1..], Breaks(p));
      if Meets(p, rules[0]) {
        assert Filter(rules, Breaks(p)) == rest;
      } else {
        assert Filter(rules, Breaks(p)) == [rules[0]] + rest;
        MessagesAppend([rules[0]], rest);
      }
    }
  }

  lemma {:induction false} MessagesAppend(a: seq<PasswordRule>, b: seq<PasswordRule>)
    ensures Messages(a + b) == Messages(a) + Messages(b)
  {
    var l, ma, mb := Messages(a + b), Messages(a), Messages(b);
    forall k | 0 <= k < |l| ensures l[k] == (ma + mb)[k] {
      if k < |a| {
        assert (a + b)[k] == a[k];
      } else {
        assert (a + b)[k] == b[k - |a|];
      }
    }
  }

  /**
   * A password meeting every rule yields no message, whatever else it holds;
   * its length is counted in UTF-16 code units, as `password.length` is.
   */
  lemma StrongPasswordPasses(p: string, lower: int, upper: int, digit: int)
    requires Utf16Length(p) >= 8
    requires 0 <= lower < |p| && 'a' <= p[lower] <= 'z'
    requires 0 <= upper < |p| && 'A' <= p[upper] <= 'Z'
    requires 0 <= digit < |p| && '0' <= p[digit] <= '9'
    ensures ValidatePassword(p) == []
  {
    WitnessesMeetRules(p, lower, upper, digit);
    PasswordVerdict(p);
  }

  lemma WitnessesMeetRules(p: string, lower: int, upper: int, digit: int)
    requires 0 <= lower < |p| && 'a' <= p[lower] <= 'z'
    requires 0 <= upper < |p| && 'A' <= p[upper] <= 'Z'
    requires 0 <= digit < |p| && '0' <= p[digit] <= '9'
    ensures HasLower(p) && HasUpper(p) && HasDigit(p)
  {
  }

  /** A password of eight or more code units with a lower-case letter, a capital and a digit passes. */
  lemma PasswordVerdict(p: string)
    requires Utf16Length(p) >= 8 && HasLower(p) && HasUpper(p) && HasDigit(p)
    ensures ValidatePassword(p) == []
  {
  }

  /**
   * The length rule counts UTF-16 code units: four letters from outside the
   * Basic Multilingual Plane are eight units and long enough, while the same
   * count of ordinary letters is too short.
   */
  lemma {:induction false} AstralPasswordLongEnough()
    ensures Meets("\U{1D400}\U{1D400}\U{1D400}\U{1D400}", MinLength)
    ensures !Meets("AAAA", MinLength)
  {
    var p := "\U{1D400}\U{1D400}\U{1D400}\U{1D400}";
    assert p[1..][1..][1..][1..] == [];
    assert Utf16Length(p) == 2 + Utf16Length(p[1..]);
    assert Utf16Length(p[1..]) == 2 + Utf16Length(p[1..][1..]);
    assert Utf16Length(p[1..][1..]) == 2 + Utf16Length(p[1..][1..][1..]);
  }

  // ----------------------------------------------------------------- checks

  const InvalidEmail := "Please enter a valid email address"
  const PasswordRequired := "Password is required"
  const PasswordMismatch := "Passwords do not match"
  const NameTooShort := "Name must be at least 2 characters long"

  /**
   * The checks `login` and `loginAsAdmin` run: the e-mail first, then that a
   * password was given.  On success, the lower-cased and trimmed address to
   * sign in with; otherwise the message thrown.
   */
  function CheckCredentials(email: string, password: string): (r: Result<string, string>)
    ensures r.Success? <==> ValidateEmail(email) && password != ""
    ensures !ValidateEmail(email) ==> r == Failure(InvalidEmail)
    ensures ValidateEmail(email) && password == "" ==> r == Failure(PasswordRequired)
    ensures r.Success? ==> r.value == Trim(ToLower(email))
  {
    if !ValidateEmail(email) then Failure(InvalidEmail)
    else if password == "" then Failure(PasswordRequired)
    else Success(Trim(ToLower(email)))
  }

  /**
   * The trim after lower-casing never changes an address that passed the
   * check (it had no whitespace to begin with), and the address handed on
   * is itself valid.
   */
  lemma CredentialsAddress(email: string, password: string)
    requires CheckCredentials(email, password).Success?
    ensures CheckCredentials(email, password).value == ToLower(email)
    ensures ValidateEmail(CheckCredentials(email, password).value)
  {
    NormalizedStillValid(email);
  }

  datatype RegisterData = RegisterData(email: string, password: string, passwordConfirm: string, name: Option<string>)

  /** A given name counts only when it is truthy (present and not empty). */
  predicate NameGiven(d: RegisterData) {
    d.name.Some? && d.name.value != ""
  }

  /**
   * The checks `register` runs, in order: the e-mail, the password rules
   * (every broken rule's message, joined by ". "), the confirmation, and a
   * given name's trimmed length.  On success, the address and the name
   * (trimmed, or empty when none was given) handed to the data layer.
   */
  function CheckRegistration(d: RegisterData): (r: Result<(string, string), string>)
    ensures !ValidateEmail(d.email) ==> r == Failure(InvalidEmail)
    ensures ValidateEmail(d.email) && ValidatePassword(d.password) != []
      ==> r == Failure(Join(ValidatePassword(d.password), ". "))
    ensures ValidateEmail(d.email) && ValidatePassword(d.password) == [] && d.password != d.passwordConfirm
      ==> r == Failure(PasswordMismatch)
    ensures (ValidateEmail(d.email) && ValidatePassword(d.password) == [] && d.password == d.passwordConfirm
      && NameGiven(d) && Utf16Length(Trim(d.name.value)) < 2) ==> r == Failure(NameTooShort)
    ensures r.Success? <==> (ValidateEmail(d.email) && ValidatePassword(d.password) == []
      && d.password == d.passwordConfirm && (NameGiven(d) ==> Utf16Length(Trim(d.name.value)) >= 2))
    ensures r.Success? ==> r.value.0 == Trim(ToLower(d.email))
    ensures r.Success? ==> (NameGiven(d) ==> r.value.1 == Trim(d.name.value)) && (!NameGiven(d) ==> r.value.1 == "")
  {
    if !ValidateEmail(d.email) then Failure(InvalidEmail)
    else if ValidatePassword(d.password) != [] then Failure(Join(ValidatePassword(d.password), ". "))
    else if d.password != d.passwordConfirm then Failure(PasswordMismatch)
    else if NameGiven(d) && Utf16Length(Trim(d.name.value)) < 2 then Failure(NameTooShort)
    else
      var name := if d.name.Some? then Trim(d.name.value) else "";
      Success((Trim(ToLower(d.email)), name))
  }

  /** A registration that passes hands on the lower-cased address, itself valid. */
  lemma RegistrationAddress(d: RegisterData)
    requires CheckRegistration(d).Success?
    ensures CheckRegistration(d).value.0 == ToLower(d.email) && ValidateEmail(CheckRegistration(d).value.0)
  {
    NormalizedStillValid(d.email);
  }

  /** A registration that passes has a password meeting all four rules and matching its confirmation. */
  lemma RegistrationPassword(d: RegisterData)
    requires CheckRegistration(d).Success?
    ensures Utf16Length(d.password) >= 8 && HasLower(d.password) && HasUpper(d.password) && HasDigit(d.password)
    ensures d.passwordConfirm == d.password
  {
  }

  /** The name a passing registration hands on is empty or at least two UTF-16 code units long, with nothing left to trim. */
  lemma RegistrationName(d: RegisterData)
    requires CheckRegistration(d).Success?
    ensures var name := CheckRegistration(d).value.1;
      name == "" || (Utf16Length(name) >= 2 && Trim(name) == name)
  {
    if NameGiven(d) {
      TrimTwice(d.name.value);
    }
  }

  /** A password that fails the rules is refused with exactly its messages, before the confirmation is looked at. */
  lemma WeakPasswordFirst(d: RegisterData)
    requires ValidateEmail(d.email) && !(Utf16Length(d.password) >= 8 && HasLower(d.password) && HasUpper(d.password) && HasDigit(d.password))
    ensures CheckRegistration(d) == Failure(Join(Messages(Filter(PasswordRules, Breaks(d.password))), ". "))
  {
  }

  // --------------------------------------------------------------- provider

  /**
   * The auth provider with its store.  The store is subscribed to the data
   * layer for its whole life, and on every notification it re-reads the
   * layer's snapshot; the methods below write that re-read out as the
   * store's new state.
   */
  class AuthProvider {
    var state: AuthState
    const layer: LocalAuth.LocalAuthLayer

    /** Creating the store initialises it from the layer's snapshot. */
    constructor(layer: LocalAuth.LocalAuthLayer)
      ensures this.layer == layer && state == FromSnapshot(layer.GetSnapshot())
    {
      this.layer := layer;
      state := FromSnapshot(layer.GetSnapshot());
    }

    method ClearError()
      modifies this
      ensures state == old(state).(error := None)
    {
      state := state.(error := None);
    }

    /**
     * `login`: a failed check leaves the layer alone and records its message
     * as the error; otherwise the demo user is signed in and the store holds
     * the snapshot it was notified of.  Loading is off afterwards either way.
     */
    method Login(email: string, password: string, now: string) returns (r: Result<(), string>)
      requires layer.Valid()
      modifies this, layer
      ensures layer.Valid() && layer.listeners == old(layer.listeners)
      ensures !state.isLoading
      ensures var c := CheckCredentials(email, password);
        (c.Failure? ==> (r == Failure(c.error) && state == old(state).(isLoading := false, error := Some(c.error))
          && unchanged(layer)))
        && (c.Success? ==> (r == Success(())
          && layer.GetSnapshot() == Snapshot(Some(LocalAuth.DemoUser(c.value, now)), Some(User))
          && state == FromSnapshot(layer.GetSnapshot())
          && layer.calls == old(layer.calls) + ListenerSet.Notify(layer.listeners, layer.GetSnapshot())))
    {
      state := state.(error := None, isLoading := true);
      var c := CheckCredentials(email, password);
      if c.Failure? {
        state := state.(error := Some(c.error), isLoading := false);
        return Failure(c.error);
      }
      layer.Login(c.value, password, now);
      state := FromSnapshot(layer.GetSnapshot());
      state := state.(isLoading := false);
      r := Success(());
    }

    /** `loginAsAdmin`: the same checks, then the demo admin is signed in. */
    method LoginAsAdmin(email: string, password: string, now: string) returns (r: Result<(), string>)
      requires layer.Valid()
      modifies this, layer
      ensures layer.Valid() && layer.listeners == old(layer.listeners)
      ensures !state.isLoading
      ensures var c := CheckCredentials(email, password);
        (c.Failure? ==> (r == Failure(c.error) && state == old(state).(isLoading := false, error := Some(c.error))
          && unchanged(layer)))
        && (c.Success? ==> (r == Success(())
          && layer.GetSnapshot() == Snapshot(Some(LocalAuth.DemoAdmin(c.value, now)), Some(Admin))
          && state == FromSnapshot(layer.GetSnapshot())
          && layer.calls == old(layer.calls) + ListenerSet.Notify(layer.listeners, layer.GetSnapshot())))
    {
      state := state.(error := None, isLoading := true);
      var c := CheckCredentials(email, password);
      if c.Failure? {
        state := state.(error := Some(c.error), isLoading := false);
        return Failure(c.error);
      }
      layer.LoginAsAdmin(c.value, password, now);
      state := FromSnapshot(layer.GetSnapshot());
      state := state.(isLoading := false);
      r := Success(());
    }

    /**
     * `register`: a failed check records its message; otherwise the layer
     * signs the new user in, and the store holds what the layer was notified
     * with — the demo name, not the given one (see `LocalAuth.RegisterAsWritten`).
     */
    method Register(d: RegisterData, now: string) returns (r: Result<(), string>)
      requires layer.Valid()
      modifies this, layer
      ensures layer.Valid() && layer.listeners == old(layer.listeners)
      ensures !state.isLoading
      ensures var c := CheckRegistration(d);
        (c.Failure? ==> (r == Failure(c.error) && state == old(state).(isLoading := false, error := Some(c.error))
          && unchanged(layer)))
        && (c.Success? ==> (r == Success(())
          && var w := LocalAuth.RegisterAsWritten(c.value.0, Some(c.value.1), now);
          layer.GetSnapshot() == w.1 && state == FromSnapshot(w.0)
          && layer.calls == old(layer.calls) + ListenerSet.Notify(layer.listeners, w.0)))
    {
      state := state.(error := None, isLoading := true);
      var c := CheckRegistration(d);
      if c.Failure? {
        state := state.(error := Some(c.error), isLoading := false);
        return Failure(c.error);
      }
      layer.Register(c.value.0, d.password, Some(c.value.1), now);
      state := FromSnapshot(LocalAuth.RegisterAsWritten(c.value.0, Some(c.value.1), now).0);
      state := state.(isLoading := false);
      r := Success(());
    }

    /** `logout`: never fails; afterwards nobody is signed in and nothing is loading. */
    method Logout()
      requires layer.Valid()
      modifies this, layer
      ensures layer.Valid() && layer.listeners == old(layer.listeners)
      ensures state == SignedOut
      ensures layer.GetSnapshot() == Snapshot(None, None)
      ensures layer.calls == old(layer.calls) + ListenerSet.Notify(layer.listeners, Snapshot(None, None))
    {
      state := state.(isLoading := true);
      layer.Logout();
      state := FromSnapshot(layer.GetSnapshot());
      state := state.(isLoading := false);
      SignedOutSnapshot();
    }
  }
}
