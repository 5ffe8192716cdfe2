/** Seller registration: the five-rule password checker and the chain of
    checks that runs before an account is created. */
module RegisterForm {
  import opened Common

  // ---------------------------------------------------------------------------
  // Password rules

  datatype Rule = MinLength | Uppercase | Lowercase | Digit | Special

  const SpecialChars: string := "!@#$%^&*(),.?\":{}|<>_"

  function Message(r: Rule): string
  {
    match r
    case MinLength => "Password must be at least 8 characters long."
    case Uppercase => "Password must contain at least one uppercase letter."
    case Lowercase => "Password must contain at least one lowercase letter."
    case Digit => "Password must contain at least one number."
    case Special => "Password must contain at least one special character."
  }

  predicate HasCharIn(s: string, lo: char, hi: char)
  {
    exists i :: 0 <= i < |s| && lo <= s[i] <= hi
  }

  predicate HasSpecial(s: string)
  {
    exists i :: 0 <= i < |s| && s[i] in SpecialChars
  }

  /** `pwd` passes rule `r` (the regular-expression test or the length test).
      The length is JavaScript's `length`, counted in UTF-16 code units; the
      letter, digit and special-character classes are all ASCII, so testing
      them on characters agrees with testing them on code units. */
  predicate Satisfies(pwd: string, r: Rule)
  {
    match r
    case MinLength => Utf16Length(pwd) >= 8
    case Uppercase => HasCharIn(pwd, 'A', 'Z')
    case Lowercase => HasCharIn(pwd, 'a', 'z')
    case Digit => HasCharIn(pwd, '0', '9')
    case Special => HasSpecial(pwd)
  }

  /** A password every rule accepts. */
  predicate Strong(pwd: string)
  {
    Utf16Length(pwd) >= 8 && HasCharIn(pwd, 'A', 'Z') && HasCharIn(pwd, 'a', 'z') && HasCharIn(pwd, '0', '9')
    && HasSpecial(pwd)
  }

  /** The rules in the order the checker applies them. */
  const Rules: seq<Rule> := [MinLength, Uppercase, Lowercase, Digit, Special]

  /** Check the rules of `rules` one after another, adding each failed one to `failed`. */
  function Collect(pwd: string, failed: seq<Rule>, rules: seq<Rule>): seq<Rule>
    decreases |rules|
  {
    if rules == [] then failed
    else Collect(pwd, if Satisfies(pwd, rules[0]) then failed else failed + [rules[0]], rules[1..])
  }

  /** The rules `pwd` fails, in the order they are checked. */
  function FailedRules(pwd: string): seq<Rule>
  {
    Collect(pwd, [], Rules)
  }

  /** The message of each rule, in order. */
  function Messages(rules: seq<Rule>): (r: seq<string>)
    ensures |r| == |rules|
    ensures forall i :: 0 <= i < |rules| ==> r[i] == Message(rules[i])
  {
    if rules == [] then [] else [Message(rules[0])] + Messages(rules[1..])
  }

  /** What `validatePassword` returns. */
  function PasswordErrors(pwd: string): seq<string>
  {
    Messages(FailedRules(pwd))
  }

  lemma CollectStep(pwd: string, failed: seq<Rule>, r: Rule, rest: seq<Rule>)
    ensures Collect(pwd, failed, [r] + rest) == Collect(pwd, if Satisfies(pwd, r) then failed else failed + [r], rest)
  {
    assert ([r] + rest)[1..] == rest;
  }

  lemma MessagesSnoc(rules: seq<Rule>, r: Rule)
    ensures Messages(rules + [r]) == Messages(rules) + [Message(r)]
  {
  }

  /** `validatePassword`: push one message per failed check, in order. */
  method ValidatePassword(pwd: string) returns (errors: seq<string>)
    ensures errors == PasswordErrors(pwd)
  {
    errors := [];
    ghost var failed: seq<Rule> := [];
    assert Rules == [MinLength] + ([Uppercase] + ([Lowercase] + ([Digit] + ([Special] + []))));
    CollectStep(pwd, failed, MinLength, [Uppercase] + ([Lowercase] + ([Digit] + ([Special] + []))));
    if Utf16Length(pwd) < 8 {
      MessagesSnoc(failed, MinLength);
      errors, failed := errors + [Message(MinLength)], failed + [MinLength];
    }
    CollectStep(pwd, failed, Uppercase, [Lowercase] + ([Digit] + ([Special] + [])));
    if !HasCharIn(pwd, 'A', 'Z') {
      MessagesSnoc(failed, Uppercase);
      errors, failed := errors + [Message(Uppercase)], failed + [Uppercase];
    }
    CollectStep(pwd, failed, Lowercase, [Digit] + ([Special] + []));
    if !HasCharIn(pwd, 'a', 'z') {
      MessagesSnoc(failed, Lowercase);
      errors, failed := errors + [Message(Lowercase)], failed + [Lowercase];
    }
    CollectStep(pwd, failed, Digit, [Special] + []);
    if !HasCharIn(pwd, '0', '9') {
      MessagesSnoc(failed, Digit);
      errors, failed := errors + [Message(Digit)], failed + [Digit];
    }
    CollectStep(pwd, failed, Special, []);
    if !HasSpecial(pwd) {
      MessagesSnoc(failed, Special);
      errors, failed := errors + [Message(Special)], failed + [Special];
    }
  }

  /** The failing rules of `rules`, in order (the reference definition). */
  function Failing(pwd: string, rules: seq<Rule>): seq<Rule>
  {
    if rules == [] then []
    else if Satisfies(pwd, rules[0]) then Failing(pwd, rules[1..])
    else [rules[0]] + Failing(pwd, rules[1..])
  }

  /** Checking one rule after another collects exactly the failing rules. */
  lemma {:induction false} CollectIsFailing(pwd: string, failed: seq<Rule>, rules: seq<Rule>)
    ensures Collect(pwd, failed, rules) == failed + Failing(pwd, rules)
    decreases |rules|
  {
    if rules == [] {
      assert failed + [] == failed;
    } else {
      var next := if Satisfies(pwd, rules[0]) then failed else failed + [rules[0]];
      CollectIsFailing(pwd, next, rules[1..]);
      if !Satisfies(pwd, rules[0]) {
        assert (failed + [rules[0]]) + Failing(pwd, rules[1..]) == failed + ([rules[0]] + Failing(pwd, rules[1..]));
      }
    }
  }

  lemma {:induction false} FailingEmptyIff(pwd: string, rules: seq<Rule>)
    ensures Failing(pwd, rules) == [] <==> forall r :: r in rules ==> Satisfies(pwd, r)
  {
    if rules != [] {
      FailingEmptyIff(pwd, rules[1..]);
      assert forall r :: r in rules <==> r == rules[0] || r in rules[1..];
    }
  }

  lemma {:induction false} FailingIsSubseq(pwd: string, rules: seq<Rule>)
    ensures IsSubseq(Failing(pwd, rules), rules)
  {
    if rules != [] {
      FailingIsSubseq(pwd, rules[1..]);
      var rest := Failing(pwd, rules[1..]);
      if !Satisfies(pwd, rules[0]) {
        assert ([rules[0]] + rest)[1..] == rest;
      }
    }
  }

  lemma {:induction false} RuleInFailing(pwd: string, rules: seq<Rule>, r: Rule)
    ensures r in Failing(pwd, rules) <==> r in rules && !Satisfies(pwd, r)
  {
    if rules != [] {
      RuleInFailing(pwd, rules[1..], r);
      assert r in rules <==> r == rules[0] || r in rules[1..];
    }
  }

  /** The checker reports exactly the failing rules, in rule order. */
  lemma FailedRulesAreFailing(pwd: string)
    ensures FailedRules(pwd) == Failing(pwd, Rules)
  {
    CollectIsFailing(pwd, [], Rules);
    assert [] + Failing(pwd, Rules) == Failing(pwd, Rules);
  }

  /** No errors exactly when the password is strong, in both directions. */
  lemma PasswordErrorsEmptyIffStrong(pwd: string)
    ensures PasswordErrors(pwd) == [] <==> Strong(pwd)
  {
    FailedRulesAreFailing(pwd);
    FailingEmptyIff(pwd, Rules);
    if Strong(pwd) {
      forall r | r in Rules ensures Satisfies(pwd, r) { }
    } else {
      var r := if Utf16Length(pwd) < 8 then MinLength else if !HasCharIn(pwd, 'A', 'Z') then Uppercase
               else if !HasCharIn(pwd, 'a', 'z') then Lowercase else if !HasCharIn(pwd, '0', '9') then Digit
               else Special;
      assert r in Rules && !Satisfies(pwd, r);
    }
  }

  /** Characters outside the Basic Multilingual Plane count twice towards the
      minimum length, as in JavaScript: six characters, two of them emoji,
      make a password of length 8 that passes every rule. */
  lemma AstralCharactersCountTwice()
    ensures |"Aa1!\U{1F600}\U{1F600}"| == 6
    ensures PasswordErrors("Aa1!\U{1F600}\U{1F600}") == []
  {
    var pwd := "Aa1!\U{1F600}\U{1F600}";
    assert Utf16Length(pwd) == 8 by {
      assert pwd[1..][1..][1..][1..][1..][1..] == [];
    }
    assert pwd[0] == 'A' && pwd[1] == 'a' && pwd[2] == '1' && pwd[3] == '!';
    assert pwd[3] in SpecialChars;
    PasswordErrorsEmptyIffStrong(pwd);
  }

  lemma SomeErrorIffWeak(pwd: string)
    ensures |PasswordErrors(pwd)| > 0 <==> !Strong(pwd)
  {
    PasswordErrorsEmptyIffStrong(pwd);
  }

  lemma {:induction false} MessagesKeepSubseq(s: seq<Rule>, t: seq<Rule>)
    requires IsSubseq(s, t)
    ensures IsSubseq(Messages(s), Messages(t))
    decreases |t|
  {
    if s != [] {
      if s[0] == t[0] && IsSubseq(s[1..], t[1..]) {
        MessagesKeepSubseq(s[1..], t[1..]);
      } else {
        MessagesKeepSubseq(s, t[1..]);
      }
    }
  }

  /** Different rules have different messages. */
  lemma MessageInjective(a: Rule, b: Rule)
    requires Message(a) == Message(b)
    ensures a == b
  {
  }

  /** Each rule contributes its message exactly when it fails, at most once, and
      the messages keep rule order, so there are at most five. */
  lemma PasswordErrorsShape(pwd: string)
    ensures |PasswordErrors(pwd)| <= 5
    ensures IsSubseq(PasswordErrors(pwd), Messages(Rules))
    ensures forall r :: Message(r) in PasswordErrors(pwd) <==> !Satisfies(pwd, r)
  {
    var failed := FailedRules(pwd);
    FailedRulesAreFailing(pwd);
    FailingIsSubseq(pwd, Rules);
    MessagesKeepSubseq(failed, Rules);
    SubseqNoLonger(failed, Rules);
    forall r ensures Message(r) in PasswordErrors(pwd) <==> !Satisfies(pwd, r) {
      MessageReportedIffFails(pwd, r);
    }
  }

  lemma MessageReportedIffFails(pwd: string, r: Rule)
    ensures Message(r) in PasswordErrors(pwd) <==> !Satisfies(pwd, r)
  {
    FailedRulesAreFailing(pwd);
    RuleInFailing(pwd, Rules, r);
    MessageInIffRuleIn(FailedRules(pwd), r);
  }

  /** A message is among the messages of some rules exactly when its rule is among them. */
  lemma MessageInIffRuleIn(rules: seq<Rule>, r: Rule)
    ensures Message(r) in Messages(rules) <==> r in rules
  {
    var msgs := Messages(rules);
    if r in rules {
      var i :| 0 <= i < |rules| && rules[i] == r;
      assert msgs[i] == Message(r);
    }
    if Message(r) in msgs {
      var i :| 0 <= i < |msgs| && msgs[i] == Message(r);
      MessageInjective(rules[i], r);
    }
  }


  // ---------------------------------------------------------------------------
  // Registration

  const DefaultContactCode: string := "+256"
  const ErrAuthUnavailable: string := "Firebase authentication service is not available."
  const ErrMissingFields: string := "All fields are required."
  const ErrPassword: string := "Please fix the password errors."
  const ErrLeadingZero: string := "Please enter the phone number without the leading zero (e.g., 772123456)."

  /** The seller fields written for a new account (the uid, e-mail and creation
      time come from the authentication service and the clock). */
  datatype SellerRecord = SellerRecord(storeName: string, whatsapp: string)

  datatype Outcome =
    | AuthUnavailable
    | MissingFields
    | PasswordInvalid(errors: seq<string>)
    | LeadingZero
    | Proceed(record: SellerRecord)

  /** The error text each rejection shows; a successful registration shows none. */
  function ErrorText(o: Outcome): string
  {
    match o
    case AuthUnavailable => ErrAuthUnavailable
    case MissingFields => ErrMissingFields
    case PasswordInvalid(_) => ErrPassword
    case LeadingZero => ErrLeadingZero
    case Proceed(_) => ""
  }

  /** The checks of `handleRegister` in order; the first failure decides. */
  function Decide(authAvailable: bool, email: string, password: string, storeName: string,
                  contactCode: string, contactNumber: string): Outcome
  {
    if !authAvailable then AuthUnavailable
    else if email == "" || password == "" || storeName == "" || contactNumber == "" then MissingFields
    else if |PasswordErrors(password)| > 0 then PasswordInvalid(PasswordErrors(password))
    else if StartsWithZero(contactNumber) then LeadingZero
    else Proceed(SellerRecord(storeName, contactCode + contactNumber))
  }

  /** An account is created exactly when every check passes, and it stores the
      store name and the code followed by the number. */
  lemma DecideAcceptsExactly(authAvailable: bool, email: string, password: string, storeName: string,
                             contactCode: string, contactNumber: string)
    ensures var o := Decide(authAvailable, email, password, storeName, contactCode, contactNumber);
            && (o.Proceed? <==> authAvailable && email != "" && password != "" && storeName != ""
                                && contactNumber != "" && Strong(password) && !StartsWithZero(contactNumber))
            && (o.Proceed? ==> o.record == SellerRecord(storeName, contactCode + contactNumber))
  {
    PasswordErrorsEmptyIffStrong(password);
  }

  /** Each rejection is reported only when every earlier check passed. */
  lemma DecideFirstFailure(authAvailable: bool, email: string, password: string, storeName: string,
                           contactCode: string, contactNumber: string)
    ensures var o := Decide(authAvailable, email, password, storeName, contactCode, contactNumber);
            && (o == AuthUnavailable <==> !authAvailable)
            && (o == MissingFields <==>
                  authAvailable && (email == "" || password == "" || storeName == "" || contactNumber == ""))
            && (o.PasswordInvalid? <==> authAvailable && email != "" && password != "" && storeName != ""
                                        && contactNumber != "" && !Strong(password))
            && (o == LeadingZero <==> authAvailable && email != "" && password != "" && storeName != ""
                                      && contactNumber != "" && Strong(password) && StartsWithZero(contactNumber))
  {
    PasswordErrorsEmptyIffStrong(password);
  }

  /** A number with a leading zero is never accepted. */
  lemma LeadingZeroRejected(authAvailable: bool, email: string, password: string, storeName: string,
                            contactCode: string, contactNumber: string)
    requires StartsWithZero(contactNumber)
    ensures !Decide(authAvailable, email, password, storeName, contactCode, contactNumber).Proceed?
  {
  }

  /** The registration form's state. */
  class Registration {
    var email: string
    var password: string
    var storeName: string
    var contactCode: string
    var contactNumber: string
    var error: string
    var passwordErrors: seq<string>
    var loading: bool

    constructor ()
      ensures email == "" && password == "" && storeName == "" && contactNumber == ""
      ensures contactCode == DefaultContactCode
      ensures error == "" && passwordErrors == [] && !loading
    {
      email, password, storeName, contactNumber := "", "", "", "";
      contactCode := DefaultContactCode;
      error, passwordErrors, loading := "", [], false;
    }

    /** The submit button is disabled while loading or while the password has errors. */
    predicate SubmitDisabled()
      reads this
    {
      loading || |passwordErrors| > 0
    }

    /** `handlePasswordChange`: store the password and re-run the checker. */
    method HandlePasswordChange(newPassword: string)
      modifies this
      ensures password == newPassword && passwordErrors == PasswordErrors(newPassword)
      ensures email == old(email) && storeName == old(storeName) && contactCode == old(contactCode)
      ensures contactNumber == old(contactNumber) && error == old(error) && loading == old(loading)
      ensures SubmitDisabled() <==> loading || !Strong(newPassword)
    {
      var errors := ValidatePassword(newPassword);
      SomeErrorIffWeak(newPassword);
      password, passwordErrors := newPassword, errors;
    }

    /** `handleRegister`, with the account creation and the record write taken
        to succeed; `authAvailable` stands for the presence of the auth service. */
    method HandleRegister(authAvailable: bool) returns (outcome: Outcome)
      modifies this
      ensures outcome == Decide(authAvailable, email, password, storeName, contactCode, contactNumber)
      ensures error == ErrorText(outcome) && !loading
      ensures passwordErrors == if outcome.PasswordInvalid? then outcome.errors else old(passwordErrors)
      ensures email == old(email) && password == old(password) && storeName == old(storeName)
      ensures contactCode == old(contactCode) && contactNumber == old(contactNumber)
    {
      error := "";
      loading := true;
      if !authAvailable {
        error := ErrAuthUnavailable;
        loading := false;
        return AuthUnavailable;
      }
      if email == "" || password == "" || storeName == "" || contactNumber == "" {
        error := ErrMissingFields;
        loading := false;
        return MissingFields;
      }
      var currentPasswordErrors := ValidatePassword(password);
      if |currentPasswordErrors| > 0 {
        passwordErrors := currentPasswordErrors;
        error := ErrPassword;
        loading := false;
        return PasswordInvalid(currentPasswordErrors);
      }
      if StartsWithZero(contactNumber) {
        error := ErrLeadingZero;
        loading := false;
        return LeadingZero;
      }
      var fullPhoneNumber := contactCode + contactNumber;
      outcome := Proceed(SellerRecord(storeName, fullPhoneNumber));
      loading := false;
    }
  }
}
