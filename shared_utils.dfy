/**
 * The string helpers of the shared library: truncation, order and invoice
 * numbers, e-mail and card masking, and the password strength check.
 */
module SharedUtils {
  import opened Wrappers
  import opened JsText

  // ----- truncateText -----

  /** `truncateText(text, maxLength)`. */
  function TruncateText(text: string, maxLength: int): (r: string)
    ensures |text| <= maxLength ==> r == text
    ensures |text| > maxLength >= 3 ==> r == text[..maxLength - 3] + "..." && |r| == maxLength
  {
    if |text| <= maxLength then text else Slice(text, 0, maxLength - 3) + "..."
  }

  /** Truncating twice to the same length of at least 3 is truncating once. */
  lemma TruncateIdempotent(text: string, maxLength: int)
    requires maxLength >= 3
    ensures TruncateText(TruncateText(text, maxLength), maxLength) == TruncateText(text, maxLength)
  {
  }

  /**
   * Below 3 the `slice(0, maxLength - 3)` end is negative and counts from the
   * end of the text, so the result is longer than `maxLength`.
   */
  lemma TruncateShortLimit()
    ensures TruncateText("hello", 2) == "hell..."
  {
    assert Slice("hello", 0, -1) == "hell";
  }

  // ----- order numbers -----

  datatype OrderNumber = OrderNumber(prefix: string, number: nat)

  /** `generateOrderNumber(prefix = 'CMD', number)`: the default replaces only a missing prefix. */
  function GenerateOrderNumber(prefix: Option<string>, number: int): (r: string)
    ensures var p := prefix.GetOr("CMD");
      && |r| >= |p| + 6 && r[..|p|] == p
      && (number >= 0 ==> AllDigits(r[|p|..]))
  {
    var p := prefix.GetOr("CMD");
    var digits := PadStart(IntToString(number), 6, '0');
    assert (p + digits)[..|p|] == p && (p + digits)[|p|..] == digits;
    p + digits
  }

  /** Length of the leading run of `[A-Z]`. */
  function UpperRun(s: string): (k: nat)
    ensures k <= |s| && AllUpper(s[..k])
    ensures k < |s| ==> !IsUpper(s[k])
  {
    if s == [] || !IsUpper(s[0]) then 0
    else
      var k := UpperRun(s[1..]) + 1;
      assert s[..k] == [s[0]] + s[1..][..k - 1];
      k
  }

  /** `/^([A-Z]+)(\d+)$/`, with the split point it matches at. */
  predicate MatchesAt(s: string, k: int) {
    1 <= k < |s| && AllUpper(s[..k]) && AllDigits(s[k..])
  }

  const InvalidOrderNumber := "Invalid order number format"

  /** `parseOrderNumber(orderNumber)`; the thrown error is the failure. */
  function ParseOrderNumber(s: string): (r: Result<OrderNumber, string>)
    ensures r.Failure? ==> r.error == InvalidOrderNumber
    ensures r.Success? ==> MatchesAt(s, |r.value.prefix|) && r.value.prefix == s[..|r.value.prefix|]
    ensures r.Success? ==> r.value.number == DigitsValue(s[|r.value.prefix|..])
  {
    var k := UpperRun(s);
    if 1 <= k < |s| && AllDigits(s[k..]) then Success(OrderNumber(s[..k], DigitsValue(s[k..])))
    else Failure(InvalidOrderNumber)
  }

  /** The parser accepts exactly the strings the pattern matches. */
  lemma ParseMatchesPattern(s: string)
    ensures ParseOrderNumber(s).Success? <==> exists k :: MatchesAt(s, k)
  {
    if k :| MatchesAt(s, k) {
      var j := UpperRun(s);
      if j < k {
        assert s[..k][j] == s[j];
      } else if j > k {
        assert s[..j][k] == s[k] && s[k..][0] == s[k];
      }
    }
  }

  /**
   * Parsing a generated order number gives back the prefix and the number
   * when the prefix is upper-case letters and the number is not negative.
   */
  lemma {:induction false} OrderNumberRoundTrip(p: string, n: nat)
    requires p != [] && AllUpper(p)
    ensures ParseOrderNumber(GenerateOrderNumber(Some(p), n)) == Success(OrderNumber(p, n))
  {
    var digits := PadStart(NatToString(n), 6, '0');
    var s := p + digits;
    PaddedRoundTrip(n, 6);
    assert s == GenerateOrderNumber(Some(p), n);
    assert s[..|p|] == p && s[|p|..] == digits;
    assert !IsUpper(s[|p|]) by {
      assert s[|p|] == digits[0];
    }
    UpperRunOfPrefix(s, |p|);
  }

  lemma UpperRunOfPrefix(s: string, k: nat)
    requires k < |s| && AllUpper(s[..k]) && !IsUpper(s[k])
    ensures UpperRun(s) == k
  {
  }

  // ----- invoice numbers -----

  /**
   * `generateInvoiceNumber(prefix = 'INV', date, sequence)`, with the date's
   * full year and zero-based month given as numbers.
   */
  function GenerateInvoiceNumber(prefix: Option<string>, year: int, month0: int, sequence: int): (r: string) {
    prefix.GetOr("INV") + IntToString(year) + PadStart(IntToString(month0 + 1), 2, '0')
      + PadStart(IntToString(sequence), 4, '0')
  }

  /**
   * For a four-digit year, a month index 0..11 and a sequence below 10000 the
   * invoice number is the prefix and then exactly ten digits: the year, the
   * month 01..12 and the sequence, each reading back as itself.
   */
  lemma {:induction false} InvoiceNumberFields(p: string, year: nat, month0: nat, sequence: nat)
    requires 1000 <= year <= 9999 && month0 <= 11 && sequence <= 9999
    ensures var r := GenerateInvoiceNumber(Some(p), year, month0, sequence);
      var q := |p|;
      && |r| == q + 10 && r[..q] == p
      && AllDigits(r[q..q + 4]) && DigitsValue(r[q..q + 4]) == year
      && AllDigits(r[q + 4..q + 6]) && DigitsValue(r[q + 4..q + 6]) == month0 + 1
      && AllDigits(r[q + 6..]) && DigitsValue(r[q + 6..]) == sequence
  {
    var y := NatToString(year);
    var m := PadStart(NatToString(month0 + 1), 2, '0');
    var sq := PadStart(NatToString(sequence), 4, '0');
    InvoiceFieldDigits(year, month0, sequence);
    InvoiceNumberParts(p, year, month0, sequence);
    DigitFieldsOfConcat(p, y, m, sq, year, month0 + 1, sequence);
  }

  /** With non-negative fields the invoice number is the prefix and the printed fields. */
  lemma InvoiceNumberParts(p: string, year: nat, month0: nat, sequence: nat)
    ensures GenerateInvoiceNumber(Some(p), year, month0, sequence) ==
      p + NatToString(year) + PadStart(NatToString(month0 + 1), 2, '0') + PadStart(NatToString(sequence), 4, '0')
  {
    assert IntToString(year) == NatToString(year);
    assert IntToString(month0 + 1) == NatToString(month0 + 1);
    assert IntToString(sequence) == NatToString(sequence);
  }

  /** Four, two and four digit fields after a prefix sit at fixed offsets. */
  lemma DigitFieldsOfConcat(p: string, y: string, m: string, sq: string, year: nat, month: nat, sequence: nat)
    requires |y| == 4 && |m| == 2 && |sq| == 4
    requires AllDigits(y) && DigitsValue(y) == year
    requires AllDigits(m) && DigitsValue(m) == month
    requires AllDigits(sq) && DigitsValue(sq) == sequence
    ensures var r := p + y + m + sq;
      var q := |p|;
      && |r| == q + 10 && r[..q] == p
      && AllDigits(r[q..q + 4]) && DigitsValue(r[q..q + 4]) == year
      && AllDigits(r[q + 4..q + 6]) && DigitsValue(r[q + 4..q + 6]) == month
      && AllDigits(r[q + 6..]) && DigitsValue(r[q + 6..]) == sequence
  {
    ConcatFields(p, y, m, sq);
  }

  /** The three numeric fields print as 4, 2 and 4 digits that read back as the numbers. */
  lemma InvoiceFieldDigits(year: nat, month0: nat, sequence: nat)
    requires 1000 <= year <= 9999 && month0 <= 11 && sequence <= 9999
    ensures var y := NatToString(year);
      var m := PadStart(NatToString(month0 + 1), 2, '0');
      var sq := PadStart(NatToString(sequence), 4, '0');
      && |y| == 4 && |m| == 2 && |sq| == 4
      && AllDigits(y) && DigitsValue(y) == year
      && AllDigits(m) && DigitsValue(m) == month0 + 1
      && AllDigits(sq) && DigitsValue(sq) == sequence
  {
    assert Pow10(1) == 10 && Pow10(2) == 100 && Pow10(3) == 1000 && Pow10(4) == 10000;
    NatToStringLength(year, 4);
    NatToStringLength(month0 + 1, 2);
    NatToStringLength(sequence, 4);
    NatToStringRoundTrip(year);
    PaddedRoundTrip(month0 + 1, 2);
    PaddedRoundTrip(sequence, 4);
  }

  lemma ConcatFields(p: string, a: string, b: string, c: string)
    ensures var r := p + a + b + c;
      var q := |p|;
      && r[..q] == p && r[q..q + |a|] == a && r[q + |a|..q + |a| + |b|] == b && r[q + |a| + |b|..] == c
  {
  }

  // ----- masking -----

  /** `email.split('@')[0]`. */
  function LocalPart(email: string): (r: string) {
    match IndexOfChar(email, '@')
    case None => email
    case Some(i) => email[..i]
  }

  /** `email.split('@')[1]` as a template inserts it: "undefined" when there is no '@'. */
  function DomainPart(email: string): (r: string) {
    match IndexOfChar(email, '@')
    case None => "undefined"
    case Some(i) =>
      var rest := email[i + 1..];
      match IndexOfChar(rest, '@')
      case None => rest
      case Some(j) => rest[..j]
  }

  /** `maskEmail(email)`. */
  function MaskEmail(email: string): (r: string)
    ensures var local := LocalPart(email);
      && (|local| <= 2 ==> r == email)
      && (|local| > 2 ==>
            && |r| == |local| + 1 + |DomainPart(email)|
            && r[0] == local[0] && r[|local| - 1] == local[|local| - 1]
            && (forall i | 1 <= i < |local| - 1 :: r[i] == '*')
            && r[|local|] == '@' && r[|local| + 1..] == DomainPart(email))
  {
    var local := LocalPart(email);
    if |local| <= 2 then email
    else [local[0]] + Repeat('*', |local| - 2) + SliceFrom(local, -1) + "@" + DomainPart(email)
  }

  /** On an address with exactly one '@' masking keeps the length, the domain and the local part's ends. */
  lemma MaskEmailOneAt(local: string, domain: string)
    requires |local| > 2 && '@' !in local && '@' !in domain
    ensures var r := MaskEmail(local + "@" + domain);
      && |r| == |local| + 1 + |domain|
      && r[|local|..] == "@" + domain
      && r[0] == local[0] && r[|local| - 1] == local[|local| - 1]
  {
    var email := local + "@" + domain;
    assert email[|local|] == '@' && email[..|local|] == local;
    assert IndexOfChar(email, '@') == Some(|local|);
    assert email[|local| + 1..] == domain;
    var r := MaskEmail(email);
    assert r[|local|..] == "@" + domain;
  }

  /** Without an '@' the domain becomes the text "undefined". */
  lemma MaskEmailNoAt()
    ensures MaskEmail("abc") == "a*c@undefined"
  {
    assert IndexOfChar("abc", '@').None?;
  }

  /** `\d(?=\d{4})`: a digit with four digits right after it. */
  predicate MaskedAt(card: string, i: int)
    requires 0 <= i < |card|
  {
    i + 4 < |card| && IsDigit(card[i]) && IsDigit(card[i + 1]) && IsDigit(card[i + 2])
      && IsDigit(card[i + 3]) && IsDigit(card[i + 4])
  }

  /** `maskCreditCard(cardNumber)`. */
  function MaskCreditCard(card: string): (r: string)
    ensures |r| == |card|
    ensures forall i | 0 <= i < |card| :: r[i] == if MaskedAt(card, i) then '*' else card[i]
  {
    seq(|card|, i requires 0 <= i < |card| => if MaskedAt(card, i) then '*' else card[i])
  }

  /** On a card number of digits only, all but the last four become '*'. */
  lemma MaskAllDigits(card: string)
    requires |card| >= 4 && AllDigits(card)
    ensures var r := MaskCreditCard(card);
      && (forall i | 0 <= i < |card| - 4 :: r[i] == '*')
      && r[|card| - 4..] == card[|card| - 4..]
  {
  }

  /** Masking an already masked number changes nothing. */
  lemma {:induction false} MaskCreditCardIdempotent(card: string)
    ensures MaskCreditCard(MaskCreditCard(card)) == MaskCreditCard(card)
  {
    var r := MaskCreditCard(card);
    forall i | 0 <= i < |r|
      ensures !MaskedAt(r, i)
    {
      if i + 4 < |card| {
        if MaskedAt(card, i) {
          assert r[i] == '*';
        } else {
          var d :| 0 <= d <= 4 && !IsDigit(card[i + d]);
          assert !IsDigit(r[i + d]);
        }
      }
    }
  }

  // ----- validatePassword -----

  /** The five checks of `validatePassword`, in the order it applies them. */
  datatype PasswordRule = MinLength | HasUpper | HasLower | HasDigit | HasSpecial

  const PasswordRules: seq<PasswordRule> := [MinLength, HasUpper, HasLower, HasDigit, HasSpecial]

  /** The characters of the special-character class. */
  const SpecialChars: string := "!@#$%^&*()_+-=[]{};':\"\\|,.<>/?"

  predicate SomeUpper(s: string) { exists i | 0 <= i < |s| :: IsUpper(s[i]) }
  predicate SomeLower(s: string) { exists i | 0 <= i < |s| :: IsLower(s[i]) }
  predicate SomeDigit(s: string) { exists i | 0 <= i < |s| :: IsDigit(s[i]) }
  predicate SomeSpecial(s: string) { exists i | 0 <= i < |s| :: s[i] in SpecialChars }

  predicate Satisfies(password: string, rule: PasswordRule) {
    match rule
    case MinLength => |password| >= 8
    case HasUpper => SomeUpper(password)
    case HasLower => SomeLower(password)
    case HasDigit => SomeDigit(password)
    case HasSpecial => SomeSpecial(password)
  }

  function RuleMessage(rule: PasswordRule): (r: string) {
    match rule
    case MinLength => "Password must be at least 8 characters long"
    case HasUpper => "Password must contain at least one uppercase letter"
    case HasLower => "Password must contain at least one lowercase letter"
    case HasDigit => "Password must contain at least one number"
    case HasSpecial => "Password must contain at least one special character"
  }

  /** The messages of the rules `password` breaks, in rule order. */
  function Violations(password: string, rules: seq<PasswordRule>): (r: seq<string>)
    ensures |r| <= |rules|
    ensures forall rule | rule in rules && !Satisfies(password, rule) :: RuleMessage(rule) in r
    ensures (forall rule | rule in rules :: Satisfies(password, rule)) ==> r == []
  {
    if rules == [] then []
    else
      var init := rules[..|rules| - 1];
      var last := rules[|rules| - 1];
      assert forall rule | rule in rules :: rule in init || rule == last;
      assert forall rule | rule in init :: rule in rules;
      Violations(password, init) + (if Satisfies(password, last) then [] else [RuleMessage(last)])
  }

  /** Checking one more rule appends its message when it fails. */
  lemma ViolationsStep(password: string, rules: seq<PasswordRule>, k: nat)
    requires k < |rules|
    ensures Violations(password, rules[..k + 1]) == Checked(password, rules[k], Violations(password, rules[..k]))
  {
    assert rules[..k + 1][..k] == rules[..k];
  }

  /** The error list after one `if (!check) errors.push(message)` step. */
  function Checked(password: string, rule: PasswordRule, errors: seq<string>): (r: seq<string>) {
    errors + (if Satisfies(password, rule) then [] else [RuleMessage(rule)])
  }

  /** Five checks applied one after the other build `Violations` over those five rules. */
  lemma ViolationsOfFive(password: string, rules: seq<PasswordRule>)
    requires |rules| == 5
    ensures Violations(password, rules) ==
      Checked(password, rules[4], Checked(password, rules[3], Checked(password, rules[2],
        Checked(password, rules[1], Checked(password, rules[0], [])))))
  {
    var p := password;
    calc {
      Violations(p, rules);
      { assert rules[..5] == rules; }
      Violations(p, rules[..5]);
      { ViolationsStep(p, rules, 4); }
      Checked(p, rules[4], Violations(p, rules[..4]));
      { ViolationsStep(p, rules, 3); }
      Checked(p, rules[4], Checked(p, rules[3], Violations(p, rules[..3])));
      { ViolationsStep(p, rules, 2); }
      Checked(p, rules[4], Checked(p, rules[3], Checked(p, rules[2], Violations(p, rules[..2]))));
      { ViolationsStep(p, rules, 1); }
      Checked(p, rules[4], Checked(p, rules[3], Checked(p, rules[2], Checked(p, rules[1], Violations(p, rules[..1])))));
      { ViolationsStep(p, rules, 0); assert rules[..0] == []; }
      Checked(p, rules[4], Checked(p, rules[3], Checked(p, rules[2], Checked(p, rules[1], Checked(p, rules[0], [])))));
    }
  }

  /** One of the five `if (!check) errors.push(message)` steps. */
  method PushIfBroken(password: string, rule: PasswordRule, errors: seq<string>) returns (out: seq<string>)
    ensures out == Checked(password, rule, errors)
    ensures |out| <= |errors| + 1 && out[..|errors|] == errors
  {
    out := errors;
    if !Satisfies(password, rule) {
      out := out + [RuleMessage(rule)];
    }
  }

  /**
   * `validatePassword(password)`: one message per failed check, in check
   * order, and valid exactly when no check failed.
   */
  method ValidatePassword(password: string) returns (isValid: bool, errors: seq<string>)
    ensures errors == Violations(password, PasswordRules)
    ensures isValid <==> errors == []
    ensures isValid <==> forall rule :: Satisfies(password, rule)
    ensures |errors| <= 5
  {
    errors := [];
    errors := PushIfBroken(password, MinLength, errors);
    errors := PushIfBroken(password, HasUpper, errors);
    errors := PushIfBroken(password, HasLower, errors);
    errors := PushIfBroken(password, HasDigit, errors);
    errors := PushIfBroken(password, HasSpecial, errors);
    ViolationsOfFive(password, PasswordRules);
    isValid := |errors| == 0;
    NoViolationsMeansAllSatisfied(password);
  }

  lemma NoViolationsMeansAllSatisfied(password: string)
    ensures Violations(password, PasswordRules) == [] <==> forall rule :: Satisfies(password, rule)
  {
    AllRulesListed();
    var r := Violations(password, PasswordRules);
    if r != [] {
      assert r[0] in r;
    }
  }

  lemma AllRulesListed()
    ensures forall rule :: rule in PasswordRules
  {
    forall rule
      ensures rule in PasswordRules
    {
      match rule
      case MinLength => assert PasswordRules[0] == rule;
      case HasUpper => assert PasswordRules[1] == rule;
      case HasLower => assert PasswordRules[2] == rule;
      case HasDigit => assert PasswordRules[3] == rule;
      case HasSpecial => assert PasswordRules[4] == rule;
    }
  }

  /** A password with each kind of character and at least 8 of them has no violation. */
  lemma StrongPasswordValid()
    ensures Violations("Passw0rd!", PasswordRules) == []
  {
    var p := "Passw0rd!";
    assert IsUpper(p[0]) && IsLower(p[1]) && IsDigit(p[5]) && p[8] == SpecialChars[0];
    assert SomeUpper(p) && SomeLower(p) && SomeDigit(p) && SomeSpecial(p);
  }
}
