/** The working copy of the extracted Form 16 data: a dictionary from field name to whatever value
    the language model's JSON (or a form widget) put there, and the `int(float(x))` coercion that
    every numeric reader applies to it. */
module Fields {
  import opened Wrappers
  import Text

  /** A value held in the field dictionary. JSON numbers (Python `int` or `float`) are `Num`;
      lists, objects and anything else `float()` rejects with a TypeError are `Composite`. */
  datatype Value = Num(x: real) | Str(s: string) | Bool(b: bool) | Null | Composite

  type FieldMap = map<string, Value>

  // The sixteen numeric keys that the edit form and the calculator read and write back.
  const SalaryIncome: string := "salary_income"
  const InterestIncome: string := "interest_income"
  const RentalIncome: string := "rental_income"
  const DigitalAssetsIncome: string := "digital_assets_income"
  const ExemptAllowances: string := "exempt_allowances"
  const HomeLoanSelf: string := "home_loan_self"
  const HomeLoanLetout: string := "home_loan_letout"
  const OtherIncome: string := "other_income"
  const Deduction80C: string := "deduction_80C"
  const Deduction80D: string := "deduction_80D"
  const Deduction80EEA: string := "deduction_80EEA"
  const Deduction80CCD2: string := "deduction_80CCD2"
  const Deduction80TTA: string := "deduction_80TTA"
  const Deduction80G: string := "deduction_80G"
  const Deduction80CCD: string := "deduction_80CCD"
  const OtherDeductions: string := "other_deductions"

  const FormKeys: set<string> := {
    SalaryIncome, InterestIncome, RentalIncome, DigitalAssetsIncome,
    ExemptAllowances, HomeLoanSelf, HomeLoanLetout, OtherIncome,
    Deduction80C, Deduction80D, Deduction80EEA, Deduction80CCD2,
    Deduction80TTA, Deduction80G, Deduction80CCD, OtherDeductions }

  // The personal keys, carried as they are and never used in arithmetic.
  const Pan: string := "PAN"
  const Name: string := "Name"
  const Address: string := "Address"
  const Contact: string := "Contact"

  const PersonalKeys: set<string> := {Pan, Name, Address, Contact}

  /** No personal key is a numeric key. */
  lemma KeySetsDisjoint()
    ensures FormKeys !! PersonalKeys
  {
  }

  /** `m.get(key, default)`. */
  function Lookup(m: FieldMap, key: string, default: Value): (v: Value)
    ensures key in m ==> v == m[key]
    ensures key !in m ==> v == default
  {
    if key in m then m[key] else default
  }

  /** Python's `int()` on a float: truncation toward zero. */
  function Truncate(x: real): (n: int)
    ensures 0.0 <= x ==> n as real <= x < n as real + 1.0
    ensures x < 0.0 ==> n as real - 1.0 < x <= n as real
  {
    if 0.0 <= x then x.Floor else -((-x).Floor)
  }

  lemma TruncateInteger(n: int)
    ensures Truncate(n as real) == n
  {
  }

  predicate IsDigit(c: char) {
    '0' <= c <= '9'
  }

  predicate AllDigits(s: string) {
    forall i :: 0 <= i < |s| ==> IsDigit(s[i])
  }

  /** The number a string of decimal digits denotes. */
  function DigitsValue(s: string): (n: nat)
    requires AllDigits(s)
  {
    if s == [] then 0 else 10 * DigitsValue(s[..|s| - 1]) + (s[|s| - 1] as int - '0' as int)
  }

  function Pow10(k: nat): (p: nat)
    ensures p >= 1
  {
    if k == 0 then 1 else 10 * Pow10(k - 1)
  }

  /** A decimal literal as read: the number `digits / 10^scale`. */
  datatype Decimal = Decimal(digits: int, scale: nat)

  /** Euclidean division brackets its dividend: `q * p <= a < (q + 1) * p` for `q := a / p`. */
  lemma DivisionBrackets(a: nat, p: nat)
    requires p > 0
    ensures 0 <= a / p && (a / p) * p <= a < (a / p + 1) * p
  {
    var q, r := a / p, a % p;
    assert a == q * p + r && 0 <= r < p;
    assert (q + 1) * p == q * p + p;
  }

  /** `int()` of a decimal literal: truncation toward zero of `digits / 10^scale`. */
  function TruncateDecimal(d: Decimal): (n: int)
    ensures 0 <= d.digits ==> 0 <= n && n * Pow10(d.scale) <= d.digits < (n + 1) * Pow10(d.scale)
    ensures d.digits < 0 ==> n <= 0 && (n - 1) * Pow10(d.scale) < d.digits <= n * Pow10(d.scale)
  {
    var p := Pow10(d.scale);
    if 0 <= d.digits then
      DivisionBrackets(d.digits, p);
      d.digits / p
    else
      var q := (-d.digits) / p;
      DivisionBrackets(-d.digits, p);
      assert (-q - 1) * p == -((q + 1) * p) && -q * p == -(q * p);
      -q
  }

  /** Digits with an optional decimal point: `12`, `12.5`, `12.`, `.5`. */
  function ParseUnsigned(u: string): (r: Option<Decimal>)
    ensures r.Some? ==> r.value.digits >= 0
  {
    var k := Text.IndexOf(u, '.');
    var whole := u[..k];
    var fraction := if k < |u| then u[k + 1..] else [];
    if AllDigits(whole) && AllDigits(fraction) && |whole| + |fraction| > 0 then
      Some(Decimal(DigitsValue(whole + fraction), |fraction|))
    else None
  }

  /** Python's `float()` on a string, for plain decimal notation: surrounding whitespace, an
      optional sign, digits and an optional decimal point. Anything else is a ValueError (None). */
  function ParseFloat(s: string): (r: Option<Decimal>)
    ensures Text.Strip(s) == [] ==> r == None
  {
    var t := Text.Strip(s);
    if |t| > 0 && t[0] == '-' then
      match ParseUnsigned(t[1..])
      case Some(d) => Some(Decimal(-d.digits, d.scale))
      case None => None
    else if |t| > 0 && t[0] == '+' then ParseUnsigned(t[1..])
    else ParseUnsigned(t)
  }

  /** `int(float(v))`; None stands for the TypeError or ValueError the source raises. */
  function Coerce(v: Value): (r: Option<int>)
    ensures v.Num? ==> r == Some(Truncate(v.x))
    ensures v.Bool? ==> r == Some(if v.b then 1 else 0)
    ensures (v.Null? || v.Composite?) ==> r == None
    ensures v.Str? ==> (r.Some? <==> ParseFloat(v.s).Some?)
  {
    match v
    case Num(x) => Some(Truncate(x))
    case Str(s) =>
      (match ParseFloat(s)
       case Some(d) => Some(TruncateDecimal(d))
       case None => None)
    case Bool(b) => Some(if b then 1 else 0)
    case Null => None
    case Composite => None
  }

  /** `int(float(m.get(key, 0)))`: an absent key reads as 0. */
  function CoerceField(m: FieldMap, key: string): (r: Option<int>)
    ensures key !in m ==> r == Some(0)
    ensures key in m ==> r == Coerce(m[key])
  {
    Coerce(Lookup(m, key, Num(0.0)))
  }

  /** A field holding a whole number coerces to that number. */
  lemma CoerceNumber(m: FieldMap, key: string, n: int)
    requires key in m && m[key] == Num(n as real)
    ensures CoerceField(m, key) == Some(n)
  {
    TruncateInteger(n);
  }

  /** An integer as Python's `str()` writes it. */
  function DecimalString(n: int): (s: string)
  {
    if n < 0 then "-" + NaturalDigits(-n) else NaturalDigits(n)
  }

  function NaturalDigits(n: nat): (s: string)
    ensures |s| > 0 && AllDigits(s)
  {
    if n < 10 then [('0' as int + n) as char]
    else NaturalDigits(n / 10) + [('0' as int + n % 10) as char]
  }

  lemma {:induction false} NaturalDigitsValue(n: nat)
    ensures DigitsValue(NaturalDigits(n)) == n
  {
    var s := NaturalDigits(n);
    if n >= 10 {
      NaturalDigitsValue(n / 10);
      assert s[..|s| - 1] == NaturalDigits(n / 10);
    }
  }

  lemma DigitNotSpecial(c: char)
    requires IsDigit(c)
    ensures !Text.IsWhitespace(c) && c != '.' && c != '-' && c != '+'
  {
  }

  /** Digits alone parse as the natural number they denote. */
  lemma {:induction false} ParseNaturalDigits(m: nat)
    ensures ParseUnsigned(NaturalDigits(m)) == Some(Decimal(m, 0))
  {
    var d := NaturalDigits(m);
    NaturalDigitsValue(m);
    var k := Text.IndexOf(d, '.');
    if k < |d| {
      DigitNotSpecial(d[k]);
    }
    assert d[..k] == d;
    assert d + [] == d;
  }

  /** Digits have no whitespace at either end, so strip leaves them alone. */
  lemma {:induction false} StripDigits(d: string)
    requires |d| > 0 && AllDigits(d)
    ensures Text.Strip(d) == d && Text.Strip("-" + d) == "-" + d
  {
    DigitNotSpecial(d[0]);
    DigitNotSpecial(d[|d| - 1]);
    Text.StripUnchanged(d);
    var nd := "-" + d;
    assert nd[|nd| - 1] == d[|d| - 1];
    Text.StripUnchanged(nd);
  }

  /** Round trip: an integer written out in decimal and read back by `float()` is that integer. */
  lemma {:induction false} ParseDecimalString(n: int)
    ensures ParseFloat(DecimalString(n)) == Some(Decimal(n, 0))
  {
    var m: nat := if n < 0 then -n else n;
    var d := NaturalDigits(m);
    ParseNaturalDigits(m);
    StripDigits(d);
    DigitNotSpecial(d[0]);
    if n < 0 {
      var s := "-" + d;
      assert DecimalString(n) == s;
      assert Text.Strip(s) == s;
      assert s[1..] == d;
      assert ParseFloat(s) == Some(Decimal(-(m as int), 0));
    } else {
      assert DecimalString(n) == d;
      assert Text.Strip(d) == d;
      assert ParseFloat(d) == ParseUnsigned(d);
    }
  }

  /** So a number stored as text coerces exactly like the number itself. */
  lemma {:induction false} CoerceDecimalText(n: int)
    ensures Coerce(Str(DecimalString(n))) == Some(n)
    ensures Coerce(Num(n as real)) == Some(n)
  {
    ParseDecimalString(n);
    TruncateWhole(n);
    TruncateInteger(n);
  }

  /** A literal without a fraction truncates to its own digits. */
  lemma TruncateWhole(n: int)
    ensures TruncateDecimal(Decimal(n, 0)) == n
  {
    assert Pow10(0) == 1;
    if n < 0 {
      assert (-n) / 1 == -n;
    } else {
      assert n / 1 == n;
    }
  }
}
