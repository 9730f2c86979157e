/**
 Room names and the numerals in them.

 A room key is a string or a number, and the two never compare equal. The adapter turns
 a key into channel text and back; the gateway reads a database id out of a room name.
 */
module RoomNames {
  import opened Option

  datatype Room = Named(name: string) | Numbered(number: int)

  predicate IsDigit(c: char) { '0' <= c <= '9' }

  function DigitChar(d: nat): (c: char)
    requires d < 10
    ensures IsDigit(c)
  {
    "0123456789"[d]
  }

  function DigitValue(c: char): nat
    requires IsDigit(c)
  {
    c as int - '0' as int
  }

  predicate AllDigits(s: string) { forall i | 0 <= i < |s| :: IsDigit(s[i]) }

  /** The value of a run of digits, read left to right. */
  function DigitsValue(s: string): nat
    requires AllDigits(s)
  {
    if s == [] then 0 else 10 * DigitsValue(s[..|s| - 1]) + DigitValue(s[|s| - 1])
  }

  /** Decimal text of a natural number, without leading zeros. */
  function ShowNat(n: nat): (s: string)
    ensures s != [] && AllDigits(s)
  {
    if n < 10 then [DigitChar(n)] else ShowNat(n / 10) + [DigitChar(n % 10)]
  }

  /** What string conversion makes of an integer. */
  function Show(n: int): string {
    if n < 0 then "-" + ShowNat(-n) else ShowNat(n)
  }

  function ShowRoom(room: Room): string {
    match room
    case Named(name) => name
    case Numbered(number) => Show(number)
  }

  // ----- Readers -----

  /** What the language calls white space, line ends included. */
  predicate IsSpace(c: char) {
    || c == ' ' || '\t' <= c <= '\r' || c == '\U{00a0}' || c == '\U{1680}' || '\U{2000}' <= c <= '\U{200a}'
    || c == '\U{2028}' || c == '\U{2029}' || c == '\U{202f}' || c == '\U{205f}' || c == '\U{3000}' || c == '\U{feff}'
  }

  function TrimLeft(s: string): string {
    if s != [] && IsSpace(s[0]) then TrimLeft(s[1..]) else s
  }

  function TrimRight(s: string): string {
    if s != [] && IsSpace(s[|s| - 1]) then TrimRight(s[..|s| - 1]) else s
  }

  /** The longest prefix of digits. */
  function DigitPrefix(s: string): (p: string)
    ensures p <= s && AllDigits(p)
    ensures |p| < |s| ==> !IsDigit(s[|p|])
  {
    if s != [] && IsDigit(s[0]) then [s[0]] + DigitPrefix(s[1..]) else []
  }

  predicate IsSigned(s: string) { s != [] && (s[0] == '-' || s[0] == '+') }

  function Unsigned(s: string): string { if IsSigned(s) then s[1..] else s }

  predicate IsNegative(s: string) { s != [] && s[0] == '-' }

  /** The digits before and after the point, and the power of ten. */
  datatype Decimal = Decimal(whole: string, fraction: string, exponent: int)

  /** The exponent at the end of a decimal literal; no text is no exponent. */
  function ReadExponent(s: string): Option<int> {
    if s == [] then Some(0)
    else if s[0] != 'e' && s[0] != 'E' then None
    else
      var digits := Unsigned(s[1..]);
      if digits == [] || !AllDigits(digits) then None
      else Some(if IsNegative(s[1..]) then 0 - DigitsValue(digits) else DigitsValue(digits))
  }

  /** A whole decimal literal without a sign: digits on at least one side of the point, then an exponent. */
  function ReadDecimal(s: string): (d: Option<Decimal>)
    ensures d.Some? ==> AllDigits(d.value.whole) && AllDigits(d.value.fraction)
  {
    var whole := DigitPrefix(s);
    var rest := s[|whole|..];
    var pointed := rest != [] && rest[0] == '.';
    var fraction := if pointed then DigitPrefix(rest[1..]) else [];
    var exponent := ReadExponent(if pointed then rest[1..][|fraction|..] else rest);
    if (whole == [] && fraction == []) || exponent.None? then None
    else Some(Decimal(whole, fraction, exponent.value))
  }

  predicate IsHexDigit(c: char) { IsDigit(c) || 'a' <= c <= 'f' || 'A' <= c <= 'F' }

  /** A whole literal in base sixteen, eight or two. */
  predicate IsBased(s: string) {
    |s| > 2 && s[0] == '0' &&
    match s[1]
    case 'x' => forall i | 2 <= i < |s| :: IsHexDigit(s[i])
    case 'X' => forall i | 2 <= i < |s| :: IsHexDigit(s[i])
    case 'o' => forall i | 2 <= i < |s| :: '0' <= s[i] <= '7'
    case 'O' => forall i | 2 <= i < |s| :: '0' <= s[i] <= '7'
    case 'b' => forall i | 2 <= i < |s| :: '0' <= s[i] <= '1'
    case 'B' => forall i | 2 <= i < |s| :: '0' <= s[i] <= '1'
    case _ => false
  }

  /** `!isNaN(s) && !isNaN(parseFloat(s))`: blank text is a number to the first but not to the second. */
  predicate IsNumeric(s: string) {
    var t := TrimRight(TrimLeft(s));
    IsBased(t) || Unsigned(t) == "Infinity" || ReadDecimal(Unsigned(t)).Some?
  }

  datatype Number = Finite(value: real) | Infinite(negative: bool)

  function PowerOfTen(e: int): real
    decreases if e < 0 then -e else e
  {
    if e == 0 then 1.0 else if e > 0 then 10.0 * PowerOfTen(e - 1) else PowerOfTen(e + 1) / 10.0
  }

  function DecimalValue(d: Decimal): real
    requires AllDigits(d.whole) && AllDigits(d.fraction)
  {
    DigitsValue(d.whole + d.fraction) as real * PowerOfTen(d.exponent - |d.fraction|)
  }

  /** Of a literal with a base, `parseFloat` reads the leading zero only. */
  function ParseFloat(s: string): Number
    requires IsNumeric(s)
  {
    var t := TrimRight(TrimLeft(s));
    if IsBased(t) then Finite(0.0)
    else if Unsigned(t) == "Infinity" then Infinite(IsNegative(t))
    else
      var value := DecimalValue(ReadDecimal(Unsigned(t)).value);
      Finite(if IsNegative(t) then 0.0 - value else value)
  }

  function SignedInt(negative: bool, magnitude: nat): int {
    if negative then 0 - magnitude else magnitude
  }

  /** `parseInt(s, 10)`: text after the leading number is ignored; None is NaN. */
  function ParseInt(s: string): Option<int> {
    var t := TrimLeft(s);
    var digits := DigitPrefix(Unsigned(t));
    if digits == [] then None else Some(SignedInt(IsNegative(t), DigitsValue(digits)))
  }

  function HexDigitValue(c: char): nat
    requires IsHexDigit(c)
  {
    if IsDigit(c) then DigitValue(c)
    else if 'a' <= c <= 'f' then c as int - 'a' as int + 10
    else c as int - 'A' as int + 10
  }

  /** The value of the longest prefix of base-sixteen digits, `high` being what stands before it. */
  function HexPrefixValue(s: string, high: nat): nat {
    if s != [] && IsHexDigit(s[0]) then HexPrefixValue(s[1..], 16 * high + HexDigitValue(s[0])) else high
  }

  predicate HasHexPrefix(s: string) { |s| >= 2 && s[0] == '0' && (s[1] == 'x' || s[1] == 'X') }

  /** `parseInt(s)`, which reads text starting with 0x in base sixteen. */
  function ParseIntAnyBase(s: string): Option<int> {
    var t := TrimLeft(s);
    var body := Unsigned(t);
    if !HasHexPrefix(body) then ParseInt(s)
    else if |body| == 2 || !IsHexDigit(body[2]) then None
    else Some(SignedInt(IsNegative(t), HexPrefixValue(body[2..], 0)))
  }

  // ----- Round trips -----

  lemma {:induction false} ShowNatRoundTrip(n: nat)
    ensures DigitsValue(ShowNat(n)) == n
  {
    if n >= 10 {
      ShowNatRoundTrip(n / 10);
      var s := ShowNat(n);
      assert s[..|s| - 1] == ShowNat(n / 10);
    } else {
      assert ShowNat(n)[..0] == [];
    }
  }

  lemma {:induction false} DigitPrefixOfDigits(s: string)
    requires AllDigits(s)
    ensures DigitPrefix(s) == s
  {
    if s != [] { DigitPrefixOfDigits(s[1..]); }
  }

  lemma DigitsAreKept(digits: string)
    requires digits != [] && AllDigits(digits)
    ensures TrimLeft(digits) == digits && TrimRight(digits) == digits
    ensures TrimLeft("-" + digits) == "-" + digits && TrimRight("-" + digits) == "-" + digits
    ensures Unsigned(digits) == digits && !IsNegative(digits)
    ensures Unsigned("-" + digits) == digits && IsNegative("-" + digits)
  {
    assert IsDigit(digits[0]) && IsDigit(digits[|digits| - 1]);
    var signed := "-" + digits;
    assert signed[0] == '-' && signed[|signed| - 1] == digits[|digits| - 1] && signed[1..] == digits;
  }

  lemma ParseIntReads(s: string, digits: string)
    requires digits != [] && AllDigits(digits) && Unsigned(TrimLeft(s)) == digits
    ensures ParseInt(s) == Some(SignedInt(IsNegative(TrimLeft(s)), DigitsValue(digits)))
  {
    DigitPrefixOfDigits(digits);
  }

  lemma PlainDigits(s: string, digits: string)
    requires digits != [] && AllDigits(digits) && TrimLeft(s) == s && Unsigned(s) == digits
    ensures ParseInt(s) == Some(SignedInt(IsNegative(s), DigitsValue(digits)))
  {
    ParseIntReads(s, digits);
  }

  lemma ParseIntOfNatural(digits: string)
    requires digits != [] && AllDigits(digits)
    ensures ParseInt(digits) == Some(DigitsValue(digits))
  {
    DigitsAreKept(digits);
    PlainDigits(digits, digits);
  }

  lemma ParseIntOfMinus(s: string, digits: string)
    requires digits != [] && AllDigits(digits) && s != [] && s[0] == '-' && s[1..] == digits
    ensures ParseInt(s) == Some(0 - DigitsValue(digits))
  {
    PlainDigits(s, digits);
  }

  lemma ParseIntOfDigits(digits: string)
    requires digits != [] && AllDigits(digits)
    ensures ParseInt(digits) == Some(DigitsValue(digits))
    ensures ParseInt("-" + digits) == Some(0 - DigitsValue(digits))
  {
    ParseIntOfNatural(digits);
    ParseIntOfMinus("-" + digits, digits);
  }

  lemma DecimalOfDigits(digits: string)
    requires digits != [] && AllDigits(digits)
    ensures ReadDecimal(digits) == Some(Decimal(digits, [], 0))
    ensures DecimalValue(Decimal(digits, [], 0)) == DigitsValue(digits) as real
  {
    DigitPrefixOfDigits(digits);
    assert digits[|digits|..] == [] && digits + [] == digits;
    assert ReadExponent([]) == Some(0) && PowerOfTen(0) == 1.0;
  }

  lemma DigitsAreUnbased(digits: string)
    requires digits != [] && AllDigits(digits)
    ensures !IsBased(digits) && !IsBased("-" + digits) && !HasHexPrefix(digits) && digits != "Infinity"
  {
    assert IsDigit(digits[0]);
    if |digits| >= 2 { assert IsDigit(digits[1]); }
    assert ("-" + digits)[0] == '-';
    assert "Infinity"[0] == 'I';
  }

  lemma ParseFloatReads(s: string, digits: string)
    requires digits != [] && AllDigits(digits)
    requires TrimLeft(s) == s && TrimRight(s) == s && Unsigned(s) == digits && !IsBased(s) && digits != "Infinity"
    ensures IsNumeric(s)
    ensures var value := DigitsValue(digits) as real; ParseFloat(s) == Finite(if IsNegative(s) then 0.0 - value else value)
  {
    DecimalOfDigits(digits);
  }

  lemma ParseFloatOfDigits(digits: string)
    requires digits != [] && AllDigits(digits)
    ensures IsNumeric(digits) && ParseFloat(digits) == Finite(DigitsValue(digits) as real)
    ensures IsNumeric("-" + digits) && ParseFloat("-" + digits) == Finite(0.0 - DigitsValue(digits) as real)
  {
    DigitsAreKept(digits);
    DigitsAreUnbased(digits);
    ParseFloatReads(digits, digits);
    ParseFloatReads("-" + digits, digits);
  }

  /** Printing an integer and reading it back, by any of the readers, gives the integer. */
  lemma ShowRoundTrip(n: int)
    ensures IsNumeric(Show(n)) && ParseFloat(Show(n)) == Finite(n as real)
    ensures ParseInt(Show(n)) == Some(n) && ParseIntAnyBase(Show(n)) == Some(n)
  {
    var magnitude := if n < 0 then -n else n;
    var digits := ShowNat(magnitude);
    ShowNatRoundTrip(magnitude);
    ParseIntOfDigits(digits);
    ParseFloatOfDigits(digits);
    DigitsAreKept(digits);
    DigitsAreUnbased(digits);
  }

  // ----- What is read as a number -----

  predicate AllSpace(s: string) { forall i | 0 <= i < |s| :: IsSpace(s[i]) }

  predicate IsSign(s: string) { s == "" || s == "+" || s == "-" }

  /** The text is blanks, a sign or none, digits, and then anything that does not go on with a digit. */
  ghost predicate Spells(s: string, blanks: string, sign: string, digits: string, rest: string) {
    && s == blanks + sign + digits + rest && AllSpace(blanks) && IsSign(sign)
    && digits != "" && AllDigits(digits) && (rest == "" || !IsDigit(rest[0]))
  }

  lemma {:induction false} BlanksAreTrimmed(blanks: string, s: string)
    requires AllSpace(blanks) && s != "" && !IsSpace(s[0])
    ensures TrimLeft(blanks + s) == s
  {
    if blanks == "" {
      assert blanks + s == s;
    } else {
      assert (blanks + s)[1..] == blanks[1..] + s;
      BlanksAreTrimmed(blanks[1..], s);
    }
  }

  lemma {:induction false} DigitsThenRest(digits: string, rest: string)
    requires AllDigits(digits) && (rest == "" || !IsDigit(rest[0]))
    ensures DigitPrefix(digits + rest) == digits
  {
    if digits == "" {
      assert digits + rest == rest;
    } else {
      assert (digits + rest)[1..] == digits[1..] + rest;
      DigitsThenRest(digits[1..], rest);
    }
  }

  lemma {:induction false} TrimmedBlanks(s: string) returns (k: nat)
    ensures k <= |s| && AllSpace(s[..k]) && s[k..] == TrimLeft(s)
  {
    k := 0;
    if s != "" && IsSpace(s[0]) {
      var l := TrimmedBlanks(s[1..]);
      k := l + 1;
      assert s[1..][l..] == s[k..];
      forall i | 0 <= i < k ensures IsSpace(s[i]) {
        if i > 0 { assert s[1..][..l][i - 1] == s[i]; }
      }
    }
  }

  lemma SpelledIsRead(s: string, blanks: string, sign: string, digits: string, rest: string)
    requires Spells(s, blanks, sign, digits, rest)
    ensures ParseInt(s) == Some(SignedInt(sign == "-", DigitsValue(digits)))
  {
    var t := sign + digits + rest;
    assert IsDigit(digits[0]) && t[0] == if sign == "" then digits[0] else sign[0];
    assert s == blanks + t;
    BlanksAreTrimmed(blanks, t);
    assert Unsigned(t) == digits + rest;
    DigitsThenRest(digits, rest);
  }

  function SignOf(t: string): (sign: string)
    ensures IsSign(sign) && t == sign + Unsigned(t) && (sign == "-" <==> IsNegative(t))
  {
    if IsSigned(t) then [t[0]] else ""
  }

  lemma SplitAt(s: string, k: nat)
    requires k <= |s|
    ensures s == s[..k] + s[k..]
  {
  }

  lemma FourParts(s: string, blanks: string, t: string, sign: string, u: string, digits: string, rest: string)
    requires s == blanks + t && t == sign + u && u == digits + rest
    ensures s == blanks + sign + digits + rest
  {
    assert sign + (digits + rest) == sign + digits + rest;
    assert blanks + (sign + digits + rest) == blanks + sign + digits + rest;
  }

  /** The parts of a text that starts, after `k` blanks, with a number. */
  lemma PartsSpell(s: string, k: nat, u: string, digits: string)
    requires k <= |s| && AllSpace(s[..k]) && u == Unsigned(s[k..])
    requires digits <= u && digits != "" && AllDigits(digits) && (|digits| < |u| ==> !IsDigit(u[|digits|]))
    ensures Spells(s, s[..k], SignOf(s[k..]), digits, u[|digits|..])
  {
    SplitAt(s, k);
    SplitAt(u, |digits|);
    FourParts(s, s[..k], s[k..], SignOf(s[k..]), u, digits, u[|digits|..]);
  }

  ghost predicate SpellsNumber(s: string, n: int) {
    exists blanks, sign, digits, rest ::
      Spells(s, blanks, sign, digits, rest) &&
      n == if sign == "-" then 0 - DigitsValue(digits) else DigitsValue(digits)
  }

  lemma SomeSpelling(s: string, blanks: string, sign: string, digits: string, rest: string, n: int)
    requires Spells(s, blanks, sign, digits, rest)
    requires n == if sign == "-" then 0 - DigitsValue(digits) else DigitsValue(digits)
    ensures SpellsNumber(s, n)
  {
  }

  lemma StartSpells(s: string, k: nat, u: string, digits: string, n: int)
    requires k <= |s| && AllSpace(s[..k]) && u == Unsigned(s[k..])
    requires digits <= u && digits != "" && AllDigits(digits) && (|digits| < |u| ==> !IsDigit(u[|digits|]))
    requires n == SignedInt(IsNegative(s[k..]), DigitsValue(digits))
    ensures SpellsNumber(s, n)
  {
    PartsSpell(s, k, u, digits);
    SomeSpelling(s, s[..k], SignOf(s[k..]), digits, u[|digits|..], n);
  }

  lemma ReadIsSpelled(s: string, n: int)
    requires ParseInt(s) == Some(n)
    ensures SpellsNumber(s, n)
  {
    var k := TrimmedBlanks(s);
    StartSpells(s, k, Unsigned(s[k..]), DigitPrefix(Unsigned(s[k..])), n);
  }

  /**
   `parseInt` in base ten reads a number exactly from a text that starts with it, after blanks
   and a sign; leading zeros and whatever follows do not matter, so one id has many names.
   */
  lemma ParseIntIff(s: string, n: int)
    ensures ParseInt(s) == Some(n) <==> SpellsNumber(s, n)
  {
    if SpellsNumber(s, n) {
      var blanks, sign, digits, rest :|
        Spells(s, blanks, sign, digits, rest) &&
        n == if sign == "-" then 0 - DigitsValue(digits) else DigitsValue(digits);
      SpelledIsRead(s, blanks, sign, digits, rest);
    }
    if ParseInt(s) == Some(n) { ReadIsSpelled(s, n); }
  }

  function HexChar(d: nat): (c: char)
    requires d < 16
    ensures IsHexDigit(c)
  {
    "0123456789abcdef"[d]
  }

  /** Text of a natural number in base sixteen, without leading zeros. */
  function ShowHex(n: nat): (s: string)
    ensures s != [] && IsHexDigit(s[0])
  {
    if n < 16 then [HexChar(n)] else ShowHex(n / 16) + [HexChar(n % 16)]
  }

  lemma {:induction false} HexPrefixMore(s: string, c: char, high: nat)
    requires (forall i | 0 <= i < |s| :: IsHexDigit(s[i])) && IsHexDigit(c)
    ensures HexPrefixValue(s + [c], high) == 16 * HexPrefixValue(s, high) + HexDigitValue(c)
  {
    if s == "" {
      assert s + [c] == [c] && [c][1..] == "";
    } else {
      assert (s + [c])[1..] == s[1..] + [c];
      HexPrefixMore(s[1..], c, 16 * high + HexDigitValue(s[0]));
    }
  }

  lemma HexCharValue(d: nat)
    requires d < 16
    ensures HexDigitValue(HexChar(d)) == d
  {
  }

  lemma {:induction false} ShowHexRoundTrip(n: nat)
    ensures forall i | 0 <= i < |ShowHex(n)| :: IsHexDigit(ShowHex(n)[i])
    ensures HexPrefixValue(ShowHex(n), 0) == n
  {
    HexCharValue(n % 16);
    if n >= 16 {
      ShowHexRoundTrip(n / 16);
      HexPrefixMore(ShowHex(n / 16), HexChar(n % 16), 0);
    }
  }

  lemma ReadsZero(s: string)
    requires |s| > 1 && s[0] == '0' && !IsDigit(s[1])
    ensures ParseInt(s) == Some(0)
  {
    assert s == "" + "" + "0" + s[1..];
    assert "0"[..0] == "" && DigitsValue("") == 0;
    SpelledIsRead(s, "", "", "0", s[1..]);
  }

  /** A room named in base sixteen is one room to a reader of any base, and room 0 to base ten. */
  lemma HexNameDiffers(n: nat)
    ensures ParseIntAnyBase("0x" + ShowHex(n)) == Some(n)
    ensures ParseInt("0x" + ShowHex(n)) == Some(0)
  {
    var s := "0x" + ShowHex(n);
    ShowHexRoundTrip(n);
    assert s[2..] == ShowHex(n) && s[0] == '0' && s[1] == 'x';
    ReadsZero(s);
  }

  /** Different ids have different names. */
  lemma ShowInjective(m: int, n: int)
    requires Show(m) == Show(n)
    ensures m == n
  {
    ShowRoundTrip(m);
    ShowRoundTrip(n);
  }

  /** Text that base ten does not read as a number, no base does. */
  lemma UnreadInEveryBase(s: string)
    requires ParseInt(s).None?
    ensures ParseIntAnyBase(s).None?
  {
    var body := Unsigned(TrimLeft(s));
    if body != [] && IsDigit(body[0]) {}
  }
}
