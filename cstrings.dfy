/**
 * The C library string routines the option parsers are built on:
 * `strtok` splitting, `isdigit`/`isspace`, `atoi`, `strtol` with base 0
 * (and `sscanf("%i")`, which accepts the same syntax), and the decimal
 * rendering `snprintf("%d")` produces.
 */
module CStrings {
  import opened Wrappers

  predicate IsDigit(c: char) { '0' <= c <= '9' }

  /** `isspace` in the C locale. */
  predicate IsSpace(c: char)
  {
    c == ' ' || c == '\t' || c == '\n' || c == 11 as char || c == 12 as char || c == '\r'
  }

  /** `toupper` in the C locale: only ASCII lower-case letters change. */
  function ToUpper(c: int): (r: int)
    ensures 'a' as int <= c <= 'z' as int ==> r == c - 32
    ensures !('a' as int <= c <= 'z' as int) ==> r == c
  {
    if 'a' as int <= c <= 'z' as int then c - 32 else c
  }

  /** Position of the first `c` in `s` (`strchr`), if any. */
  function Find(s: string, c: char): (r: Option<nat>)
    ensures r.Some? ==> r.value < |s| && s[r.value] == c && c !in s[..r.value]
    ensures r.None? <==> c !in s
  {
    if s == [] then None
    else if s[0] == c then Some(0)
    else match Find(s[1..], c)
      case None => None
      case Some(i) => assert s[1..][..i] == s[1..i + 1]; Some(i + 1)
  }

  /** Whatever follows the first `c` in `s`: `strchr(s, c) + 1`. */
  function After(s: string, c: char): string
    requires c in s
  {
    s[Find(s, c).value + 1..]
  }

  /** When `a` has no `c`, what follows the first `c` of `a + [c] + b` is `b`. */
  lemma AfterFirst(a: string, c: char, b: string)
    ensures c in a + [c] + b
    ensures c !in a ==> After(a + [c] + b, c) == b
  {
    var s := a + [c] + b;
    assert s[|a|] == c;
    if c !in a {
      var i := Find(s, c).value;
      assert forall j :: 0 <= j < |a| ==> s[j] == a[j];
      assert forall j :: 0 <= j < i ==> s[..i][j] == s[j];
      assert i == |a|;
      assert s[|a| + 1..] == b;
    }
  }

  // ---------------------------------------------------------------------
  // strtok
  // ---------------------------------------------------------------------

  /** Length of the leading run of `s` without the delimiter `d`. */
  function TokenLength(s: string, d: char): (n: nat)
    ensures n <= |s| && d !in s[..n] && (n < |s| ==> s[n] == d)
  {
    if s == [] || s[0] == d then 0 else 1 + TokenLength(s[1..], d)
  }

  /**
   * The tokens successive `strtok(…, d)` calls return: the maximal runs
   * of characters other than `d`, in order; empty runs (delimiters at
   * either end or next to each other) yield nothing.
   */
  function Tokens(s: string, d: char): (ts: seq<string>)
    ensures forall i :: 0 <= i < |ts| ==> ts[i] != [] && d !in ts[i]
    decreases |s|
  {
    if s == [] then []
    else if s[0] == d then Tokens(s[1..], d)
    else
      var n := TokenLength(s, d);
      [s[..n]] + Tokens(s[n..], d)
  }

  /** A string without the delimiter is one token, or none when it is empty. */
  lemma {:induction false} TokensOfPlain(s: string, d: char)
    requires d !in s
    ensures Tokens(s, d) == if s == [] then [] else [s]
  {
    if s != [] {
      assert TokenLength(s, d) == |s| by { TokenLengthOfPlain(s, d); }
      assert s[..|s|] == s && s[|s|..] == [];
    }
  }

  lemma {:induction false} TokenLengthOfPlain(s: string, d: char)
    requires d !in s
    ensures TokenLength(s, d) == |s|
  {
    if s != [] {
      assert d !in s[1..];
      TokenLengthOfPlain(s[1..], d);
    }
  }

  /** `strtok` finds no token exactly when the string holds nothing but delimiters (or nothing at all). */
  lemma {:induction false} NoTokensOnlyDelimiters(s: string, d: char)
    ensures Tokens(s, d) == [] <==> forall i :: 0 <= i < |s| ==> s[i] == d
    decreases |s|
  {
    if s != [] && s[0] == d {
      NoTokensOnlyDelimiters(s[1..], d);
      assert forall i :: 1 <= i < |s| ==> s[i] == s[1..][i - 1];
    }
  }

  /** Splitting at one delimiter first and then at the others gives the same tokens. */
  lemma {:induction false} TokensAppend(a: string, b: string, d: char)
    ensures Tokens(a + [d] + b, d) == Tokens(a, d) + Tokens(b, d)
    decreases |a|
  {
    var s := a + [d] + b;
    if a == [] {
      assert s[1..] == b;
    } else if a[0] == d {
      assert s[1..] == a[1..] + [d] + b;
      TokensAppend(a[1..], b, d);
    } else {
      var n := TokenLength(a, d);
      TokenLengthAppend(a, b, d);
      assert s[..n] == a[..n];
      assert s[n..] == a[n..] + [d] + b;
      TokensAppend(a[n..], b, d);
    }
  }

  lemma {:induction false} TokenLengthAppend(a: string, b: string, d: char)
    ensures TokenLength(a + [d] + b, d) == TokenLength(a, d)
    decreases |a|
  {
    if a != [] && a[0] != d {
      assert (a + [d] + b)[1..] == a[1..] + [d] + b;
      TokenLengthAppend(a[1..], b, d);
    }
  }

  /** Joining non-empty, delimiter-free pieces with the delimiter and splitting again gives the pieces back. */
  lemma {:induction false} TokensOfJoin(parts: seq<string>, d: char)
    requires forall i :: 0 <= i < |parts| ==> parts[i] != [] && d !in parts[i]
    ensures Tokens(Join(parts, d), d) == parts
  {
    if |parts| == 1 {
      TokensOfPlain(parts[0], d);
    } else if |parts| > 1 {
      TokensAppend(parts[0], Join(parts[1..], d), d);
      TokensOfPlain(parts[0], d);
      TokensOfJoin(parts[1..], d);
    }
  }

  /** The pieces separated by `d`: the inverse of `Tokens` on well-formed pieces. */
  function Join(parts: seq<string>, d: char): string
  {
    if parts == [] then []
    else if |parts| == 1 then parts[0]
    else parts[0] + [d] + Join(parts[1..], d)
  }

  // ---------------------------------------------------------------------
  // Numbers
  // ---------------------------------------------------------------------

  /** The value of a digit character in bases up to 16; 16 for anything else. */
  function DigitValue(c: char): (v: nat)
    ensures v <= 16
    ensures IsDigit(c) <==> v < 10
  {
    if '0' <= c <= '9' then c as nat - '0' as nat
    else if 'a' <= c <= 'f' then c as nat - 'a' as nat + 10
    else if 'A' <= c <= 'F' then c as nat - 'A' as nat + 10
    else 16
  }

  /** Length of the leading run of digits of `base`. */
  function DigitRun(s: string, base: nat): (n: nat)
    ensures n <= |s| && forall i :: 0 <= i < n ==> DigitValue(s[i]) < base
    ensures n < |s| ==> DigitValue(s[n]) >= base
  {
    if s != [] && DigitValue(s[0]) < base then 1 + DigitRun(s[1..], base) else 0
  }

  /** The value of a run of digits, most significant first. */
  function Value(ds: string, base: nat): nat
  {
    if ds == [] then 0 else Value(ds[..|ds| - 1], base) * base + Min(DigitValue(ds[|ds| - 1]), base) as nat
  }

  /** Leading white space, as `atoi` and `strtol` skip it. */
  function SkipSpace(s: string): (r: string)
    ensures |r| <= |s| && r == s[|s| - |r|..]
    ensures r != [] ==> !IsSpace(r[0])
  {
    if s != [] && IsSpace(s[0]) then SkipSpace(s[1..]) else s
  }

  /** An optional sign: whether it is a minus, and what follows it. */
  function Sign(s: string): (r: (bool, string))
    ensures |r.1| <= |s|
  {
    if s != [] && (s[0] == '-' || s[0] == '+') then (s[0] == '-', s[1..]) else (false, s)
  }

  /** A conversion's outcome: the value, and whether any digit was read. */
  datatype Conversion = Conversion(value: int, converted: bool)

  /** `strtol(s, NULL, 10)`, i.e. `atoi`, on unbounded integers. */
  function Atoi(s: string): (r: int)
  {
    var (negative, rest) := Sign(SkipSpace(s));
    var magnitude: int := Value(rest[..DigitRun(rest, 10)], 10);
    if negative then -magnitude else magnitude
  }

  /**
   * `strtol(s, &end, 0)`: after the sign, "0x" or "0X" followed by a hex
   * digit selects base 16, another leading "0" base 8, anything else base
   * 10. `converted` is whether any digit was read (`end != s`), which is
   * also when `sscanf(s, "%i", …)` returns 1.
   */
  function Strtol(s: string): (r: Conversion)
  {
    var (negative, rest) := Sign(SkipSpace(s));
    var hex := |rest| >= 3 && rest[0] == '0' && (rest[1] == 'x' || rest[1] == 'X') && DigitValue(rest[2]) < 16;
    var base := if hex then 16 else if rest != [] && rest[0] == '0' then 8 else 10;
    var digits := if hex then rest[2..] else rest;
    var n := DigitRun(digits, base);
    var magnitude: int := Value(digits[..n], base);
    Conversion(if negative then -magnitude else magnitude, n > 0)
  }

  function Pow10(k: nat): (r: nat)
    ensures r > 0
  {
    if k == 0 then 1 else 10 * Pow10(k - 1)
  }

  /** A decimal number read by `strtod`: the fraction `num / den`, and the text after it (`endptr`). */
  datatype Decimal = Decimal(num: int, den: nat, rest: string)

  /**
   * `strtod` on plain decimal notation: digits with an optional fraction
   * after '.'. Without any digit nothing is converted: the value is 0 and
   * the rest is the whole string.
   */
  function Strtod(s: string): (r: Decimal)
    ensures r.den > 0 && |r.rest| <= |s|
  {
    var (negative, rest) := Sign(SkipSpace(s));
    var i := DigitRun(rest, 10);
    var after := rest[i..];
    var hasPoint := after != [] && after[0] == '.';
    var j := if hasPoint then DigitRun(after[1..], 10) else 0;
    var fraction := if hasPoint then after[1..][..j] else [];
    var tail := if hasPoint then after[1..][j..] else after;
    if i == 0 && j == 0 then Decimal(0, 1, s)
    else
      var magnitude: int := Value(rest[..i] + fraction, 10);
      Decimal(if negative then -magnitude else magnitude, Pow10(j), tail)
  }

  /** `strtod` of a rendered whole number followed by neither a digit nor '.' reads the number. */
  lemma StrtodOfNatToString(n: nat, rest: string)
    requires rest == [] || (!IsDigit(rest[0]) && rest[0] != '.')
    ensures Strtod(NatToString(n) + rest) == Decimal(n, 1, rest)
  {
    StrtodOfDigits(NatToString(n) + rest, NatToString(n), rest);
    ValueOfNatToString(n);
  }

  lemma StrtodOfDigits(t: string, ds: string, rest: string)
    requires ds != [] && (forall i :: 0 <= i < |ds| ==> IsDigit(ds[i])) && t == ds + rest
    requires rest == [] || (!IsDigit(rest[0]) && rest[0] != '.')
    ensures Strtod(t) == Decimal(Value(ds, 10), 1, rest)
  {
    DigitsThen(t, ds, rest);
    SkipSpaceOfDigit(t);
    SignOf(t, t, false);
    StrtodWhole(t, t, |ds|);
    assert ds + [] == ds;
  }

  /** Digits followed by a non-digit: the digit run is exactly the digits. */
  lemma DigitsThen(t: string, ds: string, rest: string)
    requires ds != [] && (forall i :: 0 <= i < |ds| ==> IsDigit(ds[i])) && t == ds + rest
    requires rest == [] || !IsDigit(rest[0])
    ensures t != [] && IsDigit(t[0]) && DigitRun(t, 10) == |ds| && t[..|ds|] == ds && t[|ds|..] == rest
  {
    assert t[0] == ds[0];
    DigitRunAppend(ds, rest);
    assert t[..|ds|] == ds && t[|ds|..] == rest;
  }

  /** `strtod` of digits not followed by '.' reads them as a whole number. */
  lemma StrtodWhole(s: string, unsigned: string, i: nat)
    requires Sign(SkipSpace(s)) == (false, unsigned)
    requires 0 < i == DigitRun(unsigned, 10)
    requires unsigned[i..] == [] || unsigned[i..][0] != '.'
    ensures Strtod(s) == Decimal(Value(unsigned[..i] + [], 10), 1, unsigned[i..])
  {
  }

  /** A string starting with a digit has no leading white space to skip. */
  lemma SkipSpaceOfDigit(s: string)
    requires s != [] && IsDigit(s[0])
    ensures SkipSpace(s) == s
  {
    assert !IsSpace(s[0]);
  }

  /** The decimal rendering of `n`, as `%d` prints it. */
  function NatToString(n: nat): (s: string)
    ensures s != [] && forall i :: 0 <= i < |s| ==> IsDigit(s[i])
    ensures |s| > 1 ==> s[0] != '0'
  {
    if n < 10 then [('0' as int + n) as char]
    else NatToString(n / 10) + [('0' as int + n % 10) as char]
  }

  /** `atoi` reads a rendered number back: the rendering and the parse are inverse. */
  lemma AtoiOfNatToString(n: nat)
    ensures Atoi(NatToString(n)) == n
  {
    AtoiOfNumberThen(n, "");
    assert NatToString(n) + "" == NatToString(n);
  }

  /** `atoi` of a rendered number followed by anything but a digit reads just the number. */
  lemma AtoiOfNumberThen(n: nat, rest: string)
    requires rest == [] || !IsDigit(rest[0])
    ensures Atoi(NatToString(n) + rest) == n
  {
    var s := NatToString(n);
    var t := s + rest;
    assert t[0] == s[0] && IsDigit(s[0]);
    assert Sign(t) == (false, t);
    DigitRunAppend(s, rest);
    assert t[..|s|] == s;
    AtoiOfSigned(t, false, t, s);
    ValueOfNatToString(n);
  }

  lemma {:induction false} DigitRunAppend(s: string, rest: string)
    requires forall i :: 0 <= i < |s| ==> IsDigit(s[i])
    requires rest == [] || !IsDigit(rest[0])
    ensures DigitRun(s + rest, 10) == |s|
  {
    if s != [] {
      assert (s + rest)[1..] == s[1..] + rest;
      DigitRunAppend(s[1..], rest);
    } else if rest != [] {
      assert (s + rest)[0] == rest[0];
    }
  }

  lemma {:induction false} ValueOfNatToString(n: nat)
    ensures Value(NatToString(n), 10) == n
  {
    var s := NatToString(n);
    if n >= 10 {
      assert s[..|s| - 1] == NatToString(n / 10);
      ValueOfNatToString(n / 10);
    }
  }

  /** `atoi` of a run of decimal digits, signed or not, is its value. */
  lemma {:induction false} AtoiOfDigits(ds: string, negative: bool)
    requires ds != [] && forall i :: 0 <= i < |ds| ==> IsDigit(ds[i])
    ensures Atoi(if negative then ['-'] + ds else ds) == if negative then -(Value(ds, 10) as int) else Value(ds, 10)
  {
    var s := if negative then ['-'] + ds else ds;
    assert IsDigit(ds[0]);
    SignOf(s, ds, negative);
    DigitRunAppend(ds, "");
    assert ds + "" == ds && ds[..|ds|] == ds;
    AtoiOfSigned(s, negative, ds, ds);
  }

  /** Once white space and sign are out of the way, the leading digits decide. */
  lemma AtoiOfSigned(s: string, negative: bool, rest: string, ds: string)
    requires s != [] && !IsSpace(s[0]) && Sign(s) == (negative, rest)
    requires |ds| == DigitRun(rest, 10) && rest[..|ds|] == ds
    ensures Atoi(s) == if negative then -(Value(ds, 10) as int) else Value(ds, 10)
  {
    assert SkipSpace(s) == s;
  }

  lemma SignOf(s: string, ds: string, negative: bool)
    requires ds != [] && IsDigit(ds[0]) && s == if negative then ['-'] + ds else ds
    ensures s != [] && !IsSpace(s[0]) && Sign(s) == (negative, ds)
  {
    if negative {
      assert s[1..] == ds;
    }
  }
}
