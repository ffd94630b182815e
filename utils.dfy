/**
 * The string helpers of utils.go: SafeParseInt and SafeParseUint64 (decimal
 * parsing with a default on any error, as strconv.Atoi and
 * strconv.ParseUint(s, 10, 64) decide it) and JoinArgs (the arguments joined
 * with single spaces, then form-encoded by url.QueryEscape).
 */
module Utils {
  import opened Basics

  const MAX_UINT64: int := 0xFFFF_FFFF_FFFF_FFFF
  /** Go's `int` on a 64-bit platform. */
  const MAX_INT: int := 0x7FFF_FFFF_FFFF_FFFF
  const MIN_INT: int := -0x8000_0000_0000_0000

  type uint64 = n: int | 0 <= n <= MAX_UINT64
  type int64 = n: int | MIN_INT <= n <= MAX_INT

  const SPACE: byte := 0x20
  const PERCENT: byte := 0x25
  const PLUS: byte := 0x2B
  const MINUS: byte := 0x2D

  // ---------------------------------------------------------------------------
  // Decimal digits and their value
  // ---------------------------------------------------------------------------

  predicate IsDigit(b: byte) { '0' as int <= b <= '9' as int }

  function DigitValue(b: byte): (d: nat)
    requires IsDigit(b)
    ensures d < 10
  {
    b - '0' as int
  }

  function DigitByte(d: nat): (b: byte)
    requires d < 10
    ensures IsDigit(b) && DigitValue(b) == d
  {
    '0' as int + d
  }

  predicate AllDigits(s: GoString) { forall i | 0 <= i < |s| :: IsDigit(s[i]) }

  /** A non-empty run of decimal digits (leading zeros allowed, as in Go). */
  predicate IsDecimal(s: GoString) { |s| > 0 && AllDigits(s) }

  function Pow10(k: nat): (p: nat)
    ensures p >= 1
  {
    if k == 0 then 1 else 10 * Pow10(k - 1)
  }

  /** The value of a string of decimal digits, most significant digit first. */
  function DecimalValue(s: GoString): nat
    requires AllDigits(s)
    decreases |s|
  {
    if s == [] then 0
    else
      10 * DecimalValue(s[..|s| - 1]) + DigitValue(s[|s| - 1])
  }

  /** Every slice of a digit string is a digit string. */
  lemma AllDigitsSlice(s: GoString, i: nat, j: nat)
    requires AllDigits(s) && i <= j <= |s|
    ensures AllDigits(s[i..j])
  {
  }

  /** Peeling off the leading digit instead of the trailing one. */
  lemma {:induction false} DecimalValueCons(s: GoString)
    requires IsDecimal(s)
    ensures AllDigits(s[1..])
    ensures DecimalValue(s) == DigitValue(s[0]) * Pow10(|s| - 1) + DecimalValue(s[1..])
    decreases |s|
  {
    AllDigitsSlice(s, 1, |s|);
    assert s[1..] == s[1..|s|];
    if |s| > 1 {
      var p := s[..|s| - 1];
      AllDigitsSlice(s, 0, |s| - 1);
      assert p == s[0..|s| - 1];
      DecimalValueCons(p);
      var t := s[1..];
      assert p[0] == s[0];
      assert p[1..] == t[..|t| - 1];
      assert t[|t| - 1] == s[|s| - 1];
      var d, q, v, l := DigitValue(s[0]), Pow10(|s| - 2), DecimalValue(p[1..]), DigitValue(s[|s| - 1]);
      assert DecimalValue(s) == 10 * DecimalValue(p) + l;
      assert DecimalValue(t) == 10 * v + l;
      assert Pow10(|s| - 1) == 10 * q;
      ShiftDigit(d, q, v, l);
    }
  }

  /** The arithmetic step of DecimalValueCons. */
  lemma ShiftDigit(d: int, q: int, v: int, l: int)
    ensures 10 * (d * q + v) + l == d * (10 * q) + (10 * v + l)
  {
  }

  // ---------------------------------------------------------------------------
  // strconv.ParseUint(s, 10, 64)
  // ---------------------------------------------------------------------------

  /** strconv's cutoff for base 10: maxUint64/10 + 1, the first value that overflows when multiplied by 10. */
  const UINT64_CUTOFF: int := MAX_UINT64 / 10 + 1

  /**
   * The digit loop of strconv.ParseUint for base 10 and 64 bits, continuing
   * from the accumulated value n: a non-digit is a syntax error, and the
   * loop stops with a range error as soon as n >= cutoff (10 * n would
   * overflow) or n * 10 + d passes the maximum (in Go: wraps around or
   * exceeds maxVal). Both errors are None here, since the callers in
   * utils.go treat every error alike.
   */
  function Accumulate(s: GoString, n: uint64): Option<uint64>
    decreases |s|
  {
    if s == [] then Some(n)
    else if !IsDigit(s[0]) then None
    else if n >= UINT64_CUTOFF then None
    else
      var n1 := 10 * n + DigitValue(s[0]);
      if n1 > MAX_UINT64 then None else Accumulate(s[1..], n1)
  }

  /** The overflow-checked loop computes exactly the mathematical value, and fails exactly when it does not fit. */
  lemma {:induction false} AccumulateValue(s: GoString, n: uint64)
    ensures Accumulate(s, n).Some? <==> AllDigits(s) && n * Pow10(|s|) + DecimalValue(s) <= MAX_UINT64
    ensures Accumulate(s, n).Some? ==> AllDigits(s) && Accumulate(s, n).value == n * Pow10(|s|) + DecimalValue(s)
    decreases |s|
  {
    if s != [] && IsDigit(s[0]) {
      var t := s[1..];
      assert AllDigits(s) <==> AllDigits(t) by {
        if AllDigits(t) {
          forall i | 0 <= i < |s| ensures IsDigit(s[i]) { if i > 0 { assert s[i] == t[i - 1]; } }
        }
        if AllDigits(s) {
          AllDigitsPrefix(s);
        }
      }
      var d := DigitValue(s[0]);
      if AllDigits(s) {
        DecimalValueCons(s);
        var q, v := Pow10(|t|), DecimalValue(t);
        assert Pow10(|s|) == 10 * q;
        assert DecimalValue(s) == d * q + v;
        ScaleStep(n, d, q, v);
      }
      if n < UINT64_CUTOFF && 10 * n + d <= MAX_UINT64 {
        AccumulateValue(t, 10 * n + d);
      }
    }
  }

  /** A digit string without its first byte is a digit string. */
  lemma AllDigitsPrefix(s: GoString)
    requires s != [] && AllDigits(s)
    ensures AllDigits(s[1..])
  {
  }

  /**
   * The arithmetic of one step of the loop: taking digit d into the
   * accumulator n before scaling by q gives the same value, and that value
   * is at least 10n + d.
   */
  lemma ScaleStep(n: nat, d: nat, q: nat, v: nat)
    requires q >= 1
    ensures n * (10 * q) + (d * q + v) == (10 * n + d) * q + v
    ensures (10 * n + d) * q + v >= 10 * n + d
  {
  }

  /** strconv.ParseUint(s, 10, 64), None standing for its error. */
  function ParseUint(s: GoString): (r: Option<uint64>)
    ensures r.Some? <==> IsDecimal(s) && DecimalValue(s) <= MAX_UINT64
    ensures r.Some? ==> IsDecimal(s) && r.value == DecimalValue(s)
  {
    if s == [] then None
    else
      AccumulateValue(s, 0);
      Accumulate(s, 0)
  }

  // ---------------------------------------------------------------------------
  // strconv.Atoi
  // ---------------------------------------------------------------------------

  /** The string with one leading '+' or '-' removed, if it has one. */
  function Unsigned(s: GoString): GoString
  {
    if |s| > 0 && (s[0] == PLUS || s[0] == MINUS) then s[1..] else s
  }

  /** An optional sign followed by at least one decimal digit. */
  predicate IsSignedDecimal(s: GoString) { IsDecimal(Unsigned(s)) }

  function SignedValue(s: GoString): int
    requires IsSignedDecimal(s)
  {
    if s[0] == MINUS then -(DecimalValue(Unsigned(s)) as int) else DecimalValue(Unsigned(s))
  }

  predicate InIntRange(x: int) { MIN_INT <= x <= MAX_INT }

  /** strconv's cutoff for a 64-bit signed result: 1 << 63. */
  const INT_CUTOFF: int := 0x8000_0000_0000_0000

  /**
   * strconv.Atoi on a 64-bit platform, that is strconv.ParseInt(s, 10, 0):
   * an empty string is a syntax error; one leading sign is taken off; the
   * rest goes to ParseUint; then the magnitude must be below 1 << 63, or at
   * most 1 << 63 when negative. (ParseUint's own range error leads to the
   * same cutoff failure in Go, so it is None here as well. Atoi's fast path
   * for short strings decides the same way.)
   */
  function Atoi(s: GoString): (r: Option<int64>)
    ensures r.Some? <==> IsSignedDecimal(s) && InIntRange(SignedValue(s))
    ensures r.Some? ==> r.value == SignedValue(s)
  {
    if s == [] then None
    else
      var neg := s[0] == MINUS;
      match ParseUint(Unsigned(s))
      case None => None
      case Some(un) =>
        if !neg && un >= INT_CUTOFF then None
        else if neg && un > INT_CUTOFF then None
        else Some(if neg then -(un as int) else un)
  }

  // ---------------------------------------------------------------------------
  // SafeParseInt and SafeParseUint64
  // ---------------------------------------------------------------------------

  /**
   * SafeParseInt(s, d): the value of s when s is an optionally signed decimal
   * whose value fits in an int; d when s is empty, has a non-digit (or
   * nothing) after the optional sign, or is out of range.
   */
  function SafeParseInt(s: GoString, d: int64): (r: int64)
    ensures IsSignedDecimal(s) && InIntRange(SignedValue(s)) ==> r == SignedValue(s)
    ensures s == [] || Unsigned(s) == [] || !AllDigits(Unsigned(s)) || !InIntRange(SignedValue(s)) ==> r == d
  {
    match Atoi(s)
    case None => d
    case Some(n) => n
  }

  /**
   * SafeParseUint64(s, d): the value of s when s is a non-empty run of
   * decimal digits whose value is at most 2^64 - 1; d when s is empty, has
   * any non-digit (a sign included) or is out of range.
   */
  function SafeParseUint64(s: GoString, d: uint64): (r: uint64)
    ensures IsDecimal(s) && DecimalValue(s) <= MAX_UINT64 ==> r == DecimalValue(s)
    ensures s == [] || s[0] == PLUS || s[0] == MINUS || !AllDigits(s) || DecimalValue(s) > MAX_UINT64 ==> r == d
  {
    match ParseUint(s)
    case None => d
    case Some(n) => n
  }

  // ---------------------------------------------------------------------------
  // Decimal rendering (strconv.FormatUint / strconv.Itoa) and round trips
  // ---------------------------------------------------------------------------

  /** The shortest decimal rendering of n, as strconv.FormatUint(n, 10) writes it. */
  function FormatUint(n: nat): GoString
    decreases n
  {
    if n < 10 then [DigitByte(n)] else FormatUint(n / 10) + [DigitByte(n % 10)]
  }

  /** The decimal rendering of n, with a leading '-' when negative, as strconv.Itoa writes it. */
  function FormatInt(n: int): GoString
  {
    if n < 0 then [MINUS] + FormatUint(-n) else FormatUint(n)
  }

  lemma {:induction false} FormatUintDecimal(n: nat)
    ensures IsDecimal(FormatUint(n)) && DecimalValue(FormatUint(n)) == n
    decreases n
  {
    var s := FormatUint(n);
    if n >= 10 {
      FormatUintDecimal(n / 10);
      var p := FormatUint(n / 10);
      assert s[..|s| - 1] == p;
      forall i | 0 <= i < |s| ensures IsDigit(s[i]) {
        if i < |p| { assert s[i] == p[i]; }
      }
    } else {
      assert s[..|s| - 1] == [];
    }
  }

  /** Parsing the rendering of any 64-bit unsigned value gives it back, whatever the default. */
  lemma SafeParseUint64RoundTrip(n: uint64, d: uint64)
    ensures SafeParseUint64(FormatUint(n), d) == n
  {
    FormatUintDecimal(n);
  }

  /** Parsing the rendering of any int gives it back, whatever the default. */
  lemma SafeParseIntRoundTrip(n: int64, d: int64)
    ensures SafeParseInt(FormatInt(n), d) == n
  {
    var s := FormatInt(n);
    if n < 0 {
      FormatUintDecimal(-(n as int));
      assert Unsigned(s) == FormatUint(-(n as int));
    } else {
      FormatUintDecimal(n);
      assert IsDigit(s[0]);
      assert Unsigned(s) == s;
    }
  }

  // ---------------------------------------------------------------------------
  // url.QueryEscape and JoinArgs
  // ---------------------------------------------------------------------------

  /** The unreserved characters of section 2.3 of RFC 3986: ASCII letters, digits, '-', '_', '.', '~'. */
  predicate IsUnreserved(b: byte)
  {
    ('a' as int <= b <= 'z' as int) || ('A' as int <= b <= 'Z' as int) || IsDigit(b)
    || b == '-' as int || b == '_' as int || b == '.' as int || b == '~' as int
  }

  predicate IsHexDigit(b: byte)
  {
    IsDigit(b) || ('a' as int <= b <= 'f' as int) || ('A' as int <= b <= 'F' as int)
  }

  function HexValue(b: byte): (v: nat)
    requires IsHexDigit(b)
    ensures v < 16
  {
    if IsDigit(b) then b - '0' as int
    else if 'a' as int <= b <= 'f' as int then b - 'a' as int + 10
    else b - 'A' as int + 10
  }

  /** The upper-case hex digit net/url writes for a nibble. */
  function UpperHex(x: nat): (b: byte)
    requires x < 16
    ensures IsHexDigit(b) && HexValue(b) == x
  {
    if x < 10 then '0' as int + x else 'A' as int + (x - 10)
  }

  /** A byte that can appear in QueryEscape's output. */
  predicate IsQuerySafe(b: byte)
  {
    IsUnreserved(b) || b == PLUS || b == PERCENT
  }

  /** What url.QueryEscape writes for one byte: itself if unreserved, '+' for a space, else %XX in upper case. */
  function EscapeByte(b: byte): GoString
  {
    if IsUnreserved(b) then [b]
    else if b == SPACE then [PLUS]
    else [PERCENT, UpperHex(b / 16), UpperHex(b % 16)]
  }

  /**
   * url.QueryEscape: unreserved bytes (section 2.3 of RFC 3986) are kept,
   * a space becomes '+', and every other byte becomes %XX in upper case.
   */
  function QueryEscape(s: GoString): (r: GoString)
    ensures forall i | 0 <= i < |r| :: IsQuerySafe(r[i])
    ensures |r| >= |s|
  {
    if s == [] then [] else EscapeByte(s[0]) + QueryEscape(s[1..])
  }

  /** url.QueryUnescape: '+' decodes to a space, %XX (either case) to its byte; a '%' without two hex digits is an error. */
  function QueryUnescape(s: GoString): Option<GoString>
    decreases |s|
  {
    if s == [] then Some([])
    else if s[0] == PERCENT then
      if |s| >= 3 && IsHexDigit(s[1]) && IsHexDigit(s[2])
      then Prepend(16 * HexValue(s[1]) + HexValue(s[2]), QueryUnescape(s[3..]))
      else None
    else Prepend(if s[0] == PLUS then SPACE else s[0], QueryUnescape(s[1..]))
  }

  function Prepend(b: byte, r: Option<GoString>): Option<GoString>
  {
    match r
    case None => None
    case Some(t) => Some([b] + t)
  }

  /** Escaping loses nothing: QueryUnescape recovers every byte string from its escape. */
  lemma {:induction false} QueryEscapeRoundTrip(s: GoString)
    ensures QueryUnescape(QueryEscape(s)) == Some(s)
    decreases |s|
  {
    if s != [] {
      QueryEscapeRoundTrip(s[1..]);
      var t := QueryEscape(s);
      var rest := QueryEscape(s[1..]);
      var b := s[0];
      if IsUnreserved(b) {
        assert t == [b] + rest;
        assert t[1..] == rest;
      } else if b == SPACE {
        assert t == [PLUS] + rest;
        assert t[1..] == rest;
      } else {
        assert t == [PERCENT, UpperHex(b / 16), UpperHex(b % 16)] + rest;
        assert t[3..] == rest;
        assert 16 * HexValue(t[1]) + HexValue(t[2]) == b;
      }
      assert [b] + s[1..] == s;
    }
  }

  lemma {:induction false} QueryEscapeAppend(a: GoString, b: GoString)
    ensures QueryEscape(a + b) == QueryEscape(a) + QueryEscape(b)
    decreases |a|
  {
    if a != [] {
      assert (a + b)[1..] == a[1..] + b;
      QueryEscapeAppend(a[1..], b);
    } else {
      assert a + b == b;
    }
  }

  /** Bytes that are all unreserved are left as they are. */
  lemma {:induction false} QueryEscapeUnreserved(s: GoString)
    requires forall i | 0 <= i < |s| :: IsUnreserved(s[i])
    ensures QueryEscape(s) == s
    decreases |s|
  {
    if s != [] {
      QueryEscapeUnreserved(s[1..]);
    }
  }

  /** The combined length of the elements. */
  function TotalLength(elems: seq<GoString>): nat
  {
    if elems == [] then 0 else |elems[0]| + TotalLength(elems[1..])
  }

  /** strings.Join: the elements with sep between each pair. */
  function Join(elems: seq<GoString>, sep: GoString): GoString
  {
    if |elems| == 0 then []
    else if |elems| == 1 then elems[0]
    else elems[0] + sep + Join(elems[1..], sep)
  }

  /**
   * The shape of a join: it starts with the first element, ends with the
   * last, and holds every byte of the elements plus one separator fewer
   * than there are elements.
   */
  lemma {:induction false} JoinShape(elems: seq<GoString>, sep: GoString)
    requires elems != []
    ensures |Join(elems, sep)| == TotalLength(elems) + (|elems| - 1) * |sep|
    ensures Join(elems, sep)[..|elems[0]|] == elems[0]
    ensures |elems[|elems| - 1]| <= |Join(elems, sep)|
    ensures Join(elems, sep)[|Join(elems, sep)| - |elems[|elems| - 1]|..] == elems[|elems| - 1]
    decreases |elems|
  {
    if |elems| > 1 {
      var rest := elems[1..];
      JoinShape(rest, sep);
      var m := |rest| - 1;
      assert (m + 1) * |sep| == |sep| + m * |sep|;
      assert TotalLength(elems) == |elems[0]| + TotalLength(rest);
      assert rest[m] == elems[|elems| - 1];
    }
  }

  /** JoinArgs: the arguments joined with single spaces, then query-escaped. */
  function JoinArgs(args: seq<GoString>): (r: GoString)
    ensures args == [] ==> r == []
    ensures forall i | 0 <= i < |r| :: r[i] != SPACE
  {
    QueryEscape(Join(args, [SPACE]))
  }

  /** JoinArgs is undone by QueryUnescape: the space-joined arguments come back unchanged. */
  lemma JoinArgsRoundTrip(args: seq<GoString>)
    ensures QueryUnescape(JoinArgs(args)) == Some(Join(args, [SPACE]))
  {
    QueryEscapeRoundTrip(Join(args, [SPACE]));
  }

  /** For arguments of unreserved bytes only, JoinArgs is the arguments joined with '+'. */
  lemma {:induction false} JoinArgsUnreserved(args: seq<GoString>)
    requires forall i, j | 0 <= i < |args| && 0 <= j < |args[i]| :: IsUnreserved(args[i][j])
    ensures JoinArgs(args) == Join(args, [PLUS])
    decreases |args|
  {
    if |args| == 1 {
      QueryEscapeUnreserved(args[0]);
    } else if |args| > 1 {
      var rest := args[1..];
      assert forall i, j | 0 <= i < |rest| && 0 <= j < |rest[i]| :: IsUnreserved(rest[i][j]) by {
        forall i, j | 0 <= i < |rest| && 0 <= j < |rest[i]| ensures IsUnreserved(rest[i][j]) {
          assert rest[i] == args[i + 1];
        }
      }
      JoinArgsUnreserved(rest);
      QueryEscapeUnreserved(args[0]);
      QueryEscapeAppend(args[0] + [SPACE], Join(rest, [SPACE]));
      QueryEscapeAppend(args[0], [SPACE]);
      assert QueryEscape([SPACE]) == [PLUS];
    }
  }
}
