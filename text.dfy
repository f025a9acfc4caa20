/**
  String building and parsing from Rust's standard library that the header
  configuration relies on: `[String]::join`, `format!("{}", n)` for an
  unsigned integer, and the `FromStr` implementations of `u32` and `bool`.
*/
module Text {
  import opened Results

  const MAX_U32: nat := 0xFFFF_FFFF

  /** Rust's `u32`. */
  type U32 = n: nat | n <= MAX_U32

  // ---------------------------------------------------------------------------
  // Joining and splitting

  /** `parts.join(sep)`: the parts in order with `sep` between neighbours. */
  function Join(parts: seq<string>, sep: string): string
  {
    if |parts| == 0 then ""
    else if |parts| == 1 then parts[0]
    else parts[0] + sep + Join(parts[1..], sep)
  }

  /** Joining one more part appends the separator and the part. */
  lemma {:induction false} JoinSnoc(parts: seq<string>, last: string, sep: string)
    requires |parts| >= 1
    ensures Join(parts + [last], sep) == Join(parts, sep) + sep + last
  {
    if |parts| == 1 {
      assert parts + [last] == [parts[0], last];
    } else {
      assert (parts + [last])[1..] == parts[1..] + [last];
      JoinSnoc(parts[1..], last, sep);
    }
  }

  /** The first part opens the joined text. */
  lemma JoinPrefix(parts: seq<string>, sep: string)
    requires |parts| >= 1
    ensures parts[0] <= Join(parts, sep)
  {
    if |parts| > 1 {
      assert Join(parts, sep) == parts[0] + (sep + Join(parts[1..], sep));
    }
  }

  /** Strict split of `s` at every occurrence of `c`; the pieces never contain `c`. */
  function SplitOn(s: string, c: char): (r: seq<string>)
    ensures |r| >= 1
    ensures forall i :: 0 <= i < |r| ==> c !in r[i]
  {
    if |s| == 0 then [""]
    else
      var rest := SplitOn(s[1..], c);
      if s[0] == c then [""] + rest
      else [[s[0]] + rest[0]] + rest[1..]
  }

  lemma {:induction false} SplitOnFree(s: string, c: char)
    requires c !in s
    ensures SplitOn(s, c) == [s]
  {
    if |s| > 0 {
      SplitOnFree(s[1..], c);
      assert [s[0]] + s[1..] == s;
    }
  }

  /** Splitting at the first separator peels off the text before it. */
  lemma {:induction false} SplitOnAt(a: string, c: char, b: string)
    requires c !in a
    ensures SplitOn(a + [c] + b, c) == [a] + SplitOn(b, c)
  {
    var s := a + [c] + b;
    if |a| == 0 {
      assert s == [c] + b;
      assert s[1..] == b;
    } else {
      assert s[1..] == a[1..] + [c] + b;
      SplitOnAt(a[1..], c, b);
      assert [a[0]] + a[1..] == a;
    }
  }

  /** A leading character other than the separator joins the first piece. */
  lemma SplitOnCons(x: char, s: string, c: char)
    requires x != c
    ensures SplitOn([x] + s, c) == [[x] + SplitOn(s, c)[0]] + SplitOn(s, c)[1..]
  {
    assert ([x] + s)[1..] == s;
  }

  /**
    Splitting a `"; "`-joined list at `;` gives the parts back, every one
    after the first still carrying the space of the separator.
  */
  lemma {:induction false} SplitOnJoin(parts: seq<string>)
    requires |parts| >= 1
    requires forall i :: 0 <= i < |parts| ==> ';' !in parts[i]
    ensures SplitOn(Join(parts, "; "), ';')
         == seq(|parts|, i requires 0 <= i < |parts| => if i == 0 then parts[0] else " " + parts[i])
  {
    var want := seq(|parts|, i requires 0 <= i < |parts| => if i == 0 then parts[0] else " " + parts[i]);
    if |parts| == 1 {
      SplitOnFree(parts[0], ';');
    } else {
      var rest := parts[1..];
      var tail := Join(rest, "; ");
      assert Join(parts, "; ") == parts[0] + [';'] + ([' '] + tail);
      SplitOnAt(parts[0], ';', [' '] + tail);
      SplitOnJoin(rest);
      SplitOnCons(' ', tail, ';');
      var got := [parts[0]] + SplitOn([' '] + tail, ';');
      assert |got| == |want|;
      forall i | 0 <= i < |want| ensures got[i] == want[i] {
        if i >= 1 {
          assert rest[i - 1] == parts[i];
        }
      }
    }
  }

  // ---------------------------------------------------------------------------
  // ASCII whitespace and trimming

  /** ASCII whitespace: TAB, LF, FF, CR and SPACE. */
  predicate IsWhitespace(c: char)
  {
    c == '\t' || c == '\n' || c == 12 as char || c == '\r' || c == ' '
  }

  predicate NoWhitespace(s: string)
  {
    forall i :: 0 <= i < |s| ==> !IsWhitespace(s[i])
  }

  /** Neither starts nor ends with whitespace (the empty string included). */
  predicate Unpadded(s: string)
  {
    |s| == 0 || (!IsWhitespace(s[0]) && !IsWhitespace(s[|s| - 1]))
  }

  function TrimLeft(s: string): (r: string)
    ensures |r| <= |s|
    ensures |r| == 0 || !IsWhitespace(r[0])
  {
    if |s| > 0 && IsWhitespace(s[0]) then TrimLeft(s[1..]) else s
  }

  function TrimRight(s: string): (r: string)
    ensures |r| <= |s|
  {
    if |s| > 0 && IsWhitespace(s[|s| - 1]) then TrimRight(s[..|s| - 1]) else s
  }

  function Trim(s: string): string
  {
    TrimRight(TrimLeft(s))
  }

  lemma TrimUnpadded(s: string)
    requires Unpadded(s)
    ensures Trim(s) == s
  {
  }

  lemma TrimLeadingSpace(s: string)
    ensures Trim([' '] + s) == Trim(s)
  {
    assert ([' '] + s)[1..] == s;
  }

  // ---------------------------------------------------------------------------
  // Decimal digits

  predicate IsDigit(c: char)
  {
    '0' <= c <= '9'
  }

  function DigitValue(c: char): (d: nat)
    requires IsDigit(c)
  {
    c as int - '0' as int
  }

  function DigitChar(d: nat): (c: char)
    requires d < 10
    ensures IsDigit(c) && DigitValue(c) == d
  {
    ('0' as int + d) as char
  }

  function Pow10(k: nat): (p: nat)
    ensures p >= 1
  {
    if k == 0 then 1 else 10 * Pow10(k - 1)
  }

  /** `format!("{}", n)`: the decimal digits of `n`, most significant first, no leading zero. */
  function Decimal(n: nat): (s: string)
    ensures |s| >= 1
    ensures forall i :: 0 <= i < |s| ==> IsDigit(s[i])
    ensures s[0] == '0' ==> n == 0
  {
    if n < 10 then [DigitChar(n)] else Decimal(n / 10) + [DigitChar(n % 10)]
  }

  // ---------------------------------------------------------------------------
  // `str::parse::<u32>()` and `str::parse::<bool>()`

  /** The cases of Rust's `ParseIntError` that an unsigned parse can produce. */
  datatype IntErrorKind = Empty | InvalidDigit | PosOverflow

  /** The `Display` text of a `ParseIntError`. */
  function IntErrorText(k: IntErrorKind): string
  {
    match k
    case Empty => "cannot parse integer from empty string"
    case InvalidDigit => "invalid digit found in string"
    case PosOverflow => "number too large to fit in target type"
  }

  /**
    Digits read left to right into `acc`: the first character that is not a
    digit is an invalid digit, and the first digit that takes the value past
    `u32::MAX` is an overflow, whichever comes first.
  */
  function ScanDigits(s: string, acc: U32): Result<U32, IntErrorKind>
  {
    if |s| == 0 then Ok(acc)
    else if !IsDigit(s[0]) then Err(InvalidDigit)
    else if acc * 10 + DigitValue(s[0]) > MAX_U32 then Err(PosOverflow)
    else ScanDigits(s[1..], acc * 10 + DigitValue(s[0]))
  }

  /** `u32::from_str`: one optional leading `+`, then at least one decimal digit. */
  function ParseU32(s: string): Result<U32, IntErrorKind>
  {
    if |s| == 0 then Err(Empty)
    else if s == "+" then Err(InvalidDigit)
    else if s[0] == '+' then ScanDigits(s[1..], 0)
    else ScanDigits(s, 0)
  }

  /** Appending one decimal digit `d` to `acc * p + q` scales it by ten. */
  lemma ShiftDigit(acc: nat, p: nat, q: nat, d: nat)
    ensures (acc * p + q) * 10 + d == acc * (10 * p) + (q * 10 + d)
    ensures acc * p + q <= (acc * p + q) * 10 + d
  {
  }

  /** Reading the digits of `n` after `acc` appends `n` to `acc` in decimal. */
  lemma {:induction false} ScanDecimal(n: nat, rest: string, acc: U32)
    requires acc * Pow10(|Decimal(n)|) + n <= MAX_U32
    ensures ScanDigits(Decimal(n) + rest, acc) == ScanDigits(rest, acc * Pow10(|Decimal(n)|) + n)
  {
    if n < 10 {
      assert (Decimal(n) + rest)[1..] == rest;
    } else {
      var q, d := n / 10, n % 10;
      var len := |Decimal(q)|;
      var tail := [DigitChar(d)] + rest;
      assert Decimal(n) == Decimal(q) + [DigitChar(d)];
      assert |Decimal(n)| == len + 1;
      assert Pow10(len + 1) == 10 * Pow10(len);
      ShiftDigit(acc, Pow10(len), q, d);
      assert n == q * 10 + d;
      var mid := acc * Pow10(len) + q;
      assert mid * 10 + d == acc * Pow10(len + 1) + n;
      assert Decimal(n) + rest == Decimal(q) + tail;
      ScanDecimal(q, tail, acc);
      assert tail[0] == DigitChar(d) && tail[1..] == rest;
    }
  }

  /** Parsing what `format!("{}", n)` prints gives `n` back. */
  lemma ParseDecimal(n: U32)
    ensures ParseU32(Decimal(n)) == Ok(n)
  {
    assert Decimal(n) + "" == Decimal(n);
    ScanDecimal(n, "", 0);
    assert Decimal(n) != "+" by {
      assert IsDigit(Decimal(n)[0]);
    }
  }

  /** The zero-sized `ParseBoolError`. */
  datatype BoolError = BoolError

  function BoolErrorText(e: BoolError): string
  {
    "provided string was not `true` or `false`"
  }

  /** `bool::from_str`: exactly `true` or `false`, nothing else. */
  function ParseBool(s: string): Result<bool, BoolError>
  {
    if s == "true" then Ok(true)
    else if s == "false" then Ok(false)
    else Err(BoolError)
  }
}
