/** Character-level helpers the decoders share: hex digits, splitting on a
    separator, and the decimal numbers of calibration records. */
module Text {

  predicate IsDigit(c: char) { '0' <= c <= '9' }

  /** One character of the class [0-9A-Fa-f]. */
  predicate IsHexDigit(c: char)
  {
    IsDigit(c) || 'a' <= c <= 'f' || 'A' <= c <= 'F'
  }

  function HexValue(c: char): (v: nat)
    requires IsHexDigit(c)
    ensures v < 16
    ensures IsDigit(c) ==> v == c as int - '0' as int
    ensures 'a' <= c <= 'f' ==> v == c as int - 'a' as int + 10
    ensures 'A' <= c <= 'F' ==> v == c as int - 'A' as int + 10
  {
    if IsDigit(c) then c as int - '0' as int
    else if 'a' <= c <= 'f' then c as int - 'a' as int + 10
    else c as int - 'A' as int + 10
  }

  function Count<T(==)>(s: seq<T>, x: T): (n: nat)
    ensures n <= |s|
    ensures n == 0 <==> x !in s
  {
    if s == [] then 0 else (if s[0] == x then 1 else 0) + Count(s[1..], x)
  }

  lemma {:induction false} CountAppend<T>(a: seq<T>, b: seq<T>, x: T)
    ensures Count(a + b, x) == Count(a, x) + Count(b, x)
  {
    if a == [] {
      assert a + b == b;
    } else {
      assert (a + b)[1..] == a[1..] + b;
      CountAppend(a[1..], b, x);
    }
  }

  /** String.prototype.split with a one-character separator: the pieces
      between separators, empty pieces included. */
  function Split(s: string, sep: char): (parts: seq<string>)
    ensures |parts| == Count(s, sep) + 1
    ensures forall k :: 0 <= k < |parts| ==> sep !in parts[k]
  {
    if s == [] then [""]
    else
      var rest := Split(s[1..], sep);
      if s[0] == sep then [""] + rest
      else [[s[0]] + rest[0]] + rest[1..]
  }

  /** The pieces joined back with the separator between them. */
  function Join(parts: seq<string>, sep: char): string
    requires |parts| > 0
  {
    if |parts| == 1 then parts[0] else parts[0] + [sep] + Join(parts[1..], sep)
  }

  /** Splitting loses nothing: joining the pieces gives the input back. */
  lemma {:induction false} JoinSplit(s: string, sep: char)
    ensures Join(Split(s, sep), sep) == s
  {
    if s != [] {
      JoinSplit(s[1..], sep);
      var rest := Split(s[1..], sep);
      if s[0] == sep {
        assert Split(s, sep) == [""] + rest;
        assert ([""] + rest)[1..] == rest;
      } else {
        var parts := [[s[0]] + rest[0]] + rest[1..];
        assert Split(s, sep) == parts;
        if |rest| > 1 {
          assert parts[1..] == rest[1..];
          assert Join(rest, sep) == rest[0] + [sep] + Join(rest[1..], sep);
        }
      }
    }
  }

  predicate AllDigits(s: string) { forall k :: 0 <= k < |s| ==> IsDigit(s[k]) }

  function DigitsValue(s: string): (v: nat)
    requires AllDigits(s)
  {
    if s == [] then 0
    else DigitsValue(s[..|s| - 1]) * 10 + (s[|s| - 1] as int - '0' as int)
  }

  function Pow10(n: nat): (p: nat)
    ensures p >= 1
  {
    if n == 0 then 1 else 10 * Pow10(n - 1)
  }

  /** An unsigned decimal: digits, optionally followed by '.' and digits. */
  predicate IsUnsignedDecimal(s: string)
  {
    && s != []
    && AllDigits(s[..IndexOrLength(s, '.')])
    && IndexOrLength(s, '.') > 0
    && (IndexOrLength(s, '.') < |s| ==>
          && IndexOrLength(s, '.') + 1 < |s|
          && AllDigits(s[IndexOrLength(s, '.') + 1..]))
  }

  /** The decimal numbers this model reads with parseFloat: an optional minus
      sign and an unsigned decimal. */
  predicate IsDecimal(s: string)
  {
    if s != [] && s[0] == '-' then IsUnsignedDecimal(s[1..]) else IsUnsignedDecimal(s)
  }

  function IndexOrLength(s: string, c: char): (i: nat)
    ensures i <= |s|
    ensures i < |s| ==> s[i] == c
    ensures forall k :: 0 <= k < i ==> s[k] != c
  {
    if s == [] then 0 else if s[0] == c then 0 else 1 + IndexOrLength(s[1..], c)
  }

  function UnsignedDecimalValue(s: string): (v: real)
    requires IsUnsignedDecimal(s)
    ensures v >= 0.0
  {
    var dot := IndexOrLength(s, '.');
    var whole := DigitsValue(s[..dot]) as real;
    if dot == |s| then whole
    else
      var frac := s[dot + 1..];
      whole + DigitsValue(frac) as real / Pow10(|frac|) as real
  }

  /** Appending a digit multiplies the value read so far by ten and adds
      the digit. */
  lemma DigitsStep(s: string, d: char)
    requires AllDigits(s) && IsDigit(d)
    ensures AllDigits(s + [d])
    ensures DigitsValue(s + [d]) == 10 * DigitsValue(s) + (d as int - '0' as int)
  {
    assert (s + [d])[..|s|] == s;
  }

  /** The decimal digits of n, most significant first, without leading
      zeros: the reference writer the parser is checked against. */
  function DecimalDigits(n: nat): (s: string)
    ensures s != [] && AllDigits(s)
    ensures '.' !in s && '-' !in s
    decreases n
  {
    var d := ('0' as int + n % 10) as char;
    if n < 10 then [d] else DecimalDigits(n / 10) + [d]
  }

  /** Reading back the written digits gives the number. */
  lemma {:induction false} DecimalDigitsValue(n: nat)
    ensures DigitsValue(DecimalDigits(n)) == n
    decreases n
  {
    var d := ('0' as int + n % 10) as char;
    if n >= 10 {
      DecimalDigitsValue(n / 10);
      DigitsStep(DecimalDigits(n / 10), d);
    }
  }

  /** The first '.' of `w + "." + f` is the one after `w` when `w` has none. */
  lemma DotAfterWhole(w: string, f: string)
    requires '.' !in w
    ensures IndexOrLength(w + ['.'] + f, '.') == |w|
  {
    var s := w + ['.'] + f;
    var i := IndexOrLength(s, '.');
    assert s[|w|] == '.';
  }

  /** A string without '.' is read whole. */
  lemma NoDot(w: string)
    requires '.' !in w
    ensures IndexOrLength(w, '.') == |w|
  {
  }

  /** Digits hold no point. */
  lemma DigitsNoDot(w: string)
    requires AllDigits(w)
    ensures '.' !in w
  {
    forall k | 0 <= k < |w| ensures w[k] != '.' {
      assert IsDigit(w[k]);
    }
  }

  /** parseFloat of whole digits, with or without a leading minus sign. */
  lemma ParseWhole(w: string)
    requires w != [] && AllDigits(w)
    ensures IsDecimal(w) && ParseDecimal(w) == DigitsValue(w) as real
    ensures IsDecimal(['-'] + w) && ParseDecimal(['-'] + w) == -(DigitsValue(w) as real)
  {
    DigitsNoDot(w);
    NoDot(w);
    assert w[..|w|] == w;
    assert (['-'] + w)[1..] == w;
  }

  /** A string whose first '.' splits it into whole digits and fraction
      digits is an unsigned decimal with the value those digits give. */
  lemma UnsignedParts(s: string, dot: nat, w: string, f: string)
    requires dot == IndexOrLength(s, '.') && dot < |s|
    requires s[..dot] == w && s[dot + 1..] == f
    requires w != [] && AllDigits(w) && f != [] && AllDigits(f)
    ensures IsUnsignedDecimal(s)
    ensures UnsignedDecimalValue(s) == DigitsValue(w) as real + DigitsValue(f) as real / Pow10(|f|) as real
  {
  }

  /** Whole digits, a point and fraction digits: the whole value plus the
      fraction scaled by its length. */
  lemma ParseUnsignedFraction(w: string, f: string)
    requires w != [] && AllDigits(w) && f != [] && AllDigits(f)
    ensures IsUnsignedDecimal(w + ['.'] + f)
    ensures UnsignedDecimalValue(w + ['.'] + f) == DigitsValue(w) as real + DigitsValue(f) as real / Pow10(|f|) as real
  {
    var s := w + ['.'] + f;
    DigitsNoDot(w);
    DotAfterWhole(w, f);
    assert s[..|w|] == w;
    assert s[|w| + 1..] == f;
    UnsignedParts(s, |w|, w, f);
  }

  /** parseFloat of a fraction, with or without a leading minus sign. */
  lemma ParseFraction(w: string, f: string)
    requires w != [] && AllDigits(w) && f != [] && AllDigits(f)
    ensures var s := w + ['.'] + f;
            IsDecimal(s) && ParseDecimal(s) == DigitsValue(w) as real + DigitsValue(f) as real / Pow10(|f|) as real
    ensures var s := ['-'] + (w + ['.'] + f);
            IsDecimal(s) && ParseDecimal(s) == -(DigitsValue(w) as real + DigitsValue(f) as real / Pow10(|f|) as real)
  {
    var s := w + ['.'] + f;
    ParseUnsignedFraction(w, f);
    assert s[0] == w[0];
    assert IsDigit(w[0]);
    Unsigned(s);
    Negated(s);
  }

  /** Without a leading minus sign parseFloat reads the unsigned decimal. */
  lemma Unsigned(s: string)
    requires IsUnsignedDecimal(s) && s[0] != '-'
    ensures IsDecimal(s) && ParseDecimal(s) == UnsignedDecimalValue(s)
  {
  }

  /** A leading minus sign negates the unsigned decimal after it. */
  lemma Negated(s: string)
    requires IsUnsignedDecimal(s)
    ensures IsDecimal(['-'] + s) && ParseDecimal(['-'] + s) == -UnsignedDecimalValue(s)
  {
    assert (['-'] + s)[1..] == s;
  }

  /** Writing an integer in decimal and reading it back with parseFloat
      gives the integer. */
  lemma ParseDecimalRoundTrip(n: int)
    ensures var s := if n < 0 then ['-'] + DecimalDigits(-n) else DecimalDigits(n);
            IsDecimal(s) && ParseDecimal(s) == n as real
  {
    var m: nat := if n < 0 then -n else n;
    DecimalDigitsValue(m);
    ParseWhole(DecimalDigits(m));
  }

  /** parseFloat on a decimal in the grammar above. */
  function ParseDecimal(s: string): (v: real)
    requires IsDecimal(s)
    ensures s[0] == '-' ==> v <= 0.0
    ensures s[0] != '-' ==> v >= 0.0
  {
    if s[0] == '-' then -UnsignedDecimalValue(s[1..]) else UnsignedDecimalValue(s)
  }
}
