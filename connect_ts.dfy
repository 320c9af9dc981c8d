/** connect.ts, the earlier version of the connection module: it turns each
    notification into a string of one character per byte, splits a
    Motherboard payload into hex pairs mapped onto named keys, passes other
    boards' strings on, and sets the services up only once the device fires
    "gattserverconnected". */
module ConnectTs {
  import opened Types
  import opened Text
  import Motherboard
  import opened Transport

  // ---------------------------------------------------------------------
  // String.prototype.match(/.{1,2}/g)
  // ---------------------------------------------------------------------

  /** The characters `.` does not match: the ECMAScript line terminators. */
  predicate IsLineTerminator(c: char)
  {
    c as int == 0x0A || c as int == 0x0D || c as int == 0x2028 || c as int == 0x2029
  }

  /** The successive matches of /.{1,2}/g: from each position, two
      characters if neither is a line terminator, one if only the first is
      not, and no match at a line terminator, which is stepped over. */
  function Matches(s: string): (ms: seq<string>)
    ensures |ms| <= |s|
    ensures ms == [] <==> WithoutTerminators(s) == []
    decreases |s|
  {
    if s == [] then []
    else if IsLineTerminator(s[0]) then Matches(s[1..])
    else if |s| >= 2 && !IsLineTerminator(s[1]) then [s[..2]] + Matches(s[2..])
    else [s[..1]] + Matches(s[1..])
  }

  /** What match returns: null when nothing matched. */
  function Match(s: string): (r: Option<seq<string>>)
    ensures r.None? <==> Matches(s) == []
  {
    if Matches(s) == [] then None else Some(Matches(s))
  }

  function Concat(ms: seq<string>): string
  {
    if ms == [] then [] else ms[0] + Concat(ms[1..])
  }

  /** The string with its line terminators removed. */
  function WithoutTerminators(s: string): (t: string)
    ensures |t| <= |s|
  {
    if s == [] then []
    else (if IsLineTerminator(s[0]) then [] else [s[0]]) + WithoutTerminators(s[1..])
  }

  /** Every match is one or two characters, none a line terminator. */
  predicate Shaped(ms: seq<string>)
  {
    && (forall k :: 0 <= k < |ms| ==> 1 <= |ms[k]| <= 2)
    && (forall k, j :: 0 <= k < |ms| && 0 <= j < |ms[k]| ==> !IsLineTerminator(ms[k][j]))
  }

  lemma {:induction false} MatchesShape(s: string)
    ensures Shaped(Matches(s))
    decreases |s|
  {
    if s != [] {
      if IsLineTerminator(s[0]) {
        MatchesShape(s[1..]);
      } else if |s| >= 2 && !IsLineTerminator(s[1]) {
        MatchesShape(s[2..]);
        ShapedCons(s[..2], Matches(s[2..]));
      } else {
        MatchesShape(s[1..]);
        ShapedCons(s[..1], Matches(s[1..]));
      }
    }
  }

  /** One more well-formed match in front keeps the shape. */
  lemma ShapedCons(m: string, ms: seq<string>)
    requires 1 <= |m| <= 2 && forall j :: 0 <= j < |m| ==> !IsLineTerminator(m[j])
    requires Shaped(ms)
    ensures Shaped([m] + ms)
  {
    var all := [m] + ms;
    assert forall k :: 1 <= k < |all| ==> all[k] == ms[k - 1];
  }

  /** The matches, put back together, are the string without its line
      terminators: no other character is lost, none is repeated, and the
      order is kept. */
  lemma {:induction false} MatchesCover(s: string)
    ensures Concat(Matches(s)) == WithoutTerminators(s)
    decreases |s|
  {
    if s != [] {
      if IsLineTerminator(s[0]) {
        MatchesCover(s[1..]);
      } else if |s| >= 2 && !IsLineTerminator(s[1]) {
        MatchesCover(s[2..]);
        var ms := [s[..2]] + Matches(s[2..]);
        assert ms[0] == s[..2] && ms[1..] == Matches(s[2..]);
        assert WithoutTerminators(s[1..]) == [s[1]] + WithoutTerminators(s[2..]) by {
          assert s[1..][0] == s[1] && s[1..][1..] == s[2..];
        }
        assert s[..2] == [s[0]] + [s[1]];
      } else {
        MatchesCover(s[1..]);
        var ms := [s[..1]] + Matches(s[1..]);
        assert ms[0] == s[..1] && ms[1..] == Matches(s[1..]);
        assert s[..1] == [s[0]];
      }
    }
  }

  function Min(a: int, b: int): int { if a <= b then a else b }

  /** Pair k of a string is pair k - 1 of the string less its first two
      characters. */
  lemma PairAfterFirst(s: string, k: int)
    requires |s| >= 2 && 1 <= k && 2 * k < |s|
    ensures s[2..][2 * (k - 1)..Min(2 * (k - 1) + 2, |s| - 2)] == s[2 * k..Min(2 * k + 2, |s|)]
  {
  }

  /** Without line terminators the matches are the consecutive pairs of
      the string, the last one a single character when the length is odd. */
  lemma {:induction false} MatchesArePairs(s: string)
    requires forall k :: 0 <= k < |s| ==> !IsLineTerminator(s[k])
    ensures |Matches(s)| == (|s| + 1) / 2
    ensures forall k :: 0 <= k < |Matches(s)| ==> Matches(s)[k] == s[2 * k..Min(2 * k + 2, |s|)]
    decreases |s|
  {
    if s != [] {
      if |s| >= 2 {
        var t := s[2..];
        MatchesArePairs(t);
        var ms := Matches(s);
        assert ms == [s[..2]] + Matches(t);
        forall k | 0 <= k < |ms| ensures ms[k] == s[2 * k..Min(2 * k + 2, |s|)] {
          if k > 0 {
            assert ms[k] == Matches(t)[k - 1];
            PairAfterFirst(s, k);
          }
        }
      } else {
        assert Matches(s) == [s[..1]] + Matches(s[1..]);
        assert s[1..] == [];
      }
    }
  }

  // ---------------------------------------------------------------------
  // parseInt(string, 16)
  // ---------------------------------------------------------------------

  /** The characters parseInt skips before the number: white space and line
      terminators. */
  predicate IsStrWhiteSpace(c: char)
  {
    var n := c as int;
    || 0x09 <= n <= 0x0D || n == 0x20 || n == 0xA0 || n == 0x1680 || 0x2000 <= n <= 0x200A
    || n == 0x2028 || n == 0x2029 || n == 0x202F || n == 0x205F || n == 0x3000 || n == 0xFEFF
  }

  function TrimStart(s: string): string
  {
    if s != [] && IsStrWhiteSpace(s[0]) then TrimStart(s[1..]) else s
  }

  /** TrimStart drops exactly the leading white space: what it keeps is a
      suffix that does not open with white space, and all it drops is white
      space. */
  lemma {:induction false} TrimStartDropsWhiteSpace(s: string)
    ensures |TrimStart(s)| <= |s| && TrimStart(s) == s[|s| - |TrimStart(s)|..]
    ensures TrimStart(s) == [] || !IsStrWhiteSpace(TrimStart(s)[0])
    ensures forall k :: 0 <= k < |s| - |TrimStart(s)| ==> IsStrWhiteSpace(s[k])
  {
    if s != [] && IsStrWhiteSpace(s[0]) {
      TrimStartDropsWhiteSpace(s[1..]);
      var t := TrimStart(s);
      forall k | 0 <= k < |s| - |t|
        ensures IsStrWhiteSpace(s[k])
      {
        if k > 0 {
          assert s[k] == s[1..][k - 1];
        }
      }
    }
  }

  /** How many hex digits the string starts with. */
  function HexPrefixLength(s: string): (n: nat)
    ensures n <= |s|
  {
    if s != [] && IsHexDigit(s[0]) then 1 + HexPrefixLength(s[1..]) else 0
  }

  /** The run HexPrefixLength measures is all hex digits, and the longest
      such run. */
  lemma {:induction false} HexPrefixDigits(s: string)
    ensures forall k :: 0 <= k < HexPrefixLength(s) ==> IsHexDigit(s[k])
    ensures HexPrefixLength(s) < |s| ==> !IsHexDigit(s[HexPrefixLength(s)])
  {
    if s != [] && IsHexDigit(s[0]) {
      HexPrefixDigits(s[1..]);
      forall k | 0 <= k < HexPrefixLength(s)
        ensures IsHexDigit(s[k])
      {
        if k > 0 {
          assert s[k] == s[1..][k - 1];
        }
      }
      if HexPrefixLength(s) < |s| {
        assert s[HexPrefixLength(s)] == s[1..][HexPrefixLength(s[1..])];
      }
    }
  }

  /** The value of a string of hex digits, most significant first. */
  function HexDigitsValue(d: string): nat
    requires forall k :: 0 <= k < |d| ==> IsHexDigit(d[k])
  {
    if d == [] then 0 else 16 * HexDigitsValue(d[..|d| - 1]) + HexValue(d[|d| - 1])
  }

  /** One leading sign: whether it was a minus, and what follows it. */
  function Sign(t: string): (r: (bool, string))
    ensures r.1 == t || (t != [] && r.1 == t[1..])
  {
    if t != [] && t[0] == '-' then (true, t[1..])
    else if t != [] && t[0] == '+' then (false, t[1..])
    else (false, t)
  }

  /** The string without a leading "0x" or "0X". */
  function StripHexPrefix(u: string): (v: string)
    ensures v == u || (|u| >= 2 && v == u[2..])
  {
    if |u| >= 2 && u[0] == '0' && (u[1] == 'x' || u[1] == 'X') then u[2..] else u
  }

  /** The value of the longest run of hex digits the string starts with,
      or None when it starts with none. */
  function ReadHex(v: string): (r: Option<nat>)
    ensures r.None? <==> HexPrefixLength(v) == 0
  {
    var n := HexPrefixLength(v);
    HexPrefixDigits(v);
    if n == 0 then None else Some(HexDigitsValue(v[..n]))
  }

  /** parseInt(s, 16): skip leading white space, take one sign, drop a
      "0x"/"0X" prefix, then read the longest run of hex digits; NaN when
      there is none. The sign of a negative zero is not kept. */
  function ParseHex(s: string): (r: Parsed)
    ensures !r.Undefined?
  {
    var (negative, u) := Sign(TrimStart(s));
    match ReadHex(StripHexPrefix(u))
    case None => NaN
    case Some(magnitude) => Num(if negative then -(magnitude as int) else magnitude as int)
  }

  /** A hex digit is neither white space nor a sign. */
  lemma HexDigitStarts(c: char)
    requires IsHexDigit(c)
    ensures !IsStrWhiteSpace(c) && c != '-' && c != '+' && c != 'x' && c != 'X'
  {
  }

  lemma {:induction false} AllHexPrefix(d: string)
    requires forall k :: 0 <= k < |d| ==> IsHexDigit(d[k])
    ensures HexPrefixLength(d) == |d|
  {
    if d != [] {
      AllHexPrefix(d[1..]);
    }
  }

  /** A string opening with a hex digit is left alone by the white space
      and sign steps. */
  lemma RunUnsigned(d: string)
    requires d != [] && IsHexDigit(d[0])
    ensures Sign(TrimStart(d)) == (false, d)
  {
    HexDigitStarts(d[0]);
    assert TrimStart(d) == d;
  }

  /** ... and by the prefix step when its second character is one too. */
  lemma RunUnprefixed(d: string)
    requires d != [] && IsHexDigit(d[0]) && (|d| >= 2 ==> IsHexDigit(d[1]))
    ensures StripHexPrefix(d) == d
  {
    if |d| >= 2 {
      HexDigitStarts(d[1]);
    }
  }

  /** A run of hex digits is read whole. */
  lemma ReadHexRun(d: string)
    requires forall k :: 0 <= k < |d| ==> IsHexDigit(d[k])
    ensures d != [] ==> ReadHex(d) == Some(HexDigitsValue(d))
  {
    AllHexPrefix(d);
    assert d[..|d|] == d;
  }

  /** A run of hex digits reads as its value. */
  lemma ParseHexRun(d: string)
    requires d != [] && forall k :: 0 <= k < |d| ==> IsHexDigit(d[k])
    ensures ParseHex(d) == Num(HexDigitsValue(d))
  {
    RunUnsigned(d);
    RunUnprefixed(d);
    ReadHexRun(d);
    ParseHexStages(d, false, d, HexDigitsValue(d));
  }

  lemma PairRead(d: string)
    requires |d| == 2 && IsHexDigit(d[0]) && IsHexDigit(d[1])
    ensures ReadHex(StripHexPrefix(d)) == Some(16 * HexValue(d[0]) + HexValue(d[1]))
  {
    RunUnprefixed(d);
    ReadHexRun(d);
    assert d == [d[0], d[1]];
    HexPairValue(d[0], d[1]);
  }

  lemma SingleRead(c: char)
    requires IsHexDigit(c)
    ensures ReadHex(StripHexPrefix([c])) == Some(HexValue(c))
  {
    var d := [c];
    assert StripHexPrefix(d) == d;
    assert d[1..] == [] && d[..1] == d && d[..0] == [];
    assert HexPrefixLength(d) == 1;
    assert HexDigitsValue(d) == HexValue(c);
  }

  /** Two hex digits are the byte they spell. */
  lemma ParseHexPair(d: string)
    requires |d| == 2 && IsHexDigit(d[0]) && IsHexDigit(d[1])
    ensures ParseHex(d) == Num(16 * HexValue(d[0]) + HexValue(d[1]))
  {
    RunUnsigned(d);
    PairRead(d);
    ParseHexStages(d, false, d, 16 * HexValue(d[0]) + HexValue(d[1]));
  }

  /** A lone hex digit is its value. */
  lemma ParseHexSingle(c: char)
    requires IsHexDigit(c)
    ensures ParseHex([c]) == Num(HexValue(c))
  {
    RunUnsigned([c]);
    SingleRead(c);
    ParseHexStages([c], false, [c], HexValue(c));
  }

  /** parseInt's result from the outcome of its sign and digit steps. */
  lemma ParseHexStages(s: string, negative: bool, u: string, magnitude: nat)
    requires Sign(TrimStart(s)) == (negative, u)
    requires ReadHex(StripHexPrefix(u)) == Some(magnitude)
    ensures ParseHex(s) == Num(if negative then -(magnitude as int) else magnitude as int)
  {
  }

  lemma HexPairValue(a: char, b: char)
    requires IsHexDigit(a) && IsHexDigit(b)
    ensures HexDigitsValue([a]) == HexValue(a)
    ensures HexDigitsValue([a, b]) == 16 * HexValue(a) + HexValue(b)
  {
    assert [a, b][..1] == [a] && [a][..0] == [];
  }

  /** Reading back the hex text of a byte gives the byte: parseInt(_, 16)
      undoes the lower-case hex encoding of the Motherboard decoder. */
  lemma ParseHexOfEncoding(b: byte)
    ensures ParseHex([Motherboard.HexDigits[b / 16], Motherboard.HexDigits[b % 16]]) == Num(b)
  {
    var hi := b / 16;
    var lo := b % 16;
    assert b == 16 * hi + lo;
    Motherboard.HexDigitValue(hi);
    Motherboard.HexDigitValue(lo);
    ParseHexPair([Motherboard.HexDigits[hi], Motherboard.HexDigits[lo]]);
  }

  /** The white space and sign steps in front of one digit. */
  lemma SpaceBeforeDigit(s: string)
    requires |s| == 2 && s[0] == ' ' && IsHexDigit(s[1])
    ensures Sign(TrimStart(s)) == (false, s[1..])
  {
    HexDigitStarts(s[1]);
    assert TrimStart(s[1..]) == s[1..];
  }

  lemma MinusBeforeDigit(s: string)
    requires |s| == 2 && s[0] == '-'
    ensures Sign(TrimStart(s)) == (true, s[1..])
  {
    assert !IsStrWhiteSpace(s[0]);
  }

  lemma PlusBeforeDigit(s: string)
    requires |s| == 2 && s[0] == '+'
    ensures Sign(TrimStart(s)) == (false, s[1..])
  {
    assert !IsStrWhiteSpace(s[0]);
  }

  lemma DigitAfterSign(s: string)
    requires |s| == 2 && IsHexDigit(s[1])
    ensures ReadHex(StripHexPrefix(s[1..])) == Some(HexValue(s[1]))
  {
    SingleRead(s[1]);
    assert s[1..] == [s[1]];
  }

  /** What a two-character chunk may hold besides hex digits: white space
      and a sign are skipped before a digit. */
  lemma ParseHexSpaced(s: string)
    requires |s| == 2 && s[0] == ' ' && IsHexDigit(s[1])
    ensures ParseHex(s) == Num(HexValue(s[1]))
  {
    SpaceBeforeDigit(s);
    DigitAfterSign(s);
    ParseHexStages(s, false, s[1..], HexValue(s[1]));
  }

  lemma ParseHexNegative(s: string)
    requires |s| == 2 && s[0] == '-' && IsHexDigit(s[1])
    ensures ParseHex(s) == Num(-(HexValue(s[1]) as int))
  {
    MinusBeforeDigit(s);
    DigitAfterSign(s);
    ParseHexStages(s, true, s[1..], HexValue(s[1]));
  }

  lemma ParseHexPlus(s: string)
    requires |s| == 2 && s[0] == '+' && IsHexDigit(s[1])
    ensures ParseHex(s) == Num(HexValue(s[1]))
  {
    PlusBeforeDigit(s);
    DigitAfterSign(s);
    ParseHexStages(s, false, s[1..], HexValue(s[1]));
  }

  /** Digits stop at the first character that is not one, unless the two
      form the prefix "0x". */
  lemma ParseHexStops(c: char, d: char)
    requires IsHexDigit(c) && !IsHexDigit(d) && d != 'x' && d != 'X'
    ensures ParseHex([c, d]) == Num(HexValue(c))
  {
    HexDigitStarts(c);
    var s := [c, d];
    assert TrimStart(s) == s && Sign(s) == (false, s) && StripHexPrefix(s) == s;
    assert HexPrefixLength(s) == 1 by {
      assert s[1..] == [d];
    }
    assert s[..1] == [c];
    HexPairValue(c, c);
  }

  /** A lone "0x" and a chunk opening with a non-digit read nothing. */
  lemma ParseHexNothing()
    ensures ParseHex("0x") == NaN
    ensures ParseHex("g1") == NaN
  {
    assert TrimStart("0x") == "0x" && Sign("0x") == (false, "0x");
    assert StripHexPrefix("0x") == [];
    assert TrimStart("g1") == "g1" && Sign("g1") == (false, "g1") && StripHexPrefix("g1") == "g1";
  }

  // ---------------------------------------------------------------------
  // The 20-byte Motherboard record
  // ---------------------------------------------------------------------

  /** The names given to the first ten parsed values, in order. */
  const ElementKeys: seq<string> := ["frames", "cycle", "unknown", "eleven", "dynamic1",
                                     "pressure1", "left", "dynamic2", "pressure2", "right"]

  /** parsedDecimalArray[index]: undefined past the end. */
  function At(parsed: seq<Parsed>, index: nat): (v: Parsed)
    ensures index >= |parsed| ==> v == Undefined
  {
    if index < |parsed| then parsed[index] else Undefined
  }

  /** Where a key sits among the ten. */
  function KeyIndex(key: string): (j: nat)
    requires key in ElementKeys
    ensures j < |ElementKeys| && ElementKeys[j] == key
  {
    if key == "frames" then 0 else if key == "cycle" then 1 else if key == "unknown" then 2
    else if key == "eleven" then 3 else if key == "dynamic1" then 4 else if key == "pressure1" then 5
    else if key == "left" then 6 else if key == "dynamic2" then 7 else if key == "pressure2" then 8
    else 9
  }

  /** The ten keys are distinct. */
  lemma DistinctKeys()
    ensures forall j :: 0 <= j < |ElementKeys| ==> KeyIndex(ElementKeys[j]) == j
  {
    var lengths := seq(10, j requires 0 <= j < 10 => |ElementKeys[j]|);
    assert lengths == [6, 5, 7, 6, 8, 9, 4, 8, 9, 5];
    assert ElementKeys[4][7] != ElementKeys[7][7];
    assert ElementKeys[5][8] != ElementKeys[8][8];
    assert ElementKeys[0][0] != ElementKeys[3][0];
    assert ElementKeys[1][0] != ElementKeys[9][0];
  }

  /** dataObject: each key set to the parsed value at its position, or
      left empty when match found nothing. */
  function Fields(parsed: Option<seq<Parsed>>): (r: map<string, Parsed>)
    ensures forall key :: key in r ==> key in ElementKeys
    ensures parsed.Some? ==> forall key :: key in ElementKeys ==> key in r
    ensures parsed.None? ==> r == map[]
  {
    if parsed.None? then map[]
    else map key | key in ElementKeys :: At(parsed.value, KeyIndex(key))
  }

  /** With values to map, the record has exactly the ten keys, key j mapped
      to value j and to undefined past the values; without, it is empty. */
  lemma FieldsByPosition(parsed: Option<seq<Parsed>>)
    ensures parsed.None? ==> Fields(parsed) == map[]
    ensures parsed.Some? ==> Fields(parsed).Keys == set key | key in ElementKeys
    ensures parsed.Some? ==> forall j :: 0 <= j < |ElementKeys| ==> Fields(parsed)[ElementKeys[j]] == At(parsed.value, j)
  {
    DistinctKeys();
  }

  /** The forEach over the keys. */
  method KeyedFields(parsed: Option<seq<Parsed>>) returns (dataObject: map<string, Parsed>)
    ensures dataObject == Fields(parsed)
  {
    dataObject := map[];
    if parsed.Some? {
      var values := parsed.value;
      DistinctKeys();
      for index := 0 to |ElementKeys|
        invariant dataObject == map key | key in ElementKeys[..index] :: At(values, KeyIndex(key))
      {
        var key := ElementKeys[index];
        assert ElementKeys[..index + 1] == ElementKeys[..index] + [key];
        dataObject := dataObject[key := At(values, index)];
      }
      assert ElementKeys[..|ElementKeys|] == ElementKeys;
    }
  }

  /** hexPairs?.map(parseInt(_, 16)). */
  function ParsedPairs(received: string): (r: Option<seq<Parsed>>)
    ensures r.None? <==> Matches(received) == []
    ensures r.Some? ==> |r.value| == |Matches(received)|
  {
    match Match(received)
    case None => None
    case Some(pairs) => Some(seq(|pairs|, k requires 0 <= k < |pairs| => ParseHex(pairs[k])))
  }

  /** A payload free of line feeds and carriage returns is cut into its
      consecutive byte pairs. */
  lemma CleanPairs(bytes: seq<byte>)
    requires |bytes| == 20 && LF !in bytes && CR !in bytes
    ensures |Matches(CharsOf(bytes))| == 10
    ensures forall j :: 0 <= j < 10 ==> Matches(CharsOf(bytes))[j] == [bytes[2 * j] as char, bytes[2 * j + 1] as char]
  {
    var s := CharsOf(bytes);
    forall k | 0 <= k < |s| ensures !IsLineTerminator(s[k]) {
      assert bytes[k] in bytes;
    }
    MatchesArePairs(s);
    forall j | 0 <= j < 10 ensures Matches(s)[j] == [bytes[2 * j] as char, bytes[2 * j + 1] as char] {
      assert Matches(s)[j] == s[2 * j..2 * j + 2];
    }
  }

  /** The record a Motherboard payload is mapped onto. */
  function RecordOf(bytes: seq<byte>): map<string, Parsed>
  {
    Fields(ParsedPairs(CharsOf(bytes)))
  }

  /** A 20-byte payload free of line feeds and carriage returns fills all
      ten keys, key j with parseInt of bytes 2j and 2j+1 as characters. */
  lemma CleanRecord(bytes: seq<byte>)
    requires |bytes| == 20 && LF !in bytes && CR !in bytes
    ensures forall j :: 0 <= j < |ElementKeys| ==>
              ElementKeys[j] in RecordOf(bytes)
              && RecordOf(bytes)[ElementKeys[j]] == ParseHex([bytes[2 * j] as char, bytes[2 * j + 1] as char])
  {
    var s := CharsOf(bytes);
    var parsed := ParsedPairs(s);
    CleanPairs(bytes);
    assert parsed.Some? && |parsed.value| == 10;
    assert forall j :: 0 <= j < 10 ==> parsed.value[j] == ParseHex(Matches(s)[j]);
    FieldsByPosition(parsed);
  }

  /** When those characters are hex digits, key j holds the byte they
      spell. */
  lemma CleanHexRecord(bytes: seq<byte>, j: nat)
    requires |bytes| == 20 && LF !in bytes && CR !in bytes && j < |ElementKeys|
    requires IsHexDigit(bytes[2 * j] as char) && IsHexDigit(bytes[2 * j + 1] as char)
    ensures ElementKeys[j] in RecordOf(bytes)
    ensures RecordOf(bytes)[ElementKeys[j]] == Num(16 * HexValue(bytes[2 * j] as char) + HexValue(bytes[2 * j + 1] as char))
  {
    CleanRecordAt(bytes, j);
    BytePairValue(bytes, j);
  }

  lemma CleanRecordAt(bytes: seq<byte>, j: nat)
    requires |bytes| == 20 && LF !in bytes && CR !in bytes && j < |ElementKeys|
    ensures ElementKeys[j] in RecordOf(bytes)
    ensures RecordOf(bytes)[ElementKeys[j]] == ParseHex([bytes[2 * j] as char, bytes[2 * j + 1] as char])
  {
    CleanRecord(bytes);
  }

  lemma BytePairValue(bytes: seq<byte>, j: nat)
    requires 2 * j + 1 < |bytes|
    requires IsHexDigit(bytes[2 * j] as char) && IsHexDigit(bytes[2 * j + 1] as char)
    ensures ParseHex([bytes[2 * j] as char, bytes[2 * j + 1] as char])
         == Num(16 * HexValue(bytes[2 * j] as char) + HexValue(bytes[2 * j + 1] as char))
  {
    ParseHexPair([bytes[2 * j] as char, bytes[2 * j + 1] as char]);
  }

  /** A payload made only of line feeds and carriage returns matches
      nothing, so the record is empty. */
  lemma OnlyTerminatorsEmptyRecord(bytes: seq<byte>)
    requires forall k :: 0 <= k < |bytes| ==> bytes[k] == LF || bytes[k] == CR
    ensures RecordOf(bytes) == map[]
  {
    var s := CharsOf(bytes);
    MatchesCover(s);
    MatchesShape(s);
    NoTerminatorsLeft(s);
  }

  lemma {:induction false} NoTerminatorsLeft(s: string)
    requires forall k :: 0 <= k < |s| ==> IsLineTerminator(s[k])
    ensures WithoutTerminators(s) == []
  {
    if s != [] {
      NoTerminatorsLeft(s[1..]);
    }
  }

  // ---------------------------------------------------------------------
  // handleNotifications
  // ---------------------------------------------------------------------

  /** The loop that copies the bytes into decimalArray, and
      String.fromCharCode over it. */
  method ReceivedString(receivedData: seq<byte>) returns (receivedString: string)
    ensures |receivedString| == |receivedData|
    ensures forall k :: 0 <= k < |receivedString| ==> receivedString[k] as int == receivedData[k]
  {
    var decimalArray: seq<byte> := [];
    for i := 0 to |receivedData|
      invariant decimalArray == receivedData[..i]
    {
      decimalArray := decimalArray + [receivedData[i]];
    }
    receivedString := seq(|decimalArray|, k requires 0 <= k < |decimalArray| => decimalArray[k] as char);
  }

  /** What one notification led to: a TypeError when the characteristic has
      no value, otherwise the notifications made. */
  datatype Handled = NoValue | Notified(notes: seq<Notification>)

  /** handleNotifications: for the Motherboard, a 20-byte payload becomes
      the keyed record and any other length nothing; the ENTRALPI and
      unknown boards pass the string on; a Tindeq is ignored. Only with a
      callback registered is anything notified. */
  method HandleNotifications(board: DeviceDesc, uuid: string, value: Option<seq<byte>>, registered: bool)
    returns (h: Handled)
    ensures value.None? ==> h == NoValue
    ensures value.Some? && board.name == "Motherboard" && |value.value| == 20 ==>
              h == Notified(if registered then [KeyedRecord(uuid, RecordOf(value.value))] else [])
    ensures value.Some? && board.name == "Motherboard" && |value.value| != 20 ==> h == Notified([])
    ensures value.Some? && board.name == "Tindeq" ==> h == Notified([])
    ensures value.Some? && board.name !in {"Motherboard", "Tindeq"} ==>
              h == Notified(if registered then [RawString(uuid, CharsOf(value.value))] else [])
  {
    if value.None? {
      return NoValue;
    }
    var receivedData := value.value;
    var receivedString := ReceivedString(receivedData);
    assert receivedString == CharsOf(receivedData);
    if board.name == "Motherboard" {
      var hexPairs := Match(receivedString);
      var parsedDecimalArray := if hexPairs.None? then None
        else Some(seq(|hexPairs.value|, k requires 0 <= k < |hexPairs.value| => ParseHex(hexPairs.value[k])));
      if |receivedData| == 20 {
        var dataObject := KeyedFields(parsedDecimalArray);
        h := Notified(if registered then [KeyedRecord(uuid, dataObject)] else []);
      } else {
        h := Notified([]);
      }
    } else if board.name == "ENTRALPI" {
      h := Notified(if registered then [RawString(uuid, receivedString)] else []);
    } else if board.name == "Tindeq" {
      h := Notified([]);
    } else {
      h := Notified(if registered then [RawString(uuid, receivedString)] else []);
    }
  }

  // ---------------------------------------------------------------------
  // connect and its event handlers
  // ---------------------------------------------------------------------

  /** How connect ended. */
  datatype Connected =
    | Cancelled   // requestDevice rejected; the error is logged
    | NoGatt      // the chosen device has no GATT server
    | Listening   // the server is kept and both event listeners are added

  /** The state connect.ts keeps at module level: the GATT server, and
      whether the connection listeners are in place. */
  class Session {
    var server: Option<Gatt>
    var listening: bool

    constructor ()
      ensures server == None && !listening
    {
      server := None;
      listening := false;
    }

    /** connect: build the scan request, store the chosen device, give up
        without a GATT server, otherwise keep the server and wait for the
        connection events; no service is set up here. */
    method Connect(board: Board, chosen: Option<BluetoothDevice>) returns (request: Request, result: Connected)
      modifies this, board
      ensures request == RequestFor(board.desc)
      ensures board.handles == old(board.handles)
      ensures chosen.None? ==>
                result == Cancelled && board.device == old(board.device)
                && server == old(server) && listening == old(listening)
      ensures chosen.Some? ==> board.device == chosen
      ensures chosen.Some? && chosen.value.gatt.None? ==>
                result == NoGatt && server == old(server) && listening == old(listening)
      ensures chosen.Some? && chosen.value.gatt.Some? ==>
                result == Listening && server == chosen.value.gatt && listening
    {
      var deviceServices := AllServiceUuids(board.desc);
      var filters := BuildFilters(board.desc);
      request := Request(filters, deviceServices);
      if chosen.None? {
        return request, Cancelled;
      }
      board.device := chosen;
      if board.device.value.gatt.None? {
        return request, NoGatt;
      }
      server := board.device.value.gatt;
      listening := true;
      result := Listening;
    }

    /** The "gattserverconnected" listener: onConnected with the module's
        server, which gives up when there is no server or it lists no
        services, and otherwise resolves them all. */
    method OnGattServerConnected(board: Board) returns (setup: Setup)
      modifies board
      ensures board.device == old(board.device)
      ensures server.None? || server.value.primaryServices == [] ==>
                setup == NoServices && board.handles == old(board.handles)
      ensures server.Some? && server.value.primaryServices != [] ==>
                setup.Ready?
                && Resolution(board.handles, setup.subscribed, setup.warnings)
                   == Resolve(old(board.handles), board.desc.services, server.value.primaryServices)
    {
      setup := OnConnected(board, server);
    }
  }
}
