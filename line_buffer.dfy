/** The line framing of the Motherboard's notification stream: bytes are
    buffered until a line feed, the line before it is cut out, and one trailing
    carriage return is dropped. These functions specify what the receive loop
    of connect.js does to its buffer. */
module LineBuffer {
  import opened Types
  import opened Text

  /** Array.prototype.indexOf: the first position of `x`, or -1. */
  function IndexOf(s: seq<byte>, x: byte): (i: int)
    ensures -1 <= i < |s|
    ensures i == -1 <==> x !in s
    ensures i >= 0 ==> s[i] == x && x !in s[..i]
  {
    if s == [] then -1
    else if s[0] == x then 0
    else
      var j := IndexOf(s[1..], x);
      assert j >= 0 ==> s[1..][..j] == s[1..j + 1];
      if j == -1 then -1 else j + 1
  }

  /** A line without its trailing carriage return, if it has one. */
  function StripCR(raw: seq<byte>): (line: seq<byte>)
    ensures raw == line || raw == line + [CR]
    ensures |raw| > 0 && raw[|raw| - 1] == CR ==> raw == line + [CR]
  {
    if |raw| > 0 && raw[|raw| - 1] == CR then raw[..|raw| - 1] else raw
  }

  /** The frames a buffer holds: every LF-terminated line, LF removed and
      CR kept, and the unterminated bytes after the last LF. */
  datatype Framing = Framing(raw: seq<seq<byte>>, rest: seq<byte>)

  function Frame(buf: seq<byte>): (f: Framing)
    ensures |f.rest| <= |buf| && |f.raw| <= |buf|
    ensures buf != [] && buf[|buf| - 1] == LF ==> f.rest == []
    decreases |buf|
  {
    var i := IndexOf(buf, LF);
    if i < 0 then Framing([], buf)
    else
      var tail := Frame(buf[i + 1..]);
      Framing([buf[..i]] + tail.raw, tail.rest)
  }

  /** The first occurrence is unique: a position holding `x` with no `x`
      before it is the one IndexOf finds. */
  lemma IndexOfAt(s: seq<byte>, x: byte, i: int)
    requires 0 <= i < |s| && s[i] == x && x !in s[..i]
    ensures IndexOf(s, x) == i
  {
  }

  /** One step of framing: the first frame is everything before the first
      line feed. */
  lemma FrameFirst(buf: seq<byte>, i: int)
    requires i == IndexOf(buf, LF) && i >= 0
    ensures buf == buf[..i] + [LF] + buf[i + 1..]
    ensures Frame(buf) == Framing([buf[..i]] + Frame(buf[i + 1..]).raw, Frame(buf[i + 1..]).rest)
  {
    SplitAt(buf, i);
  }

  lemma SplitAt(buf: seq<byte>, i: int)
    requires 0 <= i < |buf| && buf[i] == LF
    ensures buf == buf[..i] + [LF] + buf[i + 1..]
  {
    assert buf[..i] + [buf[i]] == buf[..i + 1];
  }

  /** The lines handed on, in order: each frame with one CR removed. */
  function Lines(f: Framing): (lines: seq<seq<byte>>)
    ensures |lines| == |f.raw|
    ensures forall k :: 0 <= k < |lines| ==> lines[k] == StripCR(f.raw[k])
  {
    seq(|f.raw|, k requires 0 <= k < |f.raw| => StripCR(f.raw[k]))
  }

  /** The frames written back out, each followed by its LF. */
  function Terminated(raw: seq<seq<byte>>): seq<byte>
  {
    if raw == [] then [] else raw[0] + [LF] + Terminated(raw[1..])
  }

  /** Nothing is lost and nothing is reordered: the terminated frames, in
      order, followed by the rest, are exactly the buffer. */
  lemma {:induction false} FrameConserves(buf: seq<byte>)
    ensures Terminated(Frame(buf).raw) + Frame(buf).rest == buf
    decreases |buf|
  {
    var i := IndexOf(buf, LF);
    if i >= 0 {
      FrameConserves(buf[i + 1..]);
      FrameFirst(buf, i);
      var tail := Frame(buf[i + 1..]);
      ConserveStep(buf[..i], tail.raw, tail.rest, buf[i + 1..]);
    }
  }

  /** One more frame in front puts its bytes and an LF in front. */
  lemma ConserveStep(head: seq<byte>, raw: seq<seq<byte>>, rest: seq<byte>, after: seq<byte>)
    requires Terminated(raw) + rest == after
    ensures Terminated([head] + raw) + rest == head + [LF] + after
  {
    var whole := [head] + raw;
    assert whole[0] == head && whole[1..] == raw;
    assert Terminated(whole) == head + [LF] + Terminated(raw);
    ConcatAssoc(head + [LF], Terminated(raw), rest);
  }

  /** No frame contains a line feed, no line does either, and none is left
      behind in the rest. */
  lemma {:induction false} FrameHasNoLF(buf: seq<byte>)
    ensures LF !in Frame(buf).rest
    ensures forall k :: 0 <= k < |Frame(buf).raw| ==> LF !in Frame(buf).raw[k]
    ensures forall k :: 0 <= k < |Frame(buf).raw| ==> LF !in Lines(Frame(buf))[k]
    decreases |buf|
  {
    var i := IndexOf(buf, LF);
    if i >= 0 {
      FrameHasNoLF(buf[i + 1..]);
      var f := Frame(buf);
      var tail := Frame(buf[i + 1..]);
      assert f.raw == [buf[..i]] + tail.raw;
      forall k | 0 <= k < |f.raw| ensures LF !in f.raw[k] && LF !in Lines(f)[k] {
        if k > 0 { assert f.raw[k] == tail.raw[k - 1]; }
        assert f.raw[k] == Lines(f)[k] || f.raw[k] == Lines(f)[k] + [CR];
        assert Lines(f)[k] <= f.raw[k];
      }
    }
  }

  /** One frame per line feed. */
  lemma {:induction false} FrameCount(buf: seq<byte>)
    ensures |Frame(buf).raw| == Count(buf, LF)
    decreases |buf|
  {
    var i := IndexOf(buf, LF);
    if i >= 0 {
      FrameCount(buf[i + 1..]);
      FrameFirst(buf, i);
      CountAppend(buf[..i] + [LF], buf[i + 1..], LF);
      CountAppend(buf[..i], [LF], LF);
      assert Count([LF], LF) == 1;
    }
  }

  /** A lone line feed is one empty line and leaves nothing buffered; a CR
      before it is dropped. */
  lemma LoneLineFeed()
    ensures Lines(Frame([LF])) == [[]] && Frame([LF]).rest == []
    ensures Lines(Frame([CR, LF])) == [[]] && Frame([CR, LF]).rest == []
  {
    var one: seq<byte> := [LF];
    var two: seq<byte> := [CR, LF];
    assert IndexOf(one, LF) == 0;
    assert one[1..] == [];
    assert IndexOf(two, LF) == 1;
    assert two[2..] == [] && two[..1] == [CR];
  }

  /** Framing a buffer that has no line feed changes nothing. */
  lemma NoLineFeedNoFrames(buf: seq<byte>)
    requires LF !in buf
    ensures Frame(buf) == Framing([], buf)
  {
  }

  /** Framing after a prefix: the frames of `a + b` are those of `a`, then
      those of what `a` left over followed by `b`. */
  lemma {:induction false} FrameAppend(a: seq<byte>, b: seq<byte>)
    ensures Frame(a + b).raw == Frame(a).raw + Frame(Frame(a).rest + b).raw
    ensures Frame(a + b).rest == Frame(Frame(a).rest + b).rest
    decreases |a|
  {
    var i := IndexOf(a, LF);
    if i >= 0 {
      FrameAppend(a[i + 1..], b);
      FrameAppendStep(a, b, i);
    } else {
      FrameAppendUnterminated(a, b);
    }
  }

  /** With no line feed in `a`, all of `a` is left over. */
  lemma FrameAppendUnterminated(a: seq<byte>, b: seq<byte>)
    requires IndexOf(a, LF) < 0
    ensures Frame(a + b).raw == Frame(a).raw + Frame(Frame(a).rest + b).raw
    ensures Frame(a + b).rest == Frame(Frame(a).rest + b).rest
  {
    assert Frame(a) == Framing([], a);
    assert [] + Frame(a + b).raw == Frame(a + b).raw;
  }

  lemma ConcatAssoc<T>(x: seq<T>, y: seq<T>, z: seq<T>)
    ensures x + (y + z) == (x + y) + z
  {
  }

  /** The first line feed of `a` is also the first of `a + b`. */
  lemma FirstLineOfAppend(a: seq<byte>, b: seq<byte>, i: int)
    requires i == IndexOf(a, LF) && i >= 0
    ensures IndexOf(a + b, LF) == i
    ensures (a + b)[..i] == a[..i] && (a + b)[i + 1..] == a[i + 1..] + b
  {
    assert (a + b)[..i] == a[..i];
    IndexOfAt(a + b, LF, i);
  }

  /** The sequence algebra of one framing step, on plain values. */
  lemma ConsFrames(head: seq<byte>, fa: Framing, ft: Framing, whole: Framing, fab: Framing, fr: Framing)
    requires fa == Framing([head] + ft.raw, ft.rest)
    requires whole == Framing([head] + fab.raw, fab.rest)
    requires fab.raw == ft.raw + fr.raw && fab.rest == fr.rest
    ensures whole.raw == fa.raw + fr.raw && whole.rest == fr.rest
  {
    ConcatAssoc([head], ft.raw, fr.raw);
  }

  /** The inductive step of FrameAppend: the first line of `a` is also the
      first line of `a + b`. */
  lemma FrameAppendStep(a: seq<byte>, b: seq<byte>, i: int)
    requires i == IndexOf(a, LF) && i >= 0
    requires Frame(a[i + 1..] + b).raw == Frame(a[i + 1..]).raw + Frame(Frame(a[i + 1..]).rest + b).raw
    requires Frame(a[i + 1..] + b).rest == Frame(Frame(a[i + 1..]).rest + b).rest
    ensures Frame(a + b).raw == Frame(a).raw + Frame(Frame(a).rest + b).raw
    ensures Frame(a + b).rest == Frame(Frame(a).rest + b).rest
  {
    FirstLineOfAppend(a, b, i);
    FrameFirst(a, i);
    FrameFirst(a + b, i);
    var ft := Frame(a[i + 1..]);
    ConsFrames(a[..i], Frame(a), ft, Frame(a + b), Frame(a[i + 1..] + b), Frame(ft.rest + b));
  }

  lemma LinesAppend(f: Framing, g: Framing, h: Framing)
    requires h.raw == f.raw + g.raw
    ensures Lines(f) + Lines(g) == Lines(h)
  {
    assert forall k :: 0 <= k < |f.raw| ==> h.raw[k] == f.raw[k];
    assert forall k :: |f.raw| <= k < |h.raw| ==> h.raw[k] == g.raw[k - |f.raw|];
  }

  /** Chunking independence: feeding `b1` and then `b2` to a buffer emits the
      same lines, in the same order, and leaves the same buffer as feeding
      `b1 + b2` at once. */
  lemma ChunkingIndependence(buf: seq<byte>, b1: seq<byte>, b2: seq<byte>)
    ensures var first := Frame(buf + b1);
            var second := Frame(first.rest + b2);
            var once := Frame(buf + b1 + b2);
            Lines(first) + Lines(second) == Lines(once) && second.rest == once.rest
  {
    FrameAppend(buf + b1, b2);
    var first := Frame(buf + b1);
    var second := Frame(first.rest + b2);
    var once := Frame(buf + b1 + b2);
    LinesAppend(first, second, once);
  }
}
