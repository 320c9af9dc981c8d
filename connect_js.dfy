/** connect.js: the module-level receive buffer and GATT server, the
    notification handler that reassembles the Motherboard's lines and
    dispatches the other boards' payloads, and connect. */
module ConnectJs {
  import opened Types
  import opened Text
  import opened LineBuffer
  import opened Motherboard
  import opened Transport
  import opened Entralpi
  import opened Connection

  // ---------------------------------------------------------------------
  // Draining the receive buffer
  // ---------------------------------------------------------------------

  /** The UTF-8 byte order mark, which TextDecoder strips from the start of
      its input by default. */
  const Bom: seq<byte> := [0xEF, 0xBB, 0xBF]

  predicate StartsWithBom(line: seq<byte>)
  {
    |line| >= 3 && line[..3] == Bom
  }

  /** new TextDecoder("utf-8").decode(line): a leading byte order mark is
      dropped, every other byte is read as the character of that code. */
  function DecodeText(line: seq<byte>): (s: string)
    ensures |s| == if StartsWithBom(line) then |line| - 3 else |line|
  {
    if StartsWithBom(line) then CharsOf(line[3..]) else CharsOf(line)
  }

  /** Every byte after a leading byte order mark becomes the character of
      that code, in order. */
  lemma DecodedChars(line: seq<byte>)
    ensures var s := DecodeText(line);
            forall k :: 0 <= k < |s| ==> s[k] as int == line[|line| - |s| + k]
  {
  }

  /** A byte order mark in front of a line changes nothing the decoder
      sees, and a line not starting with one is read byte by byte. */
  lemma BomIgnored(line: seq<byte>)
    ensures DecodeText(Bom + line) == CharsOf(line)
    ensures line == [] || line[0] != 0xEF ==> DecodeText(line) == CharsOf(line)
  {
    assert (Bom + line)[..3] == Bom && (Bom + line)[3..] == line;
  }

  /** Every complete line the buffer holds is one the Motherboard decoder
      can read (its calibration fields are decimals). */
  predicate ReadableLines(buf: seq<byte>)
  {
    forall k :: 0 <= k < |Frame(buf).raw| ==> Readable(DecodeText(Lines(Frame(buf))[k]))
  }

  lemma ReadableStep(buf: seq<byte>, i: int)
    requires i == IndexOf(buf, LF) && i >= 0 && ReadableLines(buf)
    ensures Readable(DecodeText(StripCR(buf[..i])))
    ensures ReadableLines(buf[i + 1..])
  {
    FrameFirst(buf, i);
    var f := Frame(buf);
    var t := Frame(buf[i + 1..]);
    assert Lines(f)[0] == StripCR(buf[..i]);
    forall k | 0 <= k < |t.raw| ensures Readable(DecodeText(Lines(t)[k])) {
      assert Lines(t)[k] == Lines(f)[k + 1];
    }
  }

  /** The decoder's tables, the bytes left buffered, and the outcome of
      each line handled, in order. */
  datatype Drained = Drained(calibration: seq<seq<CalPoint>>, rest: seq<byte>, outcomes: seq<LineOutcome>)

  /** The while loop of handleNotifications: while the buffer holds a line
      feed, cut out the line before it, drop one trailing carriage return and
      hand the text to handleMotherboardData. A throw ends the loop with the
      remaining bytes still buffered. */
  function Drain(cal: seq<seq<CalPoint>>, buf: seq<byte>, uuid: string, registered: bool): (d: Drained)
    requires |cal| == NumTables && ReadableLines(buf)
    ensures |d.calibration| == NumTables
    decreases |buf|
  {
    var i := IndexOf(buf, LF);
    if i < 0 then Drained(cal, buf, [])
    else
      ReadableStep(buf, i);
      var (c1, o) := HandleLine(cal, uuid, DecodeText(StripCR(buf[..i])), registered);
      if o.Thrown? then Drained(c1, buf[i + 1..], [o])
      else
        var d := Drain(c1, buf[i + 1..], uuid, registered);
        Drained(d.calibration, d.rest, [o] + d.outcomes)
  }

  predicate NoThrow(outcomes: seq<LineOutcome>)
  {
    forall k :: 0 <= k < |outcomes| ==> !outcomes[k].Thrown?
  }

  predicate AllReadable(lines: seq<seq<byte>>)
  {
    forall k :: 0 <= k < |lines| ==> Readable(DecodeText(lines[k]))
  }

  /** The reference view: handle the framed lines one after the other,
      stopping after the first that throws. */
  function HandleLines(cal: seq<seq<CalPoint>>, lines: seq<seq<byte>>, uuid: string, registered: bool)
    : (r: (seq<seq<CalPoint>>, seq<LineOutcome>))
    requires |cal| == NumTables && AllReadable(lines)
    ensures |r.0| == NumTables
    ensures |r.1| <= |lines|
    ensures forall k :: 0 <= k < |r.1| - 1 ==> !r.1[k].Thrown?
    ensures |r.1| < |lines| ==> |r.1| > 0 && r.1[|r.1| - 1].Thrown?
    decreases |lines|
  {
    if lines == [] then (cal, [])
    else
      var (c1, o) := HandleLine(cal, uuid, DecodeText(lines[0]), registered);
      if o.Thrown? then (c1, [o])
      else
        var (c2, os) := HandleLines(c1, lines[1..], uuid, registered);
        assert forall k :: 0 < k < |[o] + os| ==> ([o] + os)[k] == os[k - 1];
        (c2, [o] + os)
  }

  /** The loop handles exactly the framed lines, in order: its tables and
      outcomes are those of handling Lines(Frame(buf)) one by one. */
  lemma {:induction false} DrainHandlesFramedLines(cal: seq<seq<CalPoint>>, buf: seq<byte>, uuid: string, registered: bool)
    requires |cal| == NumTables && ReadableLines(buf)
    ensures AllReadable(Lines(Frame(buf)))
    ensures var d := Drain(cal, buf, uuid, registered);
            (d.calibration, d.outcomes) == HandleLines(cal, Lines(Frame(buf)), uuid, registered)
    decreases |buf|
  {
    var i := IndexOf(buf, LF);
    if i < 0 {
      assert Lines(Frame(buf)) == [];
    } else {
      ReadableStep(buf, i);
      LinesStep(buf, i);
      var line := StripCR(buf[..i]);
      var rest := Lines(Frame(buf[i + 1..]));
      var (c1, o) := HandleLine(cal, uuid, DecodeText(line), registered);
      DrainHandlesFramedLines(c1, buf[i + 1..], uuid, registered);
      HandleLinesCons(cal, line, rest, uuid, registered);
      DrainUnfold(cal, buf, uuid, registered, i);
    }
  }

  /** Handling a line in front of others: that line first, then the
      others unless it threw. */
  lemma HandleLinesCons(cal: seq<seq<CalPoint>>, line: seq<byte>, rest: seq<seq<byte>>, uuid: string, registered: bool)
    requires |cal| == NumTables && Readable(DecodeText(line)) && AllReadable(rest)
    ensures AllReadable([line] + rest)
    ensures var (c1, o) := HandleLine(cal, uuid, DecodeText(line), registered);
            HandleLines(cal, [line] + rest, uuid, registered)
            == if o.Thrown? then (c1, [o])
               else var r := HandleLines(c1, rest, uuid, registered); (r.0, [o] + r.1)
  {
    var lines := [line] + rest;
    assert lines[0] == line && lines[1..] == rest;
    assert forall k :: 0 < k < |lines| ==> lines[k] == rest[k - 1];
  }

  /** The lines of a buffer holding a line feed: the one before it, then
      those of the bytes after it. */
  lemma LinesStep(buf: seq<byte>, i: int)
    requires i == IndexOf(buf, LF) && i >= 0
    ensures Lines(Frame(buf)) == [StripCR(buf[..i])] + Lines(Frame(buf[i + 1..]))
  {
    FrameFirst(buf, i);
    var t := Frame(buf[i + 1..]);
    LinesCons(buf[..i], t.raw, t.rest);
  }

  lemma LinesCons(head: seq<byte>, raw: seq<seq<byte>>, rest: seq<byte>)
    ensures Lines(Framing([head] + raw, rest)) == [StripCR(head)] + Lines(Framing(raw, rest))
  {
    var lines := Lines(Framing([head] + raw, rest));
    var r := [StripCR(head)] + Lines(Framing(raw, rest));
    forall k | 0 <= k < |lines|
      ensures lines[k] == r[k]
    {
      if k > 0 {
        assert ([head] + raw)[k] == raw[k - 1];
      }
    }
  }

  lemma TerminatedCons(line: seq<byte>, raw: seq<seq<byte>>)
    ensures Terminated([line] + raw) == line + [LF] + Terminated(raw)
  {
    assert ([line] + raw)[0] == line && ([line] + raw)[1..] == raw;
  }

  /** Nothing is lost: the lines handled, each with its CR and LF, followed
      by what stays buffered, are exactly the buffer. */
  lemma {:induction false} DrainConserves(cal: seq<seq<CalPoint>>, buf: seq<byte>, uuid: string, registered: bool)
    requires |cal| == NumTables && ReadableLines(buf)
    ensures var d := Drain(cal, buf, uuid, registered);
            && |d.outcomes| <= |Frame(buf).raw|
            && Terminated(Frame(buf).raw[..|d.outcomes|]) + d.rest == buf
    decreases |buf|
  {
    var i := IndexOf(buf, LF);
    if i < 0 {
      assert Frame(buf).raw[..0] == [];
    } else {
      ReadableStep(buf, i);
      var c1 := HandleLine(cal, uuid, DecodeText(StripCR(buf[..i])), registered).0;
      assert |c1| == NumTables;
      DrainConserves(c1, buf[i + 1..], uuid, registered);
      DrainConservesCase(cal, buf, uuid, registered, i);
    }
  }

  /** DrainConserves for a buffer holding a line feed, from the same
      property of what follows it. */
  lemma DrainConservesCase(cal: seq<seq<CalPoint>>, buf: seq<byte>, uuid: string, registered: bool, i: int)
    requires |cal| == NumTables && ReadableLines(buf)
    requires i == IndexOf(buf, LF) && i >= 0
    requires Readable(DecodeText(StripCR(buf[..i]))) && ReadableLines(buf[i + 1..])
    requires var r := HandleLine(cal, uuid, DecodeText(StripCR(buf[..i])), registered);
             var dt := Drain(r.0, buf[i + 1..], uuid, registered);
             |dt.outcomes| <= |Frame(buf[i + 1..]).raw|
             && Terminated(Frame(buf[i + 1..]).raw[..|dt.outcomes|]) + dt.rest == buf[i + 1..]
    ensures var d := Drain(cal, buf, uuid, registered);
            && |d.outcomes| <= |Frame(buf).raw|
            && Terminated(Frame(buf).raw[..|d.outcomes|]) + d.rest == buf
  {
    DrainUnfold(cal, buf, uuid, registered, i);
    var tail := buf[i + 1..];
    var r := HandleLine(cal, uuid, DecodeText(StripCR(buf[..i])), registered);
    FrameFirst(buf, i);
    DrainConservesStep(buf, buf[..i], tail, Frame(buf).raw, Frame(tail).raw,
                       Drain(cal, buf, uuid, registered), Drain(r.0, tail, uuid, registered), r.1.Thrown?);
  }

  /** One turn of the loop: the first line is handled, then either the
      loop stops or it goes on with the rest of the buffer. */
  lemma DrainUnfold(cal: seq<seq<CalPoint>>, buf: seq<byte>, uuid: string, registered: bool, i: int)
    requires |cal| == NumTables && ReadableLines(buf)
    requires i == IndexOf(buf, LF) && i >= 0
    ensures Readable(DecodeText(StripCR(buf[..i]))) && ReadableLines(buf[i + 1..])
    ensures var r := HandleLine(cal, uuid, DecodeText(StripCR(buf[..i])), registered);
            Drain(cal, buf, uuid, registered)
            == if r.1.Thrown? then Drained(r.0, buf[i + 1..], [r.1])
               else var dt := Drain(r.0, buf[i + 1..], uuid, registered);
                    Drained(dt.calibration, dt.rest, [r.1] + dt.outcomes)
  {
    ReadableStep(buf, i);
  }

  /** The inductive step of DrainConserves: the first line is cut out
      whole, LF included. */
  lemma DrainConservesStep(buf: seq<byte>, head: seq<byte>, tail: seq<byte>, raw: seq<seq<byte>>, traw: seq<seq<byte>>,
                           d: Drained, dt: Drained, thrown: bool)
    requires buf == head + [LF] + tail && raw == [head] + traw
    requires thrown ==> |d.outcomes| == 1 && d.rest == tail
    requires !thrown ==> |d.outcomes| == |dt.outcomes| + 1 && d.rest == dt.rest
    requires !thrown ==> |dt.outcomes| <= |traw| && Terminated(traw[..|dt.outcomes|]) + dt.rest == tail
    ensures |d.outcomes| <= |raw|
    ensures Terminated(raw[..|d.outcomes|]) + d.rest == buf
  {
    var m := if thrown then 0 else |dt.outcomes|;
    var rest := if thrown then tail else dt.rest;
    assert Terminated(traw[..m]) + rest == tail by {
      if thrown {
        assert traw[..0] == [];
      }
    }
    assert Terminated(raw[..m + 1]) == head + [LF] + Terminated(traw[..m]) by {
      assert raw[..m + 1] == [head] + traw[..m];
      TerminatedCons(head, traw[..m]);
    }
    ConcatAssoc(head + [LF], Terminated(traw[..m]), rest);
  }

  /** When no line throws, every framed line is handled and what stays
      buffered is the unterminated rest. */
  lemma DrainCompletes(cal: seq<seq<CalPoint>>, buf: seq<byte>, uuid: string, registered: bool)
    requires |cal| == NumTables && ReadableLines(buf)
    requires NoThrow(Drain(cal, buf, uuid, registered).outcomes)
    ensures |Drain(cal, buf, uuid, registered).outcomes| == |Frame(buf).raw|
    ensures Drain(cal, buf, uuid, registered).rest == Frame(buf).rest
  {
    var d := Drain(cal, buf, uuid, registered);
    DrainHandlesFramedLines(cal, buf, uuid, registered);
    DrainConserves(cal, buf, uuid, registered);
    FrameConserves(buf);
    var raw := Frame(buf).raw;
    assert |d.outcomes| == |raw|;
    assert raw[..|raw|] == raw;
    var t := Terminated(raw);
    assert d.rest == buf[|t|..] == Frame(buf).rest;
  }

  /** After a drain with no throw, the buffer holds no line feed, and one
      line was handled per line feed received. */
  lemma DrainLeavesNoLineFeed(cal: seq<seq<CalPoint>>, buf: seq<byte>, uuid: string, registered: bool)
    requires |cal| == NumTables && ReadableLines(buf)
    requires NoThrow(Drain(cal, buf, uuid, registered).outcomes)
    ensures LF !in Drain(cal, buf, uuid, registered).rest
    ensures |Drain(cal, buf, uuid, registered).outcomes| == Count(buf, LF)
  {
    DrainCompletes(cal, buf, uuid, registered);
    FrameHasNoLF(buf);
    FrameCount(buf);
  }

  // ---------------------------------------------------------------------
  // The ENTRALPI payload
  // ---------------------------------------------------------------------

  /** new DataView(buffer).getUint16(0) / 100: bytes 0 and 1, big-endian,
      in hundredths; fewer than two bytes make getUint16 throw a RangeError. */
  function EntralpiValue(bytes: seq<byte>): (r: Option<real>)
    ensures r.Some? <==> |bytes| >= 2
    ensures r.Some? ==> 0.0 <= r.value <= 655.35
  {
    if |bytes| < 2 then None else Some((256 * bytes[0] as int + bytes[1] as int) as real / 100.0)
  }

  /** Bytes [0x03, 0x20] are 800 hundredths: 8. */
  lemma EntralpiExample()
    ensures EntralpiValue([0x03, 0x20]) == Some(8.0)
  {
  }

  /** Every reading in hundredths from 0 to 65535, written big-endian, reads
      back as itself; bytes after the first two are ignored. */
  lemma EntralpiRoundTrip(hundredths: nat, trailing: seq<byte>)
    requires hundredths < 0x10000
    ensures EntralpiValue([hundredths / 256, hundredths % 256] + trailing) == Some(hundredths as real / 100.0)
  {
    var bytes: seq<byte> := [hundredths / 256, hundredths % 256] + trailing;
    assert bytes[0] == hundredths / 256 && bytes[1] == hundredths % 256;
    assert 256 * bytes[0] as int + bytes[1] as int == hundredths;
  }

  // ---------------------------------------------------------------------
  // The module's state and its handlers
  // ---------------------------------------------------------------------

  /** What one notification led to. */
  datatype Handled =
    | NoValue                                   // the characteristic had no value
    | MotherboardLines(outcomes: seq<LineOutcome>)
    | Notified(notes: seq<Notification>)
    | RangeError                                // getUint16 past the end of the payload

  /** How connect ended. */
  datatype Connected =
    | Cancelled            // requestDevice rejected; the error is logged
    | NoGatt               // the chosen device has no GATT server
    | ServerNotConnected   // the server does not report itself connected
    | SetUp(setup: Setup)

  /** The state connect.js keeps at module level: the GATT server, the
      receive buffer, and the Motherboard decoder with its CALIBRATION
      tables. */
  class Session {
    var server: Option<Gatt>
    var receiveBuffer: seq<byte>
    /** Whether the "gattserverdisconnected" listener has been added. */
    var listening: bool
    const decoder: Decoder

    ghost predicate Valid()
      reads this, decoder
    {
      decoder.Valid()
    }

    constructor ()
      ensures Valid() && fresh(decoder)
      ensures server == None && receiveBuffer == [] && !listening && decoder.calibration == [[], [], [], []]
    {
      server := None;
      receiveBuffer := [];
      listening := false;
      decoder := new Decoder();
    }

    /** The Motherboard branch of handleNotifications: push every byte, then
        cut out and handle every complete line. */
    method ReceiveLines(uuid: string, value: seq<byte>, registered: bool) returns (outcomes: seq<LineOutcome>)
      requires Valid() && ReadableLines(receiveBuffer + value)
      modifies this`receiveBuffer, decoder
      ensures Valid() && server == old(server) && listening == old(listening)
      ensures Drained(decoder.calibration, receiveBuffer, outcomes)
           == Drain(old(decoder.calibration), old(receiveBuffer) + value, uuid, registered)
    {
      for i := 0 to |value|
        invariant receiveBuffer == old(receiveBuffer) + value[..i]
        invariant decoder.calibration == old(decoder.calibration)
      {
        receiveBuffer := receiveBuffer + [value[i]];
      }
      assert value[..|value|] == value;
      outcomes := DrainBuffer(uuid, registered);
    }

    /** The while loop of handleNotifications, on the buffer as it stands. */
    method DrainBuffer(uuid: string, registered: bool) returns (outcomes: seq<LineOutcome>)
      requires Valid() && ReadableLines(receiveBuffer)
      modifies this`receiveBuffer, decoder
      ensures Valid() && server == old(server) && listening == old(listening)
      ensures Drained(decoder.calibration, receiveBuffer, outcomes)
           == Drain(old(decoder.calibration), old(receiveBuffer), uuid, registered)
    {
      ghost var goal := Drain(decoder.calibration, receiveBuffer, uuid, registered);
      outcomes := [];
      var idx := IndexOf(receiveBuffer, LF);
      while idx >= 0
        invariant Valid()
        invariant idx == IndexOf(receiveBuffer, LF)
        invariant ReadableLines(receiveBuffer)
        invariant var d := Drain(decoder.calibration, receiveBuffer, uuid, registered);
                  goal == Drained(d.calibration, d.rest, outcomes + d.outcomes)
        decreases |receiveBuffer|
      {
        ghost var before := receiveBuffer;
        ghost var cal := decoder.calibration;
        ghost var done := outcomes;
        DrainUnfold(cal, before, uuid, registered, idx);
        var line := receiveBuffer[..idx];
        receiveBuffer := receiveBuffer[idx + 1..];
        if |line| > 0 && line[|line| - 1] == CR {
          line := line[..|line| - 1];
        }
        assert line == StripCR(before[..idx]);
        var receivedData := DecodeText(line);
        var o := decoder.HandleData(uuid, receivedData, registered);
        outcomes := outcomes + [o];
        if o.Thrown? {
          assert goal == Drained(decoder.calibration, receiveBuffer, outcomes);
          return;
        }
        ghost var dt := Drain(decoder.calibration, receiveBuffer, uuid, registered);
        assert goal == Drained(dt.calibration, dt.rest, outcomes + dt.outcomes) by {
          ConcatAssoc(done, [o], dt.outcomes);
        }
        idx := IndexOf(receiveBuffer, LF);
      }
      assert outcomes + [] == outcomes;
    }

    /** handleNotifications: nothing without a value; the Motherboard's bytes
        go through the receive buffer; an ENTRALPI payload is read as a
        big-endian total in hundredths; a Tindeq is ignored; any other board's
        payload is passed on as it came when a callback is registered. */
    method HandleNotifications(board: Board, uuid: string, value: Option<seq<byte>>, registered: bool)
      returns (h: Handled)
      requires Valid()
      requires board.desc.name == "Motherboard" && value.Some? ==> ReadableLines(receiveBuffer + value.value)
      modifies this`receiveBuffer, decoder
      ensures Valid() && server == old(server) && listening == old(listening)
      ensures board.desc.name == "Motherboard" && value.Some? ==>
                h.MotherboardLines?
                && Drained(decoder.calibration, receiveBuffer, h.outcomes)
                   == Drain(old(decoder.calibration), old(receiveBuffer) + value.value, uuid, registered)
      ensures board.desc.name != "Motherboard" || value.None? ==>
                receiveBuffer == old(receiveBuffer) && decoder.calibration == old(decoder.calibration)
      ensures value.None? ==> h == NoValue
      ensures board.desc.name == "ENTRALPI" && value.Some? ==>
                match EntralpiValue(value.value)
                case None => h == RangeError
                case Some(total) => h == Notified(HandleEntralpiData(uuid, total, registered))
      ensures board.desc.name == "Tindeq" && value.Some? ==> h == Notified([])
      ensures board.desc.name !in {"Motherboard", "ENTRALPI", "Tindeq"} && value.Some? ==>
                h == Notified(if registered then [RawBytes(uuid, value.value)] else [])
    {
      if value.None? {
        return NoValue;
      }
      var bytes := value.value;
      if board.desc.name == "Motherboard" {
        var outcomes := ReceiveLines(uuid, bytes, registered);
        h := MotherboardLines(outcomes);
      } else if board.desc.name == "ENTRALPI" {
        if |bytes| < 2 {
          return RangeError;
        }
        var receivedData := (256 * bytes[0] as int + bytes[1] as int) as real / 100.0;
        h := Notified(HandleEntralpiData(uuid, receivedData, registered));
      } else if board.desc.name == "Tindeq" {
        h := Notified([]);
      } else {
        h := Notified(if registered then [RawBytes(uuid, bytes)] else []);
      }
    }

    /** connect: build the scan request, store the chosen device, give up
        without a GATT server, keep the server, add the
        "gattserverdisconnected" listener, and set up the services at once if
        it reports itself connected. */
    method Connect(board: Board, chosen: Option<BluetoothDevice>) returns (request: Request, result: Connected)
      requires Valid()
      modifies this, board
      ensures Valid() && receiveBuffer == old(receiveBuffer)
      ensures request == RequestFor(board.desc)
      ensures chosen.None? ==>
                result == Cancelled && board.device == old(board.device) && server == old(server)
                && listening == old(listening) && board.handles == old(board.handles)
      ensures chosen.Some? ==> board.device == chosen
      ensures chosen.Some? && chosen.value.gatt.None? ==>
                result == NoGatt && server == old(server) && listening == old(listening)
                && board.handles == old(board.handles)
      ensures chosen.Some? && chosen.value.gatt.Some? ==> server == chosen.value.gatt && listening
      ensures chosen.Some? && chosen.value.gatt.Some? && !chosen.value.gatt.value.connected ==>
                result == ServerNotConnected && board.handles == old(board.handles)
      ensures chosen.Some? && chosen.value.gatt.Some? && chosen.value.gatt.value.connected ==>
                IsConnected(board.device) && result.SetUp?
                && (chosen.value.gatt.value.primaryServices == [] ==>
                      result.setup == NoServices && board.handles == old(board.handles))
                && (chosen.value.gatt.value.primaryServices != [] ==>
                      result.setup.Ready?
                      && Resolution(board.handles, result.setup.subscribed, result.setup.warnings)
                         == Resolve(old(board.handles), board.desc.services, chosen.value.gatt.value.primaryServices))
    {
      request := Request(BuildFilters(board.desc), AllServiceUuids(board.desc));
      if chosen.None? {
        return request, Cancelled;
      }
      board.device := chosen;
      if chosen.value.gatt.None? {
        return request, NoGatt;
      }
      server := chosen.value.gatt;
      listening := true;
      if !server.value.connected {
        return request, ServerNotConnected;
      }
      var setup := OnConnected(board, server);
      result := SetUp(setup);
    }
  }
}
