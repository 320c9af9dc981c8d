# Hangboard device protocol layer, modelled in Dafny

This project models the device protocol layer of a Web Bluetooth client for
force-sensing hangboards. It covers:

- the connection lifecycle. `connect` builds the scan filters and keeps the
  chosen device and its GATT server. `onConnected` binds the declared
  characteristics to the discovered ones and subscribes to every `rx`
  characteristic. `onDisconnected` forgets the device, and `isConnected`
  answers whether a device and its server are connected.
- notification handling in both versions of the connection module
  (`connect.js` and `connect.ts`).
- the Motherboard line decoder. It turns streaming packets into masses
  through per-channel piecewise-linear calibration tables, and grows those
  tables from calibration records.
- the Entralpi mass handler and the WH-C06 advertisement scale with its
  running statistics.
- the `stop` and `hardware` commands.

The modules follow the source files:

| module | models |
|---|---|
| `Types` | the shared device descriptors, filters, notifications and JavaScript number helpers (`Math.max(-1000, x)`, `String.fromCharCode`) |
| `Text` | the string helpers the decoders use (`split`, comma count, hex digits, a decimal `parseFloat`) |
| `LineBuffer` | line framing of the receive buffer: find the next LF, cut it and drop the trailing CR |
| `Motherboard` | `devices/moterboard.ts`: descriptor, `applyCalibration`, `handleMotherboardData` and its CALIBRATION tables (class `Decoder`) |
| `Transport` | the filter construction, service list and characteristic resolution shared by `connect.js` and `connect.ts` |
| `ConnectJs` | `connect.js`: the module state (class `Session`), the byte buffer drained line by line, the per-board dispatch |
| `ConnectTs` | `connect.ts`: `String.fromCharCode`, `match(/.{1,2}/g)`, `parseInt(_, 16)`, the keyed 20-byte record |
| `Connection` | `is-connected.js` |
| `Entralpi` | `devices/entralpi.ts`: descriptor and `handleEntralpiData` |
| `WhC06` | `models/device/wh-c06.model.ts`: class `WHC06` with its advertisement listener and statistics |
| `Stop`, `Hardware` | `stop.ts`, `hardware.ts` |

Each JavaScript exception is modelled as an outcome value, not a
precondition. These are the exceptions modelled:

- a `TypeError` on an empty calibration table;
- a call of an unset `notifyCallback`;
- a push on a CALIBRATION index that does not exist;
- a `RangeError` from reading past the end of a payload.

The callback slot is a `registered` flag. `Date.now()` is a `now` parameter,
and `applyTare` enters as the `tare` it returned.

Points where the code behaves differently from what its names and comments
suggest; the model follows the code:

- A calibration record `c,a,b,d` appends `[a, b, d]` to table `c`.
  `applyCalibration` then reads index 1 (`b`) as the reference force and
  index 2 (`d`) as the raw reading: the reference force sits in the middle
  of the record, not first.
- A sample beyond the last calibration point calibrates to 0, not to the
  last computed value. `final` starts at 0 and is only assigned just before
  the loop breaks (`OutOfTable`).
- Only channel 0's table is checked before a packet is measured. An empty
  table for channel 1 or 2 throws inside `applyCalibration` instead of
  dropping the packet.
- The Entralpi payload is read big-endian (`getUint16(0)` with the default
  byte order), not little-endian.
- A 24-bit sample is made negative when it is `>= 0x7fffff`, so `0x7fffff`
  itself reads as `-0x800001` (`SampleBoundary`).

## Model

| member | source | states |
|---|---|---|
| Types.CharsOf | packages/core/src/connect.ts:23-32 | one character per byte, with the byte's value as its code |
| Types.Max | packages/core/src/models/device/wh-c06.model.ts:103 | `Math.max`: at least both arguments and equal to one of them |
| Types.Floor1000 | packages/core/src/devices/moterboard.ts:172-175 | `Math.max(-1000, x)`: never below -1000, the argument itself when it is at least -1000, otherwise -1000 |
| Text.HexValue | packages/core/src/devices/moterboard.ts:138-140 | the value of a hex digit, below 16, for `0-9`, `a-f` and `A-F` |
| Text.Count | packages/core/src/devices/moterboard.ts:178 | the number of occurrences is at most the length, and 0 exactly when the character is absent |
| Text.CountAppend | packages/core/src/devices/moterboard.ts:178 | counting over a concatenation adds the two counts |
| Text.Split | packages/core/src/devices/moterboard.ts:180 | `split` yields one more part than there are separators, and no part contains the separator |
| Text.JoinSplit | packages/core/src/devices/moterboard.ts:180 | joining the parts with the separator gives back the line |
| Text.IndexOrLength | packages/core/src/devices/moterboard.ts:181 | the first position of the decimal point, or the length when there is none |
| Text.UnsignedDecimalValue | packages/core/src/devices/moterboard.ts:181 | an unsigned decimal is non-negative; its exact value is stated by `ParseUnsignedFraction` and `ParseWhole` |
| Text.ParseDecimal | packages/core/src/devices/moterboard.ts:181 | `parseFloat` of a decimal field: non-positive after a minus sign, otherwise non-negative; its exact value is stated by `ParseWhole` and `ParseFraction` |
| Text.DigitsStep | packages/core/src/devices/moterboard.ts:181 | one more digit multiplies the value read so far by ten and adds the digit's value |
| Text.DecimalDigits | packages/core/src/devices/moterboard.ts:181 | the reference encoder: the decimal digits of a natural number, a non-empty run with no point and no sign |
| Text.DecimalDigitsValue | packages/core/src/devices/moterboard.ts:181 | reading back the digits of any natural number gives the number |
| Text.ParseWhole | packages/core/src/devices/moterboard.ts:181 | a run of digits is a decimal field that `parseFloat` reads as its value, and with a leading minus sign as its negation |
| Text.UnsignedParts | packages/core/src/devices/moterboard.ts:181 | a string whose first point splits it into two non-empty digit runs is a decimal worth the whole part plus the fraction over ten to its length |
| Text.ParseUnsignedFraction | packages/core/src/devices/moterboard.ts:181 | `w.f` is an unsigned decimal worth `w + f / 10^|f|` |
| Text.Negated | packages/core/src/devices/moterboard.ts:181 | a leading minus sign negates the unsigned decimal after it |
| Text.ParseFraction | packages/core/src/devices/moterboard.ts:181 | `parseFloat` reads `w.f` as `w + f / 10^|f|` and `-w.f` as its negation |
| Text.ParseDecimalRoundTrip | packages/core/src/devices/moterboard.ts:181 | any integer written in decimal, with a minus sign when negative, is read back by `parseFloat` as itself |
| Connection.IsConnected | packages/core/src/is-connected.js:6-10 | false without a device or without a GATT server, otherwise exactly the server's `connected` flag |
| LineBuffer.IndexOf | packages/core/src/connect.js:30 | `indexOf` is -1 exactly when the byte is absent, and otherwise the position of its first occurrence |
| LineBuffer.StripCR | packages/core/src/connect.js:31-33 | the line is the raw bytes less at most one trailing CR, and a trailing CR is always removed |
| LineBuffer.IndexOfAt | packages/core/src/connect.js:30 | a position holding the byte with no earlier occurrence is what `indexOf` returns |
| LineBuffer.Frame | packages/core/src/connect.js:29-33 | the unterminated remainder is never longer than the buffer, and nothing stays buffered when the buffer ends in an LF |
| LineBuffer.FrameFirst | packages/core/src/connect.js:30-31 | framing cuts the bytes before the first LF and continues after it |
| LineBuffer.Lines | packages/core/src/connect.js:31-33 | one line per terminated chunk, each with its CR stripped |
| LineBuffer.FrameConserves | packages/core/src/connect.js:26-37 | the lines cut, each with its LF put back, followed by the remainder, give back the buffer |
| LineBuffer.FrameHasNoLF | packages/core/src/connect.js:30-33 | no line and no remainder contains an LF |
| LineBuffer.FrameCount | packages/core/src/connect.js:30-31 | as many lines are cut as the buffer holds LF bytes |
| LineBuffer.LoneLineFeed | packages/core/src/connect.js:31-33 | a lone LF, or CR LF, yields one empty line and an empty remainder |
| LineBuffer.NoLineFeedNoFrames | packages/core/src/connect.js:30 | bytes without an LF stay buffered and yield no line |
| LineBuffer.FrameAppend | packages/core/src/connect.js:26-37 | framing `a + b` cuts `a`'s lines, then the lines of `a`'s remainder followed by `b` |
| LineBuffer.FirstLineOfAppend | packages/core/src/connect.js:30-31 | the first LF of `a` is the first LF of `a + b`, and the first line cut is the same |
| LineBuffer.FrameAppendStep | packages/core/src/connect.js:26-37 | the step of `FrameAppend` where `a` contains an LF |
| LineBuffer.LinesAppend | packages/core/src/connect.js:31-33 | the lines of concatenated framings are the concatenated lines |
| LineBuffer.ChunkingIndependence | packages/core/src/connect.js:26-37 | receiving two chunks one after the other yields the same lines and remainder as receiving them at once |
| Motherboard.IsPacket | packages/core/src/devices/moterboard.ts:133-136 | a streaming packet is all hex digits and decodes to 16 bytes |
| Motherboard.PacketOfBytes | packages/core/src/devices/moterboard.ts:133-140 | the hex text of some bytes is a packet exactly when there are 16 bytes |
| Motherboard.HexByte | packages/core/src/devices/moterboard.ts:138-140 | `Number("0x" + pair)`: the high digit is the byte's upper nibble and the low digit its lower nibble |
| Motherboard.DecodeHex | packages/core/src/devices/moterboard.ts:138-140 | one byte per pair of hex digits |
| Motherboard.EncodeHex | packages/core/src/devices/moterboard.ts:133-140 | the reference encoding: two hex digits per byte, upper nibble first |
| Motherboard.HexDigitValue | packages/core/src/devices/moterboard.ts:138-140 | every digit of the encoding alphabet is a hex digit with the value of its position |
| Motherboard.DecodeEncodeHex | packages/core/src/devices/moterboard.ts:133-140 | decoding the hex encoding of any bytes gives them back, and the encoding is a packet exactly when there are 16 bytes |
| Motherboard.Le16 | packages/core/src/devices/moterboard.ts:145-146 | a little-endian 16-bit value is below 0x10000 |
| Motherboard.RawSample | packages/core/src/devices/moterboard.ts:151-157 | the 24-bit little-endian sample at `4 + 3i`, made negative from 0x7fffff on, lies in [-0x800001, 0x7ffffe] |
| Motherboard.DecodePacket | packages/core/src/devices/moterboard.ts:136-157 | a packet carries three samples |
| Motherboard.PacketSamples | packages/core/src/devices/moterboard.ts:151-157 | sample `k` of a packet is the raw sample at `k` of its decoded bytes |
| Motherboard.PacketLayout | packages/core/src/devices/moterboard.ts:136-157 | the hex encoding of 16 bytes is a packet whose header and samples are read from those bytes |
| Motherboard.SampleReadsOwnBytes | packages/core/src/devices/moterboard.ts:152-153 | a sample depends only on its own three bytes |
| Motherboard.TrailingBytesUnread | packages/core/src/devices/moterboard.ts:143-157 | bytes 13 to 15 of a packet never affect it |
| Motherboard.SampleBoundary | packages/core/src/devices/moterboard.ts:153-157 | 0x7fffff reads as -0x800001, 0x7ffffe stays positive, and 0xffffff reads as -1 |
| Motherboard.Lerp | packages/core/src/devices/moterboard.ts:107-109 | the interpolation passes through both points of its bracket |
| Motherboard.Scan | packages/core/src/devices/moterboard.ts:102-112 | a scan that meets no raw reading above the sample leaves `final` at 0 |
| Motherboard.Calibrated | packages/core/src/devices/moterboard.ts:92-115 | a one-entry table calibrates everything to 0, and the zero point calibrates to its own reference force |
| Motherboard.ApplyCalibration | packages/core/src/devices/moterboard.ts:92-115 | the loop computes the calibration function: mirror below the zero point, interpolate in the first bracket, otherwise 0 |
| Motherboard.MirrorLaw | packages/core/src/devices/moterboard.ts:97-100 | a sample below the zero point calibrates to the negation of its mirror image |
| Motherboard.OutOfTable | packages/core/src/devices/moterboard.ts:102-114 | a sample at or beyond the last raw reading calibrates to 0 |
| Motherboard.SingleEntry | packages/core/src/devices/moterboard.ts:102-114 | a one-entry table calibrates every sample to 0 |
| Motherboard.ScanFinds | packages/core/src/devices/moterboard.ts:102-111 | on an increasing table the scan stops at the first entry above the sample |
| Motherboard.LerpBetween | packages/core/src/devices/moterboard.ts:107-109 | interpolating within a bracket stays between the two reference forces |
| Motherboard.Bracketed | packages/core/src/devices/moterboard.ts:92-115 | a sample bracketed by two entries of an increasing table calibrates to their interpolation, between their forces |
| Motherboard.RecordChannel | packages/core/src/devices/moterboard.ts:181-182 | the table a record names is one of the four and equals its first field |
| Motherboard.PacketOutcome | packages/core/src/devices/moterboard.ts:136-177 | a packet is dropped exactly when channel 0 has no table; it throws on an empty channel 1 or 2 table, then on a missing callback; otherwise it is measured, with this characteristic's UUID and a total of at least -1000 |
| Motherboard.HandleLine | packages/core/src/devices/moterboard.ts:129-187 | handling a line keeps four tables |
| Motherboard.Decoder.constructor | packages/core/src/devices/moterboard.ts:6 | CALIBRATION starts as four empty tables |
| Motherboard.Decoder.HandleData | packages/core/src/devices/moterboard.ts:129-187 | the new tables and the outcome are those of `HandleLine` on the old tables |
| Motherboard.Decoder.MeasurePacket | packages/core/src/devices/moterboard.ts:136-177 | the sample loop yields the packet outcome: dropped, thrown, or the calibrated masses |
| Motherboard.ReadSample | packages/core/src/devices/moterboard.ts:152-157 | the bitwise read and the sign correction compute the 24-bit little-endian value `RawSample` defines |
| Motherboard.JoinBytes | packages/core/src/devices/moterboard.ts:153 | the bitwise OR of `b0`, `b1 << 8` and `b2 << 16` on 32 bits equals `b0 + 256·b1 + 65536·b2`, so it is never negative as a signed 32-bit result |
| Motherboard.ByteBits | packages/core/src/devices/moterboard.ts:153 | a byte taken as eight bits keeps its value |
| Motherboard.UncalibratedPacketDropped | packages/core/src/devices/moterboard.ts:159-160 | with channel 0 uncalibrated a packet changes nothing and reports nothing |
| Motherboard.PacketReport | packages/core/src/devices/moterboard.ts:165-177 | a packet never changes a table; when calibrated it reports the three floored masses and their floored sum |
| Motherboard.ChannelOfRecord | packages/core/src/devices/moterboard.ts:181-182 | a record whose first field is a table index names that table |
| Motherboard.RecordAppends | packages/core/src/devices/moterboard.ts:178-182 | a record appends fields 2 to 4 to its table and leaves every other table as it was |
| Motherboard.HandleLineTouchesOneTable | packages/core/src/devices/moterboard.ts:129-187 | a line changes at most the one table it names, only packets are measured, and only lines that are neither packets nor have three commas are logged |
| Transport.AllServiceUuids | packages/core/src/connect.js:105-107 | the declared service UUIDs, in order |
| Transport.BuildFilters | packages/core/src/connect.js:117-131 | one name filter when the board's name is non-empty, then one company filter when its company id is present and non-zero |
| Transport.RequestFor | packages/core/src/connect.js:116-135 | `requestDevice` gets one optional service per declared service, in order, and at most two filters, none exactly when the board has neither a name nor a company id |
| Transport.Board.constructor | packages/core/src/connect.js:113-150 | a board starts with no device and no bound characteristic |
| Transport.OnDisconnected | packages/core/src/connect.js:11-15 | the device is forgotten, so the board is not connected, and the bindings stay |
| Transport.FindService | packages/core/src/connect.js:70 | `find`: the first declared service with the UUID, or none when none has it |
| Transport.FindDiscovered | packages/core/src/connect.js:76 | `find`: the first discovered characteristic with the UUID, or none when none has it |
| Transport.FindDeclared | packages/core/src/connect.js:78 | the first declared characteristic with the UUID, or none |
| Transport.Resolve | packages/core/src/connect.js:69-93 | resolution only adds or rebinds handles, so a characteristic bound before stays bound; with nothing discovered nothing changes |
| Transport.ResolveServices | packages/core/src/connect.js:69-93 | the nested loops bind, subscribe and warn as the resolution function does |
| Transport.FindDiscoveredOffers | packages/core/src/connect.js:76 | a characteristic is found exactly when the discovered service offers it |
| Transport.CharsPrefixKeys | packages/core/src/connect.js:75-91 | after the inner loop's first `n` steps, a characteristic is bound exactly when it was bound before or is among them and offered |
| Transport.ServiceStepKeys | packages/core/src/connect.js:70-92 | one discovered service binds exactly the declared characteristics it offers |
| Transport.ServicesPrefixKeys | packages/core/src/connect.js:69-93 | after the outer loop's first `n` services, the bound characteristics are exactly the bindable ones among them |
| Transport.BoundIffDiscovered | packages/core/src/connect.js:69-93 | with distinct declared UUIDs, a characteristic ends up bound exactly when a discovered service declared by the board offers it |
| Transport.CharsPrefixRx | packages/core/src/connect.js:82-85 | the inner loop subscribes only to `rx` characteristics that were discovered |
| Transport.ServicesPrefixRx | packages/core/src/connect.js:69-93 | the outer loop subscribes only to discovered `rx` characteristics |
| Transport.OnlyRxSubscribed | packages/core/src/connect.js:82-85 | every subscription is to a discovered characteristic declared as `rx` |
| Transport.CharsPrefixSubscribed | packages/core/src/connect.js:75-91 | the inner loop subscribes at most once per declared `rx` |
| Transport.ServicesPrefixSubscribed | packages/core/src/connect.js:69-93 | the outer loop subscribes at most once per declared `rx` of each discovered service |
| Transport.SubscribedBound | packages/core/src/connect.js:69-93 | the number of subscriptions is bounded by the declared `rx` characteristics of the discovered services |
| Transport.OnConnected | packages/core/src/connect.js:62-100 | with no server or no services nothing is set up; otherwise every discovered service is resolved and success reported |
| Entralpi.HandleEntralpiData | packages/core/src/devices/entralpi.ts:62-71 | one total-mass notification carrying the value when a callback is registered, none otherwise |
| Entralpi.ScanRequest | packages/core/src/devices/entralpi.ts:4-55 | the scan asks for the name "ENTRALPI" only, with every declared service as optional |
| Entralpi.DistinctServices | packages/core/src/devices/entralpi.ts:6-54 | the declared service UUIDs are distinct |
| Entralpi.WellDeclaredDescriptor | packages/core/src/devices/entralpi.ts:4-55 | services and characteristics within each service have distinct UUIDs |
| Entralpi.ServiceRxIsUart | packages/core/src/devices/entralpi.ts:25-41 | only the UART service declares an `rx` characteristic, and it declares one |
| Entralpi.TotalRxIsUartCount | packages/core/src/devices/entralpi.ts:25-41 | the `rx` characteristics across discovered services number the UART services discovered |
| Entralpi.UartAtMostOnce | packages/core/src/devices/entralpi.ts:25-28 | among distinct discovered services the UART service appears at most once |
| Entralpi.AtMostOneSubscription | packages/core/src/devices/entralpi.ts:35-39 | connecting to an Entralpi subscribes to at most one characteristic |
| Entralpi.SubscribesRx | packages/core/src/devices/entralpi.ts:35-39 | every subscription is to the UART service's `rx` characteristic |
| ConnectJs.DecodeText | packages/core/src/connect.js:34-35 | `TextDecoder` drops a leading UTF-8 byte order mark and keeps one character per remaining byte |
| ConnectJs.DecodedChars | packages/core/src/connect.js:34-35 | each character after the byte order mark has the code of its byte, in order |
| ConnectJs.BomIgnored | packages/core/src/connect.js:34-35 | a byte order mark in front of a line is invisible to the decoder, and a line not starting with 0xEF is read byte by byte |
| ConnectJs.Drain | packages/core/src/connect.js:29-37 | draining keeps four tables |
| ConnectJs.HandleLines | packages/core/src/connect.js:30-37 | the lines are handled in order and stop after the first throw, which is the last outcome |
| ConnectJs.DrainHandlesFramedLines | packages/core/src/connect.js:26-37 | draining the buffer handles exactly its framed lines, in order |
| ConnectJs.LinesStep | packages/core/src/connect.js:30-33 | the lines of a buffer are its first line followed by the lines after the first LF |
| ConnectJs.DrainConserves | packages/core/src/connect.js:29-37 | the lines handled, each with its LF, followed by what stays buffered, give back the buffer |
| ConnectJs.DrainCompletes | packages/core/src/connect.js:30-37 | without a throw every framed line is handled and only the unterminated tail stays buffered |
| ConnectJs.DrainLeavesNoLineFeed | packages/core/src/connect.js:30 | without a throw the buffer is left without an LF, after one outcome per LF received |
| ConnectJs.EntralpiValue | packages/core/src/connect.js:40-44 | the big-endian 16-bit total in hundredths exists exactly when there are two bytes, and lies in [0, 655.35] |
| ConnectJs.EntralpiExample | packages/core/src/connect.js:43 | bytes 0x03 0x20 read as 8.00 |
| ConnectJs.EntralpiRoundTrip | packages/core/src/connect.js:40-44 | any total in hundredths written big-endian reads back |
| ConnectJs.Session.constructor | packages/core/src/connect.js:4-5 | no server, an empty buffer, no disconnect listener and four empty calibration tables |
| ConnectJs.Session.ReceiveLines | packages/core/src/connect.js:26-37 | the bytes are appended and the buffer drained as `Drain` specifies |
| ConnectJs.Session.DrainBuffer | packages/core/src/connect.js:29-37 | the while loop leaves tables, buffer and outcomes as `Drain` specifies |
| ConnectJs.Session.HandleNotifications | packages/core/src/connect.js:21-56 | nothing without a value (the `if (value)` guard); a Motherboard buffers and drains; an Entralpi reports the big-endian total or a range error; a Tindeq is ignored; any other board passes the value on |
| ConnectJs.Session.Connect | packages/core/src/connect.js:113-150 | the request from the board; the chosen device kept; no GATT, a server not connected and a connected server each end as the source does, the last setting up its services; the "gattserverdisconnected" listener is added exactly when there is a GATT server |
| ConnectTs.Matches | packages/core/src/connect.ts:36 | no more matches than characters, and none exactly when the string is all line terminators |
| ConnectTs.Match | packages/core/src/connect.ts:36 | `match` is null exactly when there are no matches |
| ConnectTs.WithoutTerminators | packages/core/src/connect.ts:36 | the reference for `.`: the string without its line terminators |
| ConnectTs.MatchesShape | packages/core/src/connect.ts:36 | every match has one or two characters, none of them a line terminator (`Shaped`) |
| ConnectTs.ShapedCons | packages/core/src/connect.ts:36 | a well-formed match in front of well-formed matches keeps them well formed |
| ConnectTs.MatchesCover | packages/core/src/connect.ts:36 | the matches, joined, are the string without its line terminators |
| ConnectTs.MatchesArePairs | packages/core/src/connect.ts:36 | without terminators, the matches are the consecutive pairs, the last one possibly single |
| ConnectTs.TrimStartDropsWhiteSpace | packages/core/src/connect.ts:38 | `parseInt` first drops exactly the leading white space |
| ConnectTs.HexPrefixLength | packages/core/src/connect.ts:38 | the hex digit run never exceeds the string |
| ConnectTs.HexPrefixDigits | packages/core/src/connect.ts:38 | the run holds only hex digits and stops at the first other character |
| ConnectTs.Sign | packages/core/src/connect.ts:38 | the sign step drops at most one character |
| ConnectTs.StripHexPrefix | packages/core/src/connect.ts:38 | the prefix step drops a `0x` or nothing |
| ConnectTs.ReadHex | packages/core/src/connect.ts:38 | digits are read exactly when the run is not empty |
| ConnectTs.ParseHex | packages/core/src/connect.ts:38 | `parseInt` always yields a number or NaN |
| ConnectTs.ReadHexRun | packages/core/src/connect.ts:38 | a run of hex digits reads as its base-16 value |
| ConnectTs.ParseHexRun | packages/core/src/connect.ts:38 | a string of hex digits not starting with `0x` parses to its base-16 value |
| ConnectTs.ParseHexPair | packages/core/src/connect.ts:38 | a hex pair parses to 16 times its first digit plus its second |
| ConnectTs.ParseHexSingle | packages/core/src/connect.ts:36-38 | a lone trailing hex digit parses to its value |
| ConnectTs.ParseHexOfEncoding | packages/core/src/connect.ts:38 | parsing a byte's two-digit hex encoding gives the byte back |
| ConnectTs.ParseHexSpaced | packages/core/src/connect.ts:38 | a space before a digit is skipped |
| ConnectTs.ParseHexNegative | packages/core/src/connect.ts:38 | a minus before a digit negates it |
| ConnectTs.ParseHexPlus | packages/core/src/connect.ts:38 | a plus before a digit is dropped |
| ConnectTs.ParseHexStops | packages/core/src/connect.ts:38 | parsing stops at the first non-hex character |
| ConnectTs.ParseHexNothing | packages/core/src/connect.ts:38 | `0x` alone and a leading non-digit give NaN |
| ConnectTs.At | packages/core/src/connect.ts:57 | indexing past the end of the parsed array gives undefined |
| ConnectTs.KeyIndex | packages/core/src/connect.ts:41-52 | every element key has a position in the key list |
| ConnectTs.DistinctKeys | packages/core/src/connect.ts:41-52 | the ten element keys are distinct |
| ConnectTs.Fields | packages/core/src/connect.ts:53-59 | the record only has element keys; with parsed values it has all ten, and without it is empty |
| ConnectTs.FieldsByPosition | packages/core/src/connect.ts:53-59 | no parsed array gives an empty record; otherwise every key is present and holds the parsed value at its position |
| ConnectTs.KeyedFields | packages/core/src/connect.ts:53-59 | the `forEach` builds exactly the keyed record |
| ConnectTs.ParsedPairs | packages/core/src/connect.ts:36-38 | one parsed number per match, and nothing when there are no matches |
| ConnectTs.CleanPairs | packages/core/src/connect.ts:36-40 | 20 bytes without line terminators match as ten pairs of consecutive characters |
| ConnectTs.CleanRecord | packages/core/src/connect.ts:36-59 | such a payload keys field `j` to `parseInt` of bytes `2j` and `2j+1` |
| ConnectTs.CleanHexRecord | packages/core/src/connect.ts:36-59 | when those bytes are hex digits, field `j` is their base-16 value |
| ConnectTs.OnlyTerminatorsEmptyRecord | packages/core/src/connect.ts:36-59 | a payload of line terminators only gives the empty record |
| ConnectTs.ReceivedString | packages/core/src/connect.ts:23-32 | the loop builds one character per byte, with the byte's code |
| ConnectTs.HandleNotifications | packages/core/src/connect.ts:21-80 | a missing value is the `TypeError` thrown by `characteristic.value!.buffer` (`NoValue`); a 20-byte Motherboard payload becomes the keyed record; any other Motherboard length and a Tindeq report nothing; every other board passes the string on |
| ConnectTs.Session.constructor | packages/core/src/connect.ts:4 | no server and no listener |
| ConnectTs.Session.Connect | packages/core/src/connect.ts:142-188 | the request from the board; the chosen device kept; no GATT ends it; otherwise the server is kept and setup waits for the connected event |
| ConnectTs.Session.OnGattServerConnected | packages/core/src/connect.ts:86-129 | with no server or no services nothing is set up; otherwise every discovered service is resolved |
| WhC06.OptionalManufacturerData | packages/core/src/models/device/wh-c06.model.ts:64-66 | the list of company ids is empty exactly when no filter names one |
| WhC06.OptionalManufacturerDataAppend | packages/core/src/models/device/wh-c06.model.ts:64-66 | `flatMap` over concatenated filters concatenates their company ids |
| WhC06.OptionalManufacturerDataMembers | packages/core/src/models/device/wh-c06.model.ts:64-66 | an id is asked for exactly when some filter names it |
| WhC06.WatchedCompanies | packages/core/src/models/device/wh-c06.model.ts:38-52 | the scale's filters ask for company 256 only |
| WhC06.WeightOf | packages/core/src/models/device/wh-c06.model.ts:84-88 | a weight exists exactly when bytes 10 and 11 do, and lies in [0, 655.35] |
| WhC06.WeightRoundTrip | packages/core/src/models/device/wh-c06.model.ts:84-88 | any weight in hundredths written big-endian at offset 10 reads back |
| WhC06.WeightExample | packages/core/src/models/device/wh-c06.model.ts:84-88 | 0x07 0xD0 at offset 10 reads as 20.00 |
| WhC06.RunningMax | packages/core/src/models/device/wh-c06.model.ts:103 | the running maximum from 0 is never negative and at least the latest reading |
| WhC06.ClampedSum | packages/core/src/models/device/wh-c06.model.ts:106-107 | the floored sum is at least -1000 per reading |
| WhC06.RunningMaxIsMaximum | packages/core/src/models/device/wh-c06.model.ts:103 | the running maximum from 0 bounds every reading and is 0 or one of them |
| WhC06.RunningMaxMonotone | packages/core/src/models/device/wh-c06.model.ts:103 | a new reading raises the maximum to the larger of the two |
| WhC06.ClampedSumAtMost | packages/core/src/models/device/wh-c06.model.ts:103-107 | the floored sum is at most the maximum per reading |
| WhC06.SumBelow | packages/core/src/models/device/wh-c06.model.ts:106-107 | readings all at most a non-negative bound sum, floored, to at most the bound per reading |
| WhC06.StepBound | packages/core/src/models/device/wh-c06.model.ts:106-107 | one more reading below the bound adds at most the bound |
| WhC06.AverageBounds | packages/core/src/models/device/wh-c06.model.ts:103-111 | the average lies between -1000 and the maximum |
| WhC06.ReadingPreserves | packages/core/src/models/device/wh-c06.model.ts:94-111 | one more reading keeps count, floored sum, maximum, average and download log consistent with the readings |
| WhC06.WHC06.constructor | packages/core/src/models/device/wh-c06.model.ts:38-52 | the scale starts with its filters, no device, no listener and no readings |
| WhC06.WHC06.IsConnected | packages/core/src/models/device/wh-c06.model.ts:149-151 | connected exactly when a device is held, even when its server reports itself disconnected |
| WhC06.WHC06.Record | packages/core/src/models/device/wh-c06.model.ts:94-111 | one reading is logged, counted, floored into the sum, folded into the maximum and averaged |
| WhC06.WHC06.OnAdvertisement | packages/core/src/models/device/wh-c06.model.ts:80-125 | no data only re-arms the timeout; a short payload throws; otherwise the tared weight is recorded and reported, or throws without a callback |
| WhC06.WHC06.Connect | packages/core/src/models/device/wh-c06.model.ts:58-143 | the request carries the filters and their company ids; rejection, no GATT and missing `watchAdvertisements` reach onError; otherwise success and listening; the readings, downloads and timer count are untouched |
| Stop.Stop | packages/core/src/stop.ts:11-22 | a disconnected board gets no write; every write goes to a `tx` characteristic without delay; a connected Motherboard's stop comes first |
| Stop.StopBounds | packages/core/src/stop.ts:11-22 | a disconnected board gets no write, and a connected one gets one per family it belongs to |
| Stop.StopTargets | packages/core/src/stop.ts:11-22 | each stop command is sent to its family's `tx` without delay exactly when the board is connected and of that family |
| Hardware.Hardware | packages/core/src/hardware.ts:15-27 | "Not connected." exactly when the device is not connected; a read exactly when it is connected and a filter is named "Motherboard", and then of `hardware` on the Motherboard descriptor |
| Hardware.HardwareOutcomes | packages/core/src/hardware.ts:15-27 | not connected throws; connected with a "Motherboard" filter reads device/hardware of the Motherboard after 250 ms; otherwise no read |
| Hardware.ReadIgnoresBoard | packages/core/src/hardware.ts:19-21 | every read issued is the same, whichever board was passed |

## Left out

- Web Bluetooth itself is left out. `requestDevice`, `gatt.connect()`, `getPrimaryServices`, `getCharacteristics`, `startNotifications`, event listeners and `watchAdvertisements` become parameters (the chosen device, its server and the discovered services) or recorded intentions (subscriptions, a `listening` flag).
- The 100 ms delay before `getCharacteristics` and the WH-C06 liveness timer (`resetAdvertisementTimeout`) are left out. Re-arming the timer is counted in `timeoutsArmed`, and its handler throws before reaching `onDisconnected`.
- `getCharacteristics` rejecting, and the `try`/`catch` logging around `onConnected` and `connect`, are not modelled; `console` output is not modelled either.
- `parseFloat` is modelled only on decimal fields (`-?digits(.digits)?`); on those it is exact (`ParseWhole`, `ParseFraction`).
- Motherboard.HandleLine: requires `Readable`, so it only accepts calibration records whose fields are `-?digits(.digits)?`. `parseFloat` also reads fields the model excludes: leading whitespace (` 1`), a plus sign (`+1`), exponents (`1e2`), `.5`, `5.`, `-.5`, trailing text (`80 `, `2abc`) and `Infinity`. The source appends those records, and the model does not cover them. A record whose first field is not a number indexes the tables with NaN, and the `push` that then throws is not modelled either.
- Motherboard.Decoder.HandleData: requires `Readable` for the same reason and leaves out the same `parseFloat` forms as `Motherboard.HandleLine`.
- ConnectJs.Drain: requires `ReadableLines`, so every line in the buffer is `Readable`. It leaves out the same `parseFloat` forms as `Motherboard.HandleLine`.
- ConnectJs.Session.ReceiveLines, ConnectJs.Session.DrainBuffer and ConnectJs.Session.HandleNotifications: require `ReadableLines` of the buffer, with the same restriction and the same missing `parseFloat` forms as `ConnectJs.Drain`.
- `TextDecoder("utf-8")` drops a leading byte order mark (`DecodeText`, `BomIgnored`); every other byte is modelled as one character. The model does not decode multi-byte UTF-8 sequences or replace invalid bytes with U+FFFD. Neither can produce an ASCII character, and hex digits and commas are ASCII, so how a line is classified does not depend on them.
- `toFixed` rounding and its string result are not modelled: masses, the maximum and the average stay real numbers. `Number(this.massMax)` of the previous string is taken as the previous maximum.
- JavaScript numbers are real numbers here: no floating-point rounding and no `-0`.
- `new Uint8Array(value.buffer)` in `connect.ts` (line 23) and `new DataView(value.buffer)` in `connect.js` (lines 41-42) are taken to cover exactly the characteristic's bytes, with no view offset.
- `connect.ts` waits for a "gattserverconnected" event, which Web Bluetooth does not define. The model keeps the listener as `OnGattServerConnected`, which may never run.
- The 14-byte branch of `connect.ts` and the Tindeq branches do nothing in the source, and nothing in the model.
- `notifyCallback` is a `registered` flag, `Date.now()` a `now` parameter and `applyTare` the `tare` it returned. `checkActivity` is not modelled: its effect lies outside this layer.
- `isMotherboard`, `isProgressor` and `board.isConnected()` in `stop.ts` are boolean parameters. `write` and `read` are recorded as the calls they would make, and the command byte values are not part of this model.
- The WH-C06 statistics start at 0. Their initial values come from the device base class, which is not part of this model.
- The packet header (`sampleNum`, `battRaw`) and the receive time are decoded but never reported by the source, so they are not part of a line's outcome.
