/** The Weiheng WH-C06 hanging scale, which sends its weight in the
    manufacturer data of its advertisements instead of over GATT. The object
    keeps a running maximum, sum, count and average of the tare-corrected
    readings. */
module WhC06 {
  import opened Types

  /** Byte offset of the big-endian 16-bit weight in the manufacturer data. */
  const WeightOffset: nat := 10
  /** The Bluetooth SIG company identifier 0x0100 the scale advertises under. */
  const ManufacturerId: int := 0x0100

  /** The scan filters the WH-C06 is constructed with: one manufacturer-data
      filter on its company identifier, no name. */
  const Filters: seq<Filter> := [Filter(None, Some([ManufacturerId]))]

  // ---------------------------------------------------------------------
  // optionalManufacturerData
  // ---------------------------------------------------------------------

  /** The company identifiers of every filter, filter by filter and in
      order; a filter without manufacturer data contributes nothing. */
  function OptionalManufacturerData(filters: seq<Filter>): (ids: seq<int>)
    ensures ids == [] <==> forall i :: 0 <= i < |filters| ==>
                             filters[i].manufacturerData.None? || filters[i].manufacturerData.value == []
  {
    if filters == [] then []
    else
      var last := filters[|filters| - 1];
      OptionalManufacturerData(filters[..|filters| - 1])
        + (if last.manufacturerData.Some? then last.manufacturerData.value else [])
  }

  /** The flattening distributes over concatenation of filter lists. */
  lemma {:induction false} OptionalManufacturerDataAppend(f1: seq<Filter>, f2: seq<Filter>)
    ensures OptionalManufacturerData(f1 + f2) == OptionalManufacturerData(f1) + OptionalManufacturerData(f2)
    decreases |f2|
  {
    if f2 == [] {
      assert f1 + f2 == f1;
    } else {
      var init := f2[..|f2| - 1];
      var last := f2[|f2| - 1];
      var whole := f1 + f2;
      assert whole[..|whole| - 1] == f1 + init;
      assert whole[|whole| - 1] == last;
      OptionalManufacturerDataAppend(f1, init);
      var tail := if last.manufacturerData.Some? then last.manufacturerData.value else [];
      assert OptionalManufacturerData(whole) == OptionalManufacturerData(f1 + init) + tail;
      assert OptionalManufacturerData(f2) == OptionalManufacturerData(init) + tail;
      IntsAssoc(OptionalManufacturerData(f1), OptionalManufacturerData(init), tail);
    }
  }

  lemma IntsAssoc(x: seq<int>, y: seq<int>, z: seq<int>)
    ensures (x + y) + z == x + (y + z)
  {
  }

  /** An identifier is listed iff some filter carries it. */
  lemma {:induction false} OptionalManufacturerDataMembers(filters: seq<Filter>, id: int)
    ensures id in OptionalManufacturerData(filters)
        <==> exists i :: 0 <= i < |filters| && filters[i].manufacturerData.Some?
                         && id in filters[i].manufacturerData.value
  {
    if filters != [] {
      var init := filters[..|filters| - 1];
      var n := |filters| - 1;
      OptionalManufacturerDataMembers(init, id);
      if id in OptionalManufacturerData(filters) && id !in OptionalManufacturerData(init) {
        assert filters[n].manufacturerData.Some? && id in filters[n].manufacturerData.value;
      }
      if exists i :: 0 <= i < |filters| && filters[i].manufacturerData.Some?
                     && id in filters[i].manufacturerData.value {
        var i :| 0 <= i < |filters| && filters[i].manufacturerData.Some?
                 && id in filters[i].manufacturerData.value;
        if i < n {
          assert init[i] == filters[i];
        }
      }
    }
  }

  /** The WH-C06 asks for the manufacturer data of company 256 only, so the
      list is not empty and watchAdvertisements is required. */
  lemma WatchedCompanies()
    ensures OptionalManufacturerData(Filters) == [ManufacturerId]
  {
    assert Filters[..0] == [];
  }

  // ---------------------------------------------------------------------
  // The advertisement payload
  // ---------------------------------------------------------------------

  /** The weight in kilograms: bytes 10 and 11 big-endian, in hundredths.
      Reading past the end of the DataView is a RangeError, here None. */
  function WeightOf(data: seq<byte>): (w: Option<real>)
    ensures w.Some? <==> |data| >= WeightOffset + 2
    ensures w.Some? ==> 0.0 <= w.value <= 655.35
  {
    if |data| < WeightOffset + 2 then None
    else Some((256 * data[WeightOffset] as int + data[WeightOffset + 1] as int) as real / 100.0)
  }

  /** Any weight of 0 to 655.35 kg in hundredths, written big-endian at
      offset 10, reads back exactly; the bytes around it do not matter. */
  lemma WeightRoundTrip(hundredths: nat, before: seq<byte>, after: seq<byte>)
    requires hundredths < 0x10000 && |before| == WeightOffset
    ensures WeightOf(before + [hundredths / 256, hundredths % 256] + after) == Some(hundredths as real / 100.0)
  {
    var data := before + [hundredths / 256, hundredths % 256] + after;
    assert data[WeightOffset] == hundredths / 256 && data[WeightOffset + 1] == hundredths % 256;
  }

  /** 0x07 0xD0 at offset 10 is 2000 hundredths: 20 kg. */
  lemma WeightExample()
    ensures WeightOf([0, 0, 0, 0, 0, 0, 0, 0, 0, 0, 0x07, 0xD0]) == Some(20.0)
  {
  }

  // ---------------------------------------------------------------------
  // Running statistics
  // ---------------------------------------------------------------------

  /** The sum of the readings, each floored at -1000: at least -1000 per
      reading. */
  function ClampedSum(history: seq<real>): (sum: real)
    ensures -1000.0 * |history| as real <= sum
  {
    if history == [] then 0.0 else ClampedSum(history[..|history| - 1]) + Floor1000(history[|history| - 1])
  }

  /** The maximum of the readings and the initial maximum of 0: never
      negative, and at least the latest reading. */
  function RunningMax(history: seq<real>): (m: real)
    ensures m >= 0.0
    ensures history != [] ==> m >= history[|history| - 1]
  {
    if history == [] then 0.0 else Max(RunningMax(history[..|history| - 1]), history[|history| - 1])
  }

  /** The running maximum bounds every reading and 0, and is 0 or one of
      the readings. */
  lemma {:induction false} RunningMaxIsMaximum(history: seq<real>)
    ensures RunningMax(history) >= 0.0
    ensures forall k :: 0 <= k < |history| ==> history[k] <= RunningMax(history)
    ensures RunningMax(history) == 0.0 || RunningMax(history) in history
  {
    if history != [] {
      var init := history[..|history| - 1];
      RunningMaxIsMaximum(init);
      assert forall k :: 0 <= k < |init| ==> history[k] == init[k];
      assert forall x :: x in init ==> x in history;
    }
  }

  /** The clamped sum is at most the running maximum per reading. */
  lemma {:induction false} ClampedSumAtMost(history: seq<real>)
    ensures ClampedSum(history) <= RunningMax(history) * |history| as real
  {
    RunningMaxIsMaximum(history);
    SumBelow(history, RunningMax(history));
  }

  /** Readings all at most a non-negative m sum, clamped, to at most m per
      reading. */
  lemma {:induction false} SumBelow(history: seq<real>, m: real)
    requires m >= 0.0 && forall k :: 0 <= k < |history| ==> history[k] <= m
    ensures ClampedSum(history) <= m * |history| as real
  {
    if history != [] {
      var init := history[..|history| - 1];
      assert forall k :: 0 <= k < |init| ==> init[k] == history[k];
      SumBelow(init, m);
      StepBound(ClampedSum(init), Floor1000(history[|history| - 1]), m, |init| as real,
                ClampedSum(history), |history| as real);
    }
  }

  /** One more reading y, at most m, adds at most m. */
  lemma StepBound(sum: real, y: real, m: real, n: real, total: real, count: real)
    requires sum <= m * n && y <= m
    requires total == sum + y && count == n + 1.0
    ensures total <= m * count
  {
  }

  /** The average of any non-empty history lies between -1000 and the
      running maximum. */
  lemma {:induction false} AverageBounds(history: seq<real>)
    requires history != []
    ensures -1000.0 <= ClampedSum(history) / |history| as real <= RunningMax(history)
  {
    var n := |history| as real;
    var sum := ClampedSum(history);
    var m := RunningMax(history);
    assert -1000.0 * n <= sum;
    ClampedSumAtMost(history);
    assert sum <= m * n;
    DivBounds(sum, n, -1000.0, m);
  }

  lemma DivBounds(s: real, n: real, lo: real, hi: real)
    requires n > 0.0 && lo * n <= s <= hi * n
    ensures lo <= s / n <= hi
  {
    assert s / n * n == s;
  }

  /** Each reading only raises the running maximum. */
  lemma RunningMaxMonotone(history: seq<real>, x: real)
    ensures RunningMax(history + [x]) == Max(RunningMax(history), x) >= RunningMax(history)
  {
    assert (history + [x])[..|history|] == history;
  }

  // ---------------------------------------------------------------------
  // The device object
  // ---------------------------------------------------------------------

  /** One entry of the download log: receive time, sample number, battery
      value and the single sample and mass. */
  datatype DownloadPacket = DownloadPacket(received: int, sampleNum: nat, battRaw: nat,
                                           samples: seq<real>, masses: seq<real>)

  /** Why an advertisement handler or a connection attempt stopped. */
  datatype Fault =
    | ShortPayload     // getUint8 past the end of the manufacturer data
    | NoCallback       // notifyCallback called while unset
    | NoDeviceChosen   // requestDevice rejected
    | GattUnavailable  // the chosen device has no GATT server
    | WatchUnsupported // watchAdvertisements is not a function

  /** What one advertisement leads to. */
  datatype Advertised = Notified(note: Notification) | NoWeightData | Thrown(fault: Fault)

  /** The scan request connect sends. */
  datatype AdvertisementRequest = AdvertisementRequest(filters: seq<Filter>, optionalManufacturerData: seq<int>)

  /** What connect reports: whether onSuccess ran, and what reached onError. */
  datatype Connection = Connection(succeeded: bool, error: Option<Fault>)

  /** The running statistics and the download log agree with the readings
      taken so far. */
  ghost predicate Consistent(history: seq<real>, downloads: seq<DownloadPacket>,
                             massMax: real, massTotalSum: real, dataPointCount: nat, massAverage: real)
  {
    && dataPointCount == |history| == |downloads|
    && massTotalSum == ClampedSum(history)
    && massMax == RunningMax(history)
    && massAverage == (if dataPointCount == 0 then 0.0 else massTotalSum / dataPointCount as real)
    && forall k :: 0 <= k < |downloads| ==> downloads[k] == DownloadPacket(downloads[k].received, k, 0, [history[k]], [history[k]])
  }

  /** One more reading keeps the statistics consistent. */
  lemma ReadingPreserves(history: seq<real>, downloads: seq<DownloadPacket>,
                         massMax: real, massTotalSum: real, dataPointCount: nat, massAverage: real,
                         x: real, now: int)
    requires Consistent(history, downloads, massMax, massTotalSum, dataPointCount, massAverage)
    ensures Consistent(history + [x], downloads + [DownloadPacket(now, dataPointCount, 0, [x], [x])],
                       Max(massMax, x), massTotalSum + Floor1000(x), dataPointCount + 1,
                       (massTotalSum + Floor1000(x)) / (dataPointCount + 1) as real)
  {
    var h := history + [x];
    assert h[..|history|] == history && h[|history|] == x;
    var d := downloads + [DownloadPacket(now, dataPointCount, 0, [x], [x])];
    forall k | 0 <= k < |d|
      ensures d[k] == DownloadPacket(d[k].received, k, 0, [h[k]], [h[k]])
    {
      if k < |downloads| {
        assert d[k] == downloads[k] && h[k] == history[k];
      }
    }
  }

  class WHC06 {
    const filters: seq<Filter>
    var bluetooth: Option<BluetoothDevice>
    var listening: bool
    var watching: bool
    var massMax: real
    var massTotalSum: real
    var dataPointCount: nat
    var massAverage: real
    /** DownloadPackets, the module-level log every reading is pushed onto. */
    var downloads: seq<DownloadPacket>
    /** How many times the liveness timeout has been (re)armed. */
    var timeoutsArmed: nat
    /** Every tare-corrected reading so far, oldest first. */
    ghost var history: seq<real>

    /** The statistics are those of the readings so far: count, floored sum,
        maximum from 0, and their average once there is a reading; the log
        holds one packet per reading numbered from 0. */
    ghost predicate Valid()
      reads this
    {
      Consistent(history, downloads, massMax, massTotalSum, dataPointCount, massAverage)
    }

    constructor ()
      ensures Valid() && history == [] && filters == Filters
      ensures bluetooth == None && !listening && !watching && timeoutsArmed == 0
    {
      filters := Filters;
      bluetooth := None;
      listening := false;
      watching := false;
      massMax := 0.0;
      massTotalSum := 0.0;
      dataPointCount := 0;
      massAverage := 0.0;
      downloads := [];
      timeoutsArmed := 0;
      history := [];
    }

    /** The WH-C06's own connection check: a device reference is held,
        whether or not its GATT server says it is connected. */
    function IsConnected(): (r: bool)
      reads this
      ensures r <==> bluetooth.Some?
      ensures bluetooth.Some? && bluetooth.value.gatt.Some? && !bluetooth.value.gatt.value.connected ==> r
    {
      bluetooth.Some?
    }

    /** Fold one tare-corrected reading into the download log and the
        running statistics. */
    method Record(numericData: real, now: int)
      requires Valid()
      modifies this
      ensures Valid()
      ensures bluetooth == old(bluetooth) && listening == old(listening) && watching == old(watching)
      ensures timeoutsArmed == old(timeoutsArmed)
      ensures history == old(history) + [numericData]
      ensures downloads == old(downloads) + [DownloadPacket(now, old(dataPointCount), 0, [numericData], [numericData])]
      ensures dataPointCount == old(dataPointCount) + 1
      ensures massTotalSum == old(massTotalSum) + Floor1000(numericData)
      ensures massMax == Max(old(massMax), numericData)
      ensures massAverage == massTotalSum / dataPointCount as real
    {
      ReadingPreserves(history, downloads, massMax, massTotalSum, dataPointCount, massAverage, numericData, now);
      downloads := downloads + [DownloadPacket(now, dataPointCount, 0, [numericData], [numericData])];
      massMax := Max(massMax, numericData);
      var currentMassTotal := Max(-1000.0, numericData);
      massTotalSum := massTotalSum + currentMassTotal;
      dataPointCount := dataPointCount + 1;
      massAverage := massTotalSum / dataPointCount as real;
      history := history + [numericData];
    }

    /** The "advertisementreceived" listener. `tare` is what applyTare
        returned for the reading, `now` the receive time and `registered`
        whether a notify callback is set. */
    method OnAdvertisement(manufacturerData: map<int, seq<byte>>, tare: real, now: int, registered: bool)
      returns (r: Advertised)
      requires Valid()
      modifies this
      ensures Valid()
      ensures bluetooth == old(bluetooth) && listening == old(listening) && watching == old(watching)
      ensures ManufacturerId !in manufacturerData ==>
                && r == NoWeightData && history == old(history) && downloads == old(downloads)
                && massMax == old(massMax) && massTotalSum == old(massTotalSum)
                && dataPointCount == old(dataPointCount) && massAverage == old(massAverage)
                && timeoutsArmed == old(timeoutsArmed) + 1
      ensures ManufacturerId in manufacturerData && |manufacturerData[ManufacturerId]| < WeightOffset + 2 ==>
                && r == Thrown(ShortPayload) && history == old(history) && downloads == old(downloads)
                && massMax == old(massMax) && massTotalSum == old(massTotalSum)
                && dataPointCount == old(dataPointCount) && massAverage == old(massAverage)
                && timeoutsArmed == old(timeoutsArmed)
      ensures ManufacturerId in manufacturerData && |manufacturerData[ManufacturerId]| >= WeightOffset + 2 ==>
                var numeric := WeightOf(manufacturerData[ManufacturerId]).value - tare;
                && history == old(history) + [numeric]
                && downloads == old(downloads) + [DownloadPacket(now, old(dataPointCount), 0, [numeric], [numeric])]
                && dataPointCount == old(dataPointCount) + 1
                && massTotalSum == old(massTotalSum) + Floor1000(numeric)
                && massMax == Max(old(massMax), numeric)
                && massAverage == massTotalSum / dataPointCount as real
                && (registered ==> r == Notified(WeightRecord(massMax, massAverage, Floor1000(numeric)))
                                   && timeoutsArmed == old(timeoutsArmed) + 1)
                && (!registered ==> r == Thrown(NoCallback) && timeoutsArmed == old(timeoutsArmed))
    {
      if ManufacturerId in manufacturerData {
        var data := manufacturerData[ManufacturerId];
        if |data| < WeightOffset + 2 {
          return Thrown(ShortPayload);
        }
        var weight := 256 * data[WeightOffset] as int + data[WeightOffset + 1] as int;
        var receivedData := weight as real / 100.0;
        var numericData := receivedData - tare;
        Record(numericData, now);
        if !registered {
          return Thrown(NoCallback);
        }
        r := Notified(WeightRecord(massMax, massAverage, Max(-1000.0, numericData)));
      } else {
        r := NoWeightData;
      }
      timeoutsArmed := timeoutsArmed + 1;
    }

    /** connect: ask for a device with the scale's filters and the company
        identifiers they name, keep the device, report success, start
        listening, then watch advertisements when some identifier is asked
        for. `chosen` is what requestDevice resolves to, None when it
        rejects; `watchSupported` whether watchAdvertisements exists. */
    method Connect(chosen: Option<BluetoothDevice>, watchSupported: bool)
      returns (request: AdvertisementRequest, result: Connection)
      requires Valid()
      modifies this
      ensures Valid() && history == old(history)
      ensures downloads == old(downloads) && timeoutsArmed == old(timeoutsArmed)
      ensures request == AdvertisementRequest(filters, OptionalManufacturerData(filters))
      ensures chosen.None? ==> result == Connection(false, Some(NoDeviceChosen)) && bluetooth == old(bluetooth)
                               && listening == old(listening) && watching == old(watching)
      ensures chosen.Some? ==> bluetooth == chosen && IsConnected()
      ensures chosen.Some? && chosen.value.gatt.None? ==>
                result == Connection(false, Some(GattUnavailable))
                && listening == old(listening) && watching == old(watching)
      ensures chosen.Some? && chosen.value.gatt.Some? ==>
                && listening
                && (request.optionalManufacturerData == [] ==> result == Connection(true, None) && watching == old(watching))
                && (request.optionalManufacturerData != [] && watchSupported ==> result == Connection(true, None) && watching)
                && (request.optionalManufacturerData != [] && !watchSupported ==>
                      result == Connection(true, Some(WatchUnsupported)) && watching == old(watching))
    {
      var ids := OptionalManufacturerData(filters);
      request := AdvertisementRequest(filters, ids);
      if chosen.None? {
        return request, Connection(false, Some(NoDeviceChosen));
      }
      bluetooth := chosen;
      if bluetooth.value.gatt.None? {
        return request, Connection(false, Some(GattUnavailable));
      }
      listening := true;
      result := Connection(true, None);
      if |ids| > 0 {
        if watchSupported {
          watching := true;
        } else {
          result := Connection(true, Some(WatchUnsupported));
        }
      }
    }
  }
}
