/** The ENTRALPI force plate: its descriptor and the handler that reports
    one decoded total mass. */
module Entralpi {
  import opened Types
  import opened Transport

  const UartUuid: string := "0000fff0-0000-1000-8000-00805f9b34fb"
  const RxUuid: string := "0000fff4-0000-1000-8000-00805f9b34fb"

  /** The ENTRALPI's static descriptor: a name, no company identifier. */
  const Descriptor: DeviceDesc := DeviceDesc("ENTRALPI", None, [
    ServiceDesc("Device Information", "device", "0000180a-0000-1000-8000-00805f9b34fb", []),
    ServiceDesc("Battery Service", "battery", "0000180f-0000-1000-8000-00805f9b34fb", []),
    ServiceDesc("Generic Attribute", "attribute", "00001801-0000-1000-8000-00805f9b34fb", []),
    ServiceDesc("UART ISSC Transparent Service", "uart", UartUuid, [
      CharacteristicDesc("TX", "tx", "0000fff5-0000-1000-8000-00805f9b34fb"),
      CharacteristicDesc("RX", "rx", RxUuid)]),
    ServiceDesc("Weight Scale", "weight", "0000181d-0000-1000-8000-00805f9b34fb", []),
    ServiceDesc("Generic Access", "access", "00001800-0000-1000-8000-00805f9b34fb", [])])

  /** handleEntralpiData: with a callback registered, exactly one
      notification carrying the uuid and the value as they came; without one,
      nothing. */
  function HandleEntralpiData(uuid: string, receivedData: real, registered: bool): (notes: seq<Notification>)
    ensures |notes| == if registered then 1 else 0
    ensures forall n :: n in notes ==> n == MassTotal(uuid, receivedData)
  {
    if registered then [MassTotal(uuid, receivedData)] else []
  }

  /** The descriptor has a name and no company identifier, so the scan
      request carries one name filter, and asks for the six declared services
      in order. */
  lemma ScanRequest()
    ensures RequestFor(Descriptor).filters == [Filter(Some("ENTRALPI"), None)]
    ensures RequestFor(Descriptor).optionalServices
         == ["0000180a-0000-1000-8000-00805f9b34fb", "0000180f-0000-1000-8000-00805f9b34fb",
             "00001801-0000-1000-8000-00805f9b34fb", UartUuid,
             "0000181d-0000-1000-8000-00805f9b34fb", "00001800-0000-1000-8000-00805f9b34fb"]
  {
    var filters := RequestFor(Descriptor).filters;
    assert |filters| == 1 && filters[0] == Filter(Some("ENTRALPI"), None);
  }

  /** The six service UUIDs differ in their eighth character, except the
      UART service and Generic Access, which differ in their fifth. */
  lemma DistinctServices()
    ensures DistinctServiceUuids(Descriptor.services)
  {
    var s := Descriptor.services;
    var eighth := seq(6, i requires 0 <= i < 6 => s[i].uuid[7]);
    assert eighth == ['a', 'f', '1', '0', 'd', '0'];
    assert s[3].uuid[4] != s[5].uuid[4];
    forall i, j | 0 <= i < j < |s| ensures s[i].uuid != s[j].uuid {
      if !(i == 3 && j == 5) {
        assert eighth[i] != eighth[j];
      }
    }
  }

  /** Declared UUIDs are unique: services among services, and TX and RX
      within the UART service, the only one declaring characteristics. */
  lemma WellDeclaredDescriptor()
    ensures WellDeclared(Descriptor.services)
  {
    DistinctServices();
    var s := Descriptor.services;
    assert forall i :: 0 <= i < |s| && i != 3 ==> s[i].characteristics == [];
    assert s[3].characteristics[0].uuid[7] != s[3].characteristics[1].uuid[7];
  }

  /** Only the UART service declares an "rx" characteristic, and only one. */
  lemma ServiceRxIsUart(ds: DiscoveredService)
    ensures ServiceRx(Descriptor.services, ds) == if ds.uuid == UartUuid then 1 else 0
  {
    var s := Descriptor.services;
    WellDeclaredDescriptor();
    var chars := s[3].characteristics;
    assert RxCount(chars) == 1 by {
      assert chars[..1][..0] == [];
      assert RxCount(chars[..1]) == 0;
    }
    match FindService(s, ds.uuid)
    case None =>
    case Some(si) =>
      if si != 3 {
        assert s[si].characteristics == [];
      }
  }

  function UartCount(disc: seq<DiscoveredService>): nat
  {
    if disc == [] then 0 else UartCount(disc[..|disc| - 1]) + (if disc[|disc| - 1].uuid == UartUuid then 1 else 0)
  }

  lemma {:induction false} TotalRxIsUartCount(disc: seq<DiscoveredService>)
    ensures TotalRx(Descriptor.services, disc) == UartCount(disc)
  {
    if disc != [] {
      TotalRxIsUartCount(disc[..|disc| - 1]);
      ServiceRxIsUart(disc[|disc| - 1]);
    }
  }

  predicate DistinctDiscovered(disc: seq<DiscoveredService>)
  {
    forall i, j :: 0 <= i < j < |disc| ==> disc[i].uuid != disc[j].uuid
  }

  lemma {:induction false} UartAtMostOnce(disc: seq<DiscoveredService>)
    requires DistinctDiscovered(disc)
    ensures UartCount(disc) <= 1
    ensures UartCount(disc) == 1 ==> exists i :: 0 <= i < |disc| && disc[i].uuid == UartUuid
  {
    if disc != [] {
      var init := disc[..|disc| - 1];
      UartAtMostOnce(init);
    }
  }

  /** Exactly one declared characteristic is "rx", so when the bearer lists
      each service once, resolution subscribes to at most one characteristic. */
  lemma AtMostOneSubscription(handles: map<CharRef, nat>, disc: seq<DiscoveredService>)
    requires DistinctDiscovered(disc)
    ensures |Resolve(handles, Descriptor.services, disc).subscribed| <= 1
  {
    WellDeclaredDescriptor();
    SubscribedBound(handles, Descriptor.services, disc);
    TotalRxIsUartCount(disc);
    UartAtMostOnce(disc);
  }

  /** Whatever resolution subscribes to is a characteristic with the RX UUID
      in a discovered UART service. */
  lemma SubscribesRx(disc: seq<DiscoveredService>)
    ensures forall h :: h in Resolve(map[], Descriptor.services, disc).subscribed ==>
              exists ds, c :: ds in disc && ds.uuid == UartUuid
                           && c in ds.characteristics && c.uuid == RxUuid && c.handle == h
  {
    OnlyRxSubscribed(Descriptor.services, disc);
    var s := Descriptor.services;
    forall h | h in Resolve(map[], s, disc).subscribed
      ensures exists ds, c :: ds in disc && ds.uuid == UartUuid
                           && c in ds.characteristics && c.uuid == RxUuid && c.handle == h
    {
      var si, ci, ds, c :| && 0 <= si < |s| && 0 <= ci < |s[si].characteristics|
                           && s[si].characteristics[ci].id == "rx"
                           && ds in disc && ds.uuid == s[si].uuid
                           && c in ds.characteristics && c.uuid == s[si].characteristics[ci].uuid && c.handle == h;
      assert si == 3 && ci == 1;
    }
  }
}
