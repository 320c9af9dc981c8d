/** What connect.js and connect.ts share: the scan request built from a
    device descriptor, the binding of declared characteristics to discovered
    ones once the bearer is open, and the disconnect handler. */
module Transport {
  import opened Types
  import opened Connection

  // ---------------------------------------------------------------------
  // The scan request
  // ---------------------------------------------------------------------

  /** getAllServiceUUIDs: the declared service UUIDs, in order. */
  function AllServiceUuids(desc: DeviceDesc): (uuids: seq<string>)
    ensures |uuids| == |desc.services|
    ensures forall i :: 0 <= i < |uuids| ==> uuids[i] == desc.services[i].uuid
  {
    seq(|desc.services|, i requires 0 <= i < |desc.services| => desc.services[i].uuid)
  }

  predicate HasCompanyId(desc: DeviceDesc)
  {
    desc.companyId.Some? && desc.companyId.value != 0
  }

  /** The filter list connect builds: a name filter when the name is
      non-empty, then a manufacturer filter when the company id is present and
      not 0. */
  function BuildFilters(desc: DeviceDesc): (filters: seq<Filter>)
    ensures |filters| == (if desc.name != "" then 1 else 0) + (if HasCompanyId(desc) then 1 else 0)
    ensures desc.name != "" ==> filters[0] == Filter(Some(desc.name), None)
    ensures HasCompanyId(desc) ==> filters[|filters| - 1] == Filter(None, Some([desc.companyId.value]))
  {
    var byName := if desc.name != "" then [Filter(Some(desc.name), None)] else [];
    var byCompany := if HasCompanyId(desc) then [Filter(None, Some([desc.companyId.value]))] else [];
    byName + byCompany
  }

  /** The argument connect passes to requestDevice. */
  datatype Request = Request(filters: seq<Filter>, optionalServices: seq<string>)

  function RequestFor(desc: DeviceDesc): (r: Request)
    ensures |r.optionalServices| == |desc.services|
    ensures forall i :: 0 <= i < |desc.services| ==> r.optionalServices[i] == desc.services[i].uuid
    ensures r.filters == [] <==> desc.name == "" && !HasCompanyId(desc)
    ensures |r.filters| <= 2
  {
    Request(BuildFilters(desc), AllServiceUuids(desc))
  }

  // ---------------------------------------------------------------------
  // The board and its session state
  // ---------------------------------------------------------------------

  /** A declared characteristic: its service's index and its own index in
      the descriptor. */
  datatype CharRef = CharRef(service: nat, characteristic: nat)

  /** A device descriptor as the connect modules use it: the static
      descriptor, the device reference connect stores in `board.device`, and
      the live handle bound to each declared characteristic
      (`element.characteristic`). */
  class Board {
    const desc: DeviceDesc
    var device: Option<BluetoothDevice>
    var handles: map<CharRef, nat>

    constructor (desc: DeviceDesc)
      ensures this.desc == desc && device == None && handles == map[]
    {
      this.desc := desc;
      device := None;
      handles := map[];
    }
  }

  /** onDisconnected: forget the device, after which the board no longer
      counts as connected; bound handles stay. */
  method OnDisconnected(board: Board)
    modifies board
    ensures board.device == None && !IsConnected(board.device)
    ensures board.handles == old(board.handles)
  {
    board.device := None;
  }

  // ---------------------------------------------------------------------
  // Service and characteristic resolution
  // ---------------------------------------------------------------------

  /** A declared characteristic the discovered service does not offer. */
  datatype Warning = Missing(characteristicUuid: string, serviceUuid: string)

  /** What resolution has done so far: handles bound, handles subscribed to,
      in order, and warnings logged, in order. */
  datatype Resolution = Resolution(handles: map<CharRef, nat>, subscribed: seq<nat>, warnings: seq<Warning>)

  /** board.services.find by UUID. */
  function FindService(decl: seq<ServiceDesc>, uuid: string): (r: Option<nat>)
    ensures r.Some? ==> r.value < |decl| && decl[r.value].uuid == uuid
    ensures r.Some? ==> forall i :: 0 <= i < r.value ==> decl[i].uuid != uuid
    ensures r.None? ==> forall i :: 0 <= i < |decl| ==> decl[i].uuid != uuid
  {
    if decl == [] then None
    else if decl[0].uuid == uuid then Some(0)
    else match FindService(decl[1..], uuid)
         case None => None
         case Some(i) => Some(i + 1)
  }

  /** characteristics.find over the discovered characteristics by UUID:
      the first one with that UUID. */
  function FindDiscovered(chars: seq<DiscoveredChar>, uuid: string): (r: Option<DiscoveredChar>)
    ensures r.Some? ==> r.value in chars && r.value.uuid == uuid
    ensures r.Some? ==> exists k :: 0 <= k < |chars| && chars[k] == r.value
                                    && forall j :: 0 <= j < k ==> chars[j].uuid != uuid
    ensures r.None? ==> forall c :: c in chars ==> c.uuid != uuid
  {
    if chars == [] then None
    else if chars[0].uuid == uuid then Some(chars[0])
    else
      var r := FindDiscovered(chars[1..], uuid);
      if r.None? then None
      else
        FirstMatchShifts(chars, uuid, r.value);
        r
  }

  /** A first match in the tail, behind a head that does not match, is the
      first match of the whole sequence. */
  lemma FirstMatchShifts(chars: seq<DiscoveredChar>, uuid: string, c: DiscoveredChar)
    requires chars != [] && chars[0].uuid != uuid
    requires exists k :: 0 <= k < |chars| - 1 && chars[1..][k] == c
                         && forall j :: 0 <= j < k ==> chars[1..][j].uuid != uuid
    ensures exists k :: 0 <= k < |chars| && chars[k] == c
                        && forall j :: 0 <= j < k ==> chars[j].uuid != uuid
  {
    var k :| 0 <= k < |chars| - 1 && chars[1..][k] == c
             && forall j :: 0 <= j < k ==> chars[1..][j].uuid != uuid;
    assert chars[k + 1] == c;
    assert forall j :: 1 <= j < k + 1 ==> chars[j] == chars[1..][j - 1];
  }

  /** matchingService.characteristics.find by UUID. */
  function FindDeclared(chars: seq<CharacteristicDesc>, uuid: string): (r: Option<nat>)
    ensures r.Some? ==> r.value < |chars| && chars[r.value].uuid == uuid
    ensures r.Some? ==> forall i :: 0 <= i < r.value ==> chars[i].uuid != uuid
    ensures r.None? ==> forall i :: 0 <= i < |chars| ==> chars[i].uuid != uuid
  {
    if chars == [] then None
    else if chars[0].uuid == uuid then Some(0)
    else match FindDeclared(chars[1..], uuid)
         case None => None
         case Some(i) => Some(i + 1)
  }

  /** One declared characteristic j of declared service si against the
      discovered service ds: bind it (and subscribe if its id is "rx"), or
      warn. */
  function CharStep(r: Resolution, decl: seq<ServiceDesc>, si: nat, j: nat, ds: DiscoveredService): (r': Resolution)
    requires si < |decl| && j < |decl[si].characteristics|
    ensures r.handles.Keys <= r'.handles.Keys
  {
    var chars := decl[si].characteristics;
    match FindDiscovered(ds.characteristics, chars[j].uuid)
    case None => r.(warnings := r.warnings + [Missing(chars[j].uuid, ds.uuid)])
    case Some(m) =>
      match FindDeclared(chars, m.uuid)
      case None => r
      case Some(e) =>
        Resolution(r.handles[CharRef(si, e) := m.handle],
                   if chars[e].id == "rx" then r.subscribed + [m.handle] else r.subscribed,
                   r.warnings)
  }

  /** The first n declared characteristics of service si, in order. */
  function CharsPrefix(r: Resolution, decl: seq<ServiceDesc>, si: nat, ds: DiscoveredService, n: nat): (r': Resolution)
    requires si < |decl| && n <= |decl[si].characteristics|
    ensures r.handles.Keys <= r'.handles.Keys
  {
    if n == 0 then r else CharStep(CharsPrefix(r, decl, si, ds, n - 1), decl, si, n - 1, ds)
  }

  /** One discovered service: if a declared service has its UUID, walk that
      service's declared characteristics. */
  function ServiceStep(r: Resolution, decl: seq<ServiceDesc>, ds: DiscoveredService): (r': Resolution)
    ensures r.handles.Keys <= r'.handles.Keys
  {
    match FindService(decl, ds.uuid)
    case None => r
    case Some(si) => CharsPrefix(r, decl, si, ds, |decl[si].characteristics|)
  }

  /** The first n discovered services, in order. */
  function ServicesPrefix(r: Resolution, decl: seq<ServiceDesc>, disc: seq<DiscoveredService>, n: nat): (r': Resolution)
    requires n <= |disc|
    ensures r.handles.Keys <= r'.handles.Keys
  {
    if n == 0 then r else ServiceStep(ServicesPrefix(r, decl, disc, n - 1), decl, disc[n - 1])
  }

  /** Binding only adds or rebinds handles: a characteristic bound before
      a reconnection stays bound, and with nothing discovered nothing
      changes. */
  function Resolve(handles: map<CharRef, nat>, decl: seq<ServiceDesc>, disc: seq<DiscoveredService>): (r: Resolution)
    ensures handles.Keys <= r.handles.Keys
    ensures disc == [] ==> r == Resolution(handles, [], [])
  {
    ServicesPrefix(Resolution(handles, [], []), decl, disc, |disc|)
  }

  /** The loops of onConnected: for each discovered service with a declared
      counterpart, for each of its declared characteristics, bind the
      discovered one of the same UUID, subscribe to it if it is "rx", or warn. */
  method ResolveServices(board: Board, discovered: seq<DiscoveredService>)
    returns (subscribed: seq<nat>, warnings: seq<Warning>)
    modifies board
    ensures board.device == old(board.device)
    ensures Resolution(board.handles, subscribed, warnings) == Resolve(old(board.handles), board.desc.services, discovered)
  {
    var decl := board.desc.services;
    subscribed, warnings := [], [];
    for i := 0 to |discovered|
      invariant board.device == old(board.device)
      invariant Resolution(board.handles, subscribed, warnings)
             == ServicesPrefix(Resolution(old(board.handles), [], []), decl, discovered, i)
    {
      var service := discovered[i];
      var matching := FindService(decl, service.uuid);
      if matching.Some? {
        var si := matching.value;
        var chars := decl[si].characteristics;
        for j := 0 to |chars|
          invariant board.device == old(board.device)
          invariant Resolution(board.handles, subscribed, warnings)
                 == CharsPrefix(ServicesPrefix(Resolution(old(board.handles), [], []), decl, discovered, i), decl, si, service, j)
        {
          var characteristic := chars[j];
          var found := FindDiscovered(service.characteristics, characteristic.uuid);
          if found.Some? {
            var element := FindDeclared(chars, found.value.uuid);
            if element.Some? {
              var e := element.value;
              board.handles := board.handles[CharRef(si, e) := found.value.handle];
              if chars[e].id == "rx" {
                subscribed := subscribed + [found.value.handle];
              }
            }
          } else {
            warnings := warnings + [Missing(characteristic.uuid, service.uuid)];
          }
        }
      }
    }
  }

  // ---------------------------------------------------------------------
  // Properties of resolution
  // ---------------------------------------------------------------------

  predicate DistinctServiceUuids(decl: seq<ServiceDesc>)
  {
    forall i, j :: 0 <= i < j < |decl| ==> decl[i].uuid != decl[j].uuid
  }

  predicate DistinctCharacteristicUuids(chars: seq<CharacteristicDesc>)
  {
    forall i, j :: 0 <= i < j < |chars| ==> chars[i].uuid != chars[j].uuid
  }

  /** Declared UUIDs are unique: services among services, characteristics
      within their service. */
  predicate WellDeclared(decl: seq<ServiceDesc>)
  {
    DistinctServiceUuids(decl)
    && forall i :: 0 <= i < |decl| ==> DistinctCharacteristicUuids(decl[i].characteristics)
  }

  predicate Offers(ds: DiscoveredService, uuid: string)
  {
    exists c :: c in ds.characteristics && c.uuid == uuid
  }

  /** A declared characteristic that some discovered service of its
      service's UUID offers. */
  predicate Bindable(decl: seq<ServiceDesc>, disc: seq<DiscoveredService>, k: CharRef)
  {
    && k.service < |decl|
    && k.characteristic < |decl[k.service].characteristics|
    && exists ds :: ds in disc && ds.uuid == decl[k.service].uuid
                 && Offers(ds, decl[k.service].characteristics[k.characteristic].uuid)
  }

  lemma FindDiscoveredOffers(chars: seq<DiscoveredChar>, ds: DiscoveredService, uuid: string)
    requires chars == ds.characteristics
    ensures FindDiscovered(chars, uuid).Some? <==> Offers(ds, uuid)
  {
    if Offers(ds, uuid) {
      var c :| c in ds.characteristics && c.uuid == uuid;
    }
  }

  /** The keys bound while walking the first n declared characteristics of
      service si: exactly those the discovered service offers. */
  lemma {:induction false} CharsPrefixKeys(r: Resolution, decl: seq<ServiceDesc>, si: nat, ds: DiscoveredService, n: nat)
    requires si < |decl| && n <= |decl[si].characteristics|
    requires DistinctCharacteristicUuids(decl[si].characteristics)
    ensures forall k :: k in CharsPrefix(r, decl, si, ds, n).handles <==>
              k in r.handles
              || (k.service == si && k.characteristic < n
                  && Offers(ds, decl[si].characteristics[k.characteristic].uuid))
  {
    if n > 0 {
      CharsPrefixKeys(r, decl, si, ds, n - 1);
      var chars := decl[si].characteristics;
      FindDiscoveredOffers(ds.characteristics, ds, chars[n - 1].uuid);
      var found := FindDiscovered(ds.characteristics, chars[n - 1].uuid);
      if found.Some? {
        assert FindDeclared(chars, found.value.uuid) == Some(n - 1);
      }
    }
  }

  lemma ServiceStepKeys(r: Resolution, decl: seq<ServiceDesc>, ds: DiscoveredService)
    requires WellDeclared(decl)
    ensures forall k :: k in ServiceStep(r, decl, ds).handles <==>
              k in r.handles
              || (k.service < |decl| && k.characteristic < |decl[k.service].characteristics|
                  && decl[k.service].uuid == ds.uuid
                  && Offers(ds, decl[k.service].characteristics[k.characteristic].uuid))
  {
    match FindService(decl, ds.uuid)
    case None =>
    case Some(si) =>
      CharsPrefixKeys(r, decl, si, ds, |decl[si].characteristics|);
  }

  lemma {:induction false} ServicesPrefixKeys(r: Resolution, decl: seq<ServiceDesc>, disc: seq<DiscoveredService>, n: nat)
    requires WellDeclared(decl) && n <= |disc|
    ensures forall k :: k in ServicesPrefix(r, decl, disc, n).handles <==>
              k in r.handles || Bindable(decl, disc[..n], k)
  {
    if n > 0 {
      ServicesPrefixKeys(r, decl, disc, n - 1);
      ServiceStepKeys(ServicesPrefix(r, decl, disc, n - 1), decl, disc[n - 1]);
      assert disc[..n] == disc[..n - 1] + [disc[n - 1]];
      forall k ensures Bindable(decl, disc[..n], k) <==>
                 Bindable(decl, disc[..n - 1], k)
                 || (k.service < |decl| && k.characteristic < |decl[k.service].characteristics|
                     && decl[k.service].uuid == disc[n - 1].uuid
                     && Offers(disc[n - 1], decl[k.service].characteristics[k.characteristic].uuid))
      {
        if Bindable(decl, disc[..n], k) {
          var ds :| ds in disc[..n] && ds.uuid == decl[k.service].uuid
                    && Offers(ds, decl[k.service].characteristics[k.characteristic].uuid);
          if ds != disc[n - 1] {
            assert ds in disc[..n - 1];
          }
        }
        if Bindable(decl, disc[..n - 1], k) {
          var ds :| ds in disc[..n - 1] && ds.uuid == decl[k.service].uuid
                    && Offers(ds, decl[k.service].characteristics[k.characteristic].uuid);
          assert ds in disc[..n];
        }
      }
    }
  }

  /** Starting with nothing bound, a declared characteristic ends up bound
      if and only if a discovered service with its service's UUID offers a
      characteristic with its UUID; a miss binds nothing. */
  lemma BoundIffDiscovered(decl: seq<ServiceDesc>, disc: seq<DiscoveredService>)
    requires WellDeclared(decl)
    ensures forall k :: k in Resolve(map[], decl, disc).handles <==> Bindable(decl, disc, k)
  {
    ServicesPrefixKeys(Resolution(map[], [], []), decl, disc, |disc|);
    assert disc[..|disc|] == disc;
  }

  /** A handle of a discovered characteristic whose UUID is that of a
      declared characteristic with id "rx". */
  predicate RxHandle(decl: seq<ServiceDesc>, disc: seq<DiscoveredService>, h: nat)
  {
    exists si, ci, ds, c ::
      && 0 <= si < |decl| && 0 <= ci < |decl[si].characteristics|
      && decl[si].characteristics[ci].id == "rx"
      && ds in disc && ds.uuid == decl[si].uuid
      && c in ds.characteristics && c.uuid == decl[si].characteristics[ci].uuid && c.handle == h
  }

  lemma {:induction false} CharsPrefixRx(r: Resolution, decl: seq<ServiceDesc>, si: nat, ds: DiscoveredService, n: nat,
                                         disc: seq<DiscoveredService>)
    requires si < |decl| && n <= |decl[si].characteristics|
    requires ds in disc && ds.uuid == decl[si].uuid
    requires forall h :: h in r.subscribed ==> RxHandle(decl, disc, h)
    ensures forall h :: h in CharsPrefix(r, decl, si, ds, n).subscribed ==> RxHandle(decl, disc, h)
  {
    if n > 0 {
      CharsPrefixRx(r, decl, si, ds, n - 1, disc);
      var chars := decl[si].characteristics;
      var found := FindDiscovered(ds.characteristics, chars[n - 1].uuid);
      if found.Some? {
        var element := FindDeclared(chars, found.value.uuid);
        if element.Some? && chars[element.value].id == "rx" {
          assert RxHandle(decl, disc, found.value.handle) by {
            var e := element.value;
            assert 0 <= si < |decl| && 0 <= e < |decl[si].characteristics|;
            assert found.value in ds.characteristics && found.value.uuid == chars[e].uuid;
          }
        }
      }
    }
  }

  lemma {:induction false} ServicesPrefixRx(decl: seq<ServiceDesc>, disc: seq<DiscoveredService>, n: nat)
    requires n <= |disc|
    ensures forall h :: h in ServicesPrefix(Resolution(map[], [], []), decl, disc, n).subscribed ==> RxHandle(decl, disc, h)
  {
    if n > 0 {
      ServicesPrefixRx(decl, disc, n - 1);
      var ds := disc[n - 1];
      match FindService(decl, ds.uuid)
      case None =>
      case Some(si) =>
        CharsPrefixRx(ServicesPrefix(Resolution(map[], [], []), decl, disc, n - 1), decl, si, ds,
                      |decl[si].characteristics|, disc);
    }
  }

  /** Only "rx" characteristics are subscribed to: every subscription is the
      handle of a discovered characteristic with the UUID of a declared "rx"
      characteristic, in a discovered service of its service's UUID. */
  lemma OnlyRxSubscribed(decl: seq<ServiceDesc>, disc: seq<DiscoveredService>)
    ensures forall h :: h in Resolve(map[], decl, disc).subscribed ==> RxHandle(decl, disc, h)
  {
    ServicesPrefixRx(decl, disc, |disc|);
  }

  // ---------------------------------------------------------------------
  // How many characteristics are subscribed to
  // ---------------------------------------------------------------------

  /** The number of declared characteristics with id "rx". */
  function RxCount(chars: seq<CharacteristicDesc>): nat
  {
    if chars == [] then 0
    else RxCount(chars[..|chars| - 1]) + (if chars[|chars| - 1].id == "rx" then 1 else 0)
  }

  /** The "rx" characteristics declared for the service a discovered service
      is matched with. */
  function ServiceRx(decl: seq<ServiceDesc>, ds: DiscoveredService): nat
  {
    match FindService(decl, ds.uuid)
    case None => 0
    case Some(si) => RxCount(decl[si].characteristics)
  }

  function TotalRx(decl: seq<ServiceDesc>, disc: seq<DiscoveredService>): nat
  {
    if disc == [] then 0 else TotalRx(decl, disc[..|disc| - 1]) + ServiceRx(decl, disc[|disc| - 1])
  }

  lemma {:induction false} CharsPrefixSubscribed(r: Resolution, decl: seq<ServiceDesc>, si: nat, ds: DiscoveredService, n: nat)
    requires si < |decl| && n <= |decl[si].characteristics|
    requires DistinctCharacteristicUuids(decl[si].characteristics)
    ensures |CharsPrefix(r, decl, si, ds, n).subscribed| <= |r.subscribed| + RxCount(decl[si].characteristics[..n])
  {
    if n > 0 {
      var chars := decl[si].characteristics;
      CharsPrefixSubscribed(r, decl, si, ds, n - 1);
      assert chars[..n][..n - 1] == chars[..n - 1];
      var found := FindDiscovered(ds.characteristics, chars[n - 1].uuid);
      if found.Some? {
        assert FindDeclared(chars, found.value.uuid) == Some(n - 1);
      }
    }
  }

  lemma {:induction false} ServicesPrefixSubscribed(r: Resolution, decl: seq<ServiceDesc>, disc: seq<DiscoveredService>, n: nat)
    requires WellDeclared(decl) && n <= |disc|
    ensures |ServicesPrefix(r, decl, disc, n).subscribed| <= |r.subscribed| + TotalRx(decl, disc[..n])
  {
    if n > 0 {
      ServicesPrefixSubscribed(r, decl, disc, n - 1);
      assert disc[..n][..n - 1] == disc[..n - 1];
      var ds := disc[n - 1];
      match FindService(decl, ds.uuid)
      case None =>
      case Some(si) =>
        var chars := decl[si].characteristics;
        CharsPrefixSubscribed(ServicesPrefix(r, decl, disc, n - 1), decl, si, ds, |chars|);
        assert chars[..|chars|] == chars;
    }
  }

  /** Each discovered service adds at most as many subscriptions as its
      declared counterpart has "rx" characteristics. */
  lemma SubscribedBound(handles: map<CharRef, nat>, decl: seq<ServiceDesc>, disc: seq<DiscoveredService>)
    requires WellDeclared(decl)
    ensures |Resolve(handles, decl, disc).subscribed| <= TotalRx(decl, disc)
  {
    ServicesPrefixSubscribed(Resolution(handles, [], []), decl, disc, |disc|);
    assert disc[..|disc|] == disc;
  }

  // ---------------------------------------------------------------------
  // onConnected
  // ---------------------------------------------------------------------

  /** How onConnected ended: no services (onSuccess is not called), or every
      discovered service walked and onSuccess called once. */
  datatype Setup = NoServices | Ready(subscribed: seq<nat>, warnings: seq<Warning>)

  /** onConnected with the module's `server`: ask it for its primary
      services, give up if there are none, otherwise resolve them all and
      report success. */
  method OnConnected(board: Board, server: Option<Gatt>) returns (setup: Setup)
    modifies board
    ensures board.device == old(board.device)
    ensures server.None? || server.value.primaryServices == [] ==>
              setup == NoServices && board.handles == old(board.handles)
    ensures server.Some? && server.value.primaryServices != [] ==>
              setup.Ready?
              && Resolution(board.handles, setup.subscribed, setup.warnings)
                 == Resolve(old(board.handles), board.desc.services, server.value.primaryServices)
  {
    if server.None? || server.value.primaryServices == [] {
      return NoServices;
    }
    var subscribed, warnings := ResolveServices(board, server.value.primaryServices);
    setup := Ready(subscribed, warnings);
  }
}
