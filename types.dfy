/** Shared values of the device protocol layer: options, bytes, device
    descriptors, the abstract Web Bluetooth objects the layer consumes, and the
    notifications it hands to the caller's callback. */
module Types {

  datatype Option<+T> = None | Some(value: T)

  /** A byte as delivered by a DataView or Uint8Array. */
  type byte = x: int | 0 <= x < 256

  const LF: byte := 10
  const CR: byte := 13

  /** A Web Bluetooth scan filter: an optional name and an optional list of
      manufacturer company identifiers. */
  datatype Filter = Filter(name: Option<string>, manufacturerData: Option<seq<int>>)

  /** A declared characteristic: logical id and UUID. */
  datatype CharacteristicDesc = CharacteristicDesc(name: string, id: string, uuid: string)

  /** A declared GATT service with its declared characteristics, in order. */
  datatype ServiceDesc = ServiceDesc(name: string, id: string, uuid: string,
                                     characteristics: seq<CharacteristicDesc>)

  /** A static device descriptor. An empty name is "falsy" in the source, and
      so is a company identifier of 0. */
  datatype DeviceDesc = DeviceDesc(name: string, companyId: Option<int>, services: seq<ServiceDesc>)

  /** A characteristic as discovered on the bearer; `handle` stands for the
      identity of the live BluetoothRemoteGATTCharacteristic object. */
  datatype DiscoveredChar = DiscoveredChar(uuid: string, handle: nat)

  /** A primary service as discovered on the bearer, with what its
      getCharacteristics() resolves to. */
  datatype DiscoveredService = DiscoveredService(uuid: string, characteristics: seq<DiscoveredChar>)

  /** The GATT server of a device: whether it reports itself connected, and
      what getPrimaryServices() resolves to. */
  datatype Gatt = Gatt(connected: bool, primaryServices: seq<DiscoveredService>)

  /** A BluetoothDevice returned by requestDevice; `gatt` may be absent. */
  datatype BluetoothDevice = BluetoothDevice(name: string, gatt: Option<Gatt>)

  /** A value that connect.ts's parseInt/array indexing can produce. */
  datatype Parsed = Num(n: int) | NaN | Undefined

  /** What a handler passes to the notify callback. */
  datatype Notification =
    | MassRecord(uuid: string, massTotal: real, massLeft: real, massRight: real, massCentre: real)
    | MassTotal(uuid: string, total: real)
    | RawBytes(uuid: string, bytes: seq<byte>)
    | RawString(uuid: string, text: string)
    | KeyedRecord(uuid: string, fields: map<string, Parsed>)
    | WeightRecord(massMax: real, massAverage: real, current: real)

  /** One character per byte, in order, with the byte as its code: what
      String.fromCharCode does with a byte array, and what TextDecoder does on
      the ASCII bytes the protocol uses. */
  function CharsOf(bytes: seq<byte>): (s: string)
    ensures |s| == |bytes|
    ensures forall k :: 0 <= k < |s| ==> s[k] as int == bytes[k]
  {
    seq(|bytes|, k requires 0 <= k < |bytes| => bytes[k] as char)
  }

  function Max(a: real, b: real): (r: real)
    ensures r >= a && r >= b && (r == a || r == b)
  {
    if a >= b then a else b
  }

  /** Math.max(-1000, x): the floor applied to every reported mass. */
  function Floor1000(x: real): (r: real)
    ensures r >= -1000.0
    ensures x >= -1000.0 ==> r == x
    ensures x < -1000.0 ==> r == -1000.0
  {
    Max(-1000.0, x)
  }
}
