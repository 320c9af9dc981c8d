/** hardware: read the hardware revision of a connected Motherboard. */
module Hardware {
  import opened Types
  import Motherboard
  import opened Connection

  /** One call of read(device, service, characteristic, delay). */
  datatype Read = Read(device: DeviceDesc, service: string, characteristic: string, delay: nat)

  /** What hardware does: throw "Not connected.", resolve to undefined
      without reading, or issue one read. */
  datatype Outcome = NotConnected | NoRead | Reads(request: Read)

  /** The read the Motherboard branch issues: against the global
      Motherboard descriptor, whatever board was passed in. */
  const HardwareRead: Read := Read(Motherboard.Descriptor, "device", "hardware", 250)

  function HasMotherboardFilter(filters: seq<Filter>): bool
  {
    exists i :: 0 <= i < |filters| && filters[i].name == Some("Motherboard")
  }

  /** `device` is the board's device reference, `filters` its scan
      filters. */
  function Hardware(device: Option<BluetoothDevice>, filters: seq<Filter>): (r: Outcome)
    ensures r == NotConnected <==> !IsConnected(device)
    ensures r.Reads? <==> IsConnected(device) && HasMotherboardFilter(filters)
    ensures r.Reads? ==> r.request.characteristic == "hardware" && r.request.device == Motherboard.Descriptor
  {
    if !IsConnected(device) then NotConnected
    else if HasMotherboardFilter(filters) then Reads(HardwareRead)
    else NoRead
  }

  /** Not connected is an error with no read; connected with a filter named
      "Motherboard" reads device/hardware of the Motherboard descriptor after
      250 ms; connected without one reads nothing. */
  lemma HardwareOutcomes(device: Option<BluetoothDevice>, filters: seq<Filter>)
    ensures Hardware(device, filters) == NotConnected
        <==> device.None? || device.value.gatt.None? || !device.value.gatt.value.connected
    ensures Hardware(device, filters).Reads?
        <==> IsConnected(device) && exists i :: 0 <= i < |filters| && filters[i].name == Some("Motherboard")
    ensures Hardware(device, filters).Reads? ==>
              Hardware(device, filters).request == Read(Motherboard.Descriptor, "device", "hardware", 250)
  {
  }

  /** Which board is asked about only decides whether to read, never what
      is read: two connected boards with Motherboard filters issue the same
      read. */
  lemma ReadIgnoresBoard(d1: Option<BluetoothDevice>, f1: seq<Filter>, d2: Option<BluetoothDevice>, f2: seq<Filter>)
    requires Hardware(d1, f1).Reads? && Hardware(d2, f2).Reads?
    ensures Hardware(d1, f1) == Hardware(d2, f2)
  {
  }
}
