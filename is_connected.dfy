/** isConnected: whether a board holds a device whose GATT server reports
    itself connected. */
module Connection {
  import opened Types

  /** isConnected(board), on the board's `device` field: false without a
      device, otherwise the server's `connected` flag, false without a
      server. */
  function IsConnected(device: Option<BluetoothDevice>): (r: bool)
    ensures device.None? ==> !r
    ensures device.Some? && device.value.gatt.None? ==> !r
    ensures device.Some? && device.value.gatt.Some? ==> (r <==> device.value.gatt.value.connected)
  {
    device.Some? && device.value.gatt.Some? && device.value.gatt.value.connected
  }
}
