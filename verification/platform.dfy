/**
 * What the activity exchanges with the Android platform: remote devices, and the
 * calls it makes into the Bluetooth, permission and settings APIs. Those calls are
 * not executed here; each transition reports them, in order, as `Effect`s.
 */
module Platform {
  import opened Wrappers

  /** A remote Bluetooth device (`BluetoothDevice`); two devices are equal when their addresses are. */
  datatype Device = Device(address: string, name: Option<string>)

  /** The name shown for a device: its name, or "Unknown" when it has none. */
  function DisplayName(d: Device): string {
    d.name.GetOr("Unknown")
  }

  /** A call into the platform, issued by a transition. */
  datatype Effect =
    | RequestPermissions          // permissionLauncher.launch
    | OpenLocationSettings        // startActivity(ACTION_LOCATION_SOURCE_SETTINGS)
    | CancelDiscovery             // bluetoothAdapter.cancelDiscovery()
    | BeginDiscovery              // bluetoothAdapter.startDiscovery()
    | ConnectGatt(device: Device) // device.connectGatt(...)
    | DisconnectGatt              // bluetoothGatt.disconnect()
    | CloseGatt                   // bluetoothGatt.close()
    | DiscoverServices            // gatt.discoverServices()
    | EnableNotifications         // gatt.setCharacteristicNotification(characteristic, true)
    | WriteCccd                   // gatt.writeDescriptor(cccd, ENABLE_NOTIFICATION_VALUE)

  /** The result of handling one event: the next state and the platform calls made on the way. */
  datatype Reaction<S> = Reaction(next: S, effects: seq<Effect>)
}
