/** The cache of GBM devices keyed by DRM device number
    (src/wayland/gbm_devices.rs). Scanning /dev/dri is the finder, an input
    here: for a device number it reports an I/O error, nothing, or the
    device it opened. */
module GbmDevices {
  import opened Wrappers

  /** An opened device: the node's path and the GBM handle's identity. */
  datatype Device = Device(path: string, handle: nat)

  class GbmDevices {
    var devices: map<nat, Device>

    constructor()
      ensures devices == map[]
    {
      devices := map[];
    }

    /** `gbm_device`: answer from the cache, else ask the finder and keep
        what it found. `askedFinder` records whether the finder ran. */
    method GbmDevice(dev: nat, find: nat -> Result<Option<Device>, string>)
      returns (r: Result<Option<Device>, string>, askedFinder: bool)
      modifies this
      ensures askedFinder <==> dev !in old(devices)
      ensures dev in old(devices) ==> r == Ok(Some(old(devices)[dev])) && devices == old(devices)
      ensures dev !in old(devices) ==> r == find(dev)
      ensures dev !in old(devices) && find(dev).Ok? && find(dev).value.Some? ==>
        devices == old(devices)[dev := find(dev).value.value]
      ensures dev !in old(devices) && !(find(dev).Ok? && find(dev).value.Some?) ==> devices == old(devices)
      ensures forall k | k in old(devices) :: k in devices && devices[k] == old(devices)[k]
    {
      if dev in devices {
        return Ok(Some(devices[dev])), false;
      }
      askedFinder := true;
      var found := find(dev);
      if found.Err? {
        return Err(found.error), true;
      }
      if found.value.Some? {
        devices := devices[dev := found.value.value];
        r := Ok(Some(found.value.value));
      } else {
        r := Ok(None);
      }
    }
  }
}
