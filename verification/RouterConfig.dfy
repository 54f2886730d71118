/** The router's configuration as the parsed maps give it (deephome/router/Config.cpp). */
module RouterConfig {
  import opened Messages

  datatype Device = Device(name: string, network: string, id: Byte)

  datatype Found<T> = Nothing | Just(value: T)

  /** The names of the networks and the devices, each in the order of the map that holds them. */
  datatype Config = Config(networks: seq<string>, devices: seq<Device>)

  /** One device section as the configuration file has it; `id` is Nothing when it is not a number. */
  datatype DeviceSection = DeviceSection(key: string, network: string, id: Found<nat>)

  /** Config::find_device(name) */
  function FindByName(devices: seq<Device>, name: string): (d: Found<Device>)
    ensures d.Just? ==> d.value in devices && d.value.name == name
    ensures d.Nothing? ==> forall e | e in devices :: e.name != name
    decreases devices
  {
    if devices == [] then Nothing
    else if devices[0].name == name then Just(devices[0])
    else FindByName(devices[1..], name)
  }

  /** Config::find_device(network_name, id) */
  function FindById(devices: seq<Device>, network: string, id: Byte): (d: Found<Device>)
    ensures d.Just? ==> d.value in devices && d.value.network == network && d.value.id == id
    ensures d.Nothing? ==> forall e | e in devices :: !(e.network == network && e.id == id)
    decreases devices
  {
    if devices == [] then Nothing
    else if devices[0].network == network && devices[0].id == id then Just(devices[0])
    else FindById(devices[1..], network, id)
  }

  predicate DistinctNames(devices: seq<Device>) {
    forall i, j :: 0 <= i < j < |devices| ==> devices[i].name != devices[j].name
  }

  /** No two devices share a network and an id. The parser does not check it. */
  predicate DistinctIds(devices: seq<Device>) {
    forall i, j :: 0 <= i < j < |devices| ==> (devices[i].network, devices[i].id) != (devices[j].network, devices[j].id)
  }

  predicate DistinctNetworks(networks: seq<string>) {
    forall i, j :: 0 <= i < j < |networks| ==> networks[i] != networks[j]
  }

  predicate DeviceLinked(networks: seq<string>, d: Device) {
    d.network in networks && d.id <= 127
  }

  /** What parse_config guarantees. Device names are also printed as command arguments, which have to
      be legal strings. */
  predicate Valid(config: Config) {
    && DistinctNetworks(config.networks)
    && DistinctNames(config.devices)
    && config.networks != [] && config.devices != []
    && forall d | d in config.devices ::
         DeviceLinked(config.networks, d) && Legal(d.name) && d.name != "" && Legal(d.network)
  }

  /** parse_devices: throws on a bad id or an unknown network; otherwise every device is linked to a
      network of the list, so the router always finds the network of a device. */
  method ParseDevices(networks: seq<string>, sections: seq<DeviceSection>) returns (r: Result<seq<Device>>)
    requires forall i, j :: 0 <= i < j < |sections| ==> sections[i].key != sections[j].key
    ensures r.Ok? <==> sections != [] && forall s | s in sections ::
              s.id.Just? && s.id.value <= 127 && s.network in networks
    ensures r.Ok? ==>
      && |r.value| == |sections|
      && DistinctNames(r.value)
      && forall i | 0 <= i < |sections| ::
           r.value[i] == Device(sections[i].key, sections[i].network, r.value[i].id) &&
           sections[i].id == Just(r.value[i].id as nat) && DeviceLinked(networks, r.value[i])
  {
    if sections == [] {
      return Err;
    }
    var devices: seq<Device> := [];
    for k := 0 to |sections|
      invariant |devices| == k
      invariant forall i | 0 <= i < k ::
        && sections[i].id.Just? && sections[i].id.value <= 127
        && devices[i] == Device(sections[i].key, sections[i].network, sections[i].id.value)
        && sections[i].network in networks
    {
      var s := sections[k];
      if s.id.Nothing? || s.id.value > 127 || s.network !in networks {
        assert s in sections;
        return Err;
      }
      devices := devices + [Device(s.key, s.network, s.id.value)];
    }
    return Ok(devices);
  }

  lemma {:induction false} FindByNameInverse(devices: seq<Device>, d: Device)
    requires DistinctNames(devices) && d in devices
    ensures FindByName(devices, d.name) == Just(d)
    decreases devices
  {
    if devices[0] != d {
      assert d in devices[1..];
      FindByNameInverse(devices[1..], d);
    }
  }

  /** A device is identified by its network and id exactly when these are distinct. */
  lemma {:induction false} FindByIdInverse(devices: seq<Device>, d: Device)
    requires DistinctIds(devices) && d in devices
    ensures FindById(devices, d.network, d.id) == Just(d)
    decreases devices
  {
    if devices[0] != d {
      assert d in devices[1..];
      FindByIdInverse(devices[1..], d);
    }
  }

  lemma {:induction false} SharedIdHidesDevice(devices: seq<Device>)
    requires DistinctNames(devices) && !DistinctIds(devices)
    ensures exists d | d in devices :: FindById(devices, d.network, d.id) != Just(d)
  {
    var i, j :| 0 <= i < j < |devices| && (devices[i].network, devices[i].id) == (devices[j].network, devices[j].id);
    assert devices[i] in devices && devices[j] in devices;
    if FindById(devices, devices[i].network, devices[i].id) == Just(devices[i]) {
      assert FindById(devices, devices[j].network, devices[j].id) != Just(devices[j]);
    }
  }
}
