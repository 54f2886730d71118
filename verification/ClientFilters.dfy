/** The filter a client asks for, as the router keeps it and as the client keeps it
    (deephome/common/source/client/Command.cpp:135-148, deephome/router/Router.cpp:214-228,424-462,
    deephome/common/source/client/Dispatcher.cpp:200-203). */
module ClientFilters {
  import opened Bitwise
  import opened Text
  import opened Messages
  import opened DeviceCommands
  import opened RouterConfig
  import R = Router
  import D = Dispatcher

  ghost predicate Inserted(after: Arguments, before: Arguments, key: string, value: string) {
    Sorted(after) && forall other :: Get(after, other) == if other == key then Present(value) else Get(before, other)
  }

  lemma InsertInserts(before: Arguments, key: string, value: string)
    requires Sorted(before)
    ensures Inserted(Insert(before, key, value), before, key, value)
  {
    InsertForAll(before, key, value);
  }

  lemma MaskedArguments(named: Arguments, addressed: Arguments, masked: Arguments, address: string, mask: string)
    requires Inserted(addressed, named, "address", address) && Inserted(masked, addressed, "mask", mask)
    ensures Get(masked, "device") == Get(named, "device") && Get(masked, "options") == Get(named, "options")
    ensures Get(masked, "address") == Present(address) && Get(masked, "mask") == Present(mask)
  {
    assert "address"[0] != "mask"[0] && "address"[0] != "device"[0] && "address"[0] != "options"[0];
    assert "mask"[0] != "device"[0] && "mask"[0] != "options"[0];
  }

  lemma FilterArguments(f: ClientFilter, named: Arguments, masked: Arguments)
    requires named == if f.device == "" then [] else Insert([], "device", f.device)
    requires masked == Insert(Insert(named, "address", PrintNumber(f.address)), "mask", PrintNumber(f.mask))
    ensures var all := if f.oneTime then Insert(masked, "options", "one-time") else masked;
      && Get(all, "device") == (if f.device == "" then Absent else Present(f.device))
      && Get(all, "address") == Present(PrintNumber(f.address)) && Get(all, "mask") == Present(PrintNumber(f.mask))
      && Get(all, "options") == if f.oneTime then Present("one-time") else Absent
  {
    var addressed := Insert(named, "address", PrintNumber(f.address));
    InsertInserts([], "device", f.device);
    InsertInserts(named, "address", PrintNumber(f.address));
    InsertInserts(addressed, "mask", PrintNumber(f.mask));
    InsertInserts(masked, "options", "one-time");
    MaskedArguments(named, addressed, masked, PrintNumber(f.address), PrintNumber(f.mask));
  }

  /** What the filter command says. */
  lemma FilterReadsBack(f: ClientFilter)
    requires FilterToService(f).Ok?
    ensures var s := FilterToService(f).value;
      && s.action == "filter" && GetText(s, "device", "") == f.device
      && GetNumber(s, "address", UNSIGNED - 1) == f.address && GetNumber(s, "mask", UNSIGNED - 1) == f.mask
      && GetText(s, "options", "") == if f.oneTime then "one-time" else ""
  {
    var named := if f.device == "" then [] else Insert([], "device", f.device);
    var masked := Insert(Insert(named, "address", PrintNumber(f.address)), "mask", PrintNumber(f.mask));
    FilterArguments(f, named, masked);
    PrintedNumber(f.address);
    PrintedNumber(f.mask);
  }

  /** The device a client filter names, if it names one. */
  function DeviceOf(config: Config, f: ClientFilter): Found<Device> {
    if f.device == "" then Nothing else FindByName(config.devices, f.device)
  }

  /** The router makes the filter the client means, or none if the device is unknown. */
  lemma FilterUnderstood(config: Config, f: ClientFilter, connection: nat)
    requires FilterToService(f).Ok?
    ensures R.MakeFilter(config, FilterToService(f).value, connection) ==
      if f.device != "" && DeviceOf(config, f).Nothing? then Nothing
      else Just(R.Filter(connection, DeviceOf(config, f), And(f.address, f.mask), f.mask, f.oneTime, false))
  {
    FilterReadsBack(f);
    FindAtStart("one-time", "one-time");
  }

  /** A message the router passes for the filter is one that the client's own test accepts, and the other
      way round. */
  lemma FiltersAgree(setup: R.Setup, f: ClientFilter, connection: nat, network: string, message: Message)
    requires Valid(setup.config) && setup.maskTest == R.Intended && DistinctIds(setup.config.devices)
    requires FilterToService(f).Ok? && R.MakeFilter(setup.config, FilterToService(f).value, connection).Just?
    requires FindById(setup.config.devices, network, message.deviceId).Just?
    ensures var device := FindById(setup.config.devices, network, message.deviceId).value;
      R.Passes(setup, message, network, R.MakeFilter(setup.config, FilterToService(f).value, connection).value) <==>
      D.Accepts(f, DeviceCommand(device.name, Send, message.address, message.body))
  {
    var device := FindById(setup.config.devices, network, message.deviceId).value;
    FilterUnderstood(setup.config, f, connection);
    FindByNameInverse(setup.config.devices, device);
    if f.device != "" { FindByIdInverse(setup.config.devices, DeviceOf(setup.config, f).value); }
  }
}
