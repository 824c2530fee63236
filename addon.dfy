/** The N-API facade: one process-wide `HardwareIdentifier` behind a
    `std::unique_ptr`, either null or an instance.

    `initialize()` creates the instance when there is none and forwards to
    its `Initialize`; `cleanup()` tears the instance down and drops it. Every
    accessor raises a `TypeError` exactly when there is no instance (never
    initialized, or cleaned up); it does not look at whether the session
    came up, so after a failed `initialize()` the accessors answer with the
    empty values of an uninitialized instance. */
module Addon {
  import opened Wrappers
  import opened Ledger
  import opened Fingerprint
  import opened Identifier

  const NotInitializedMessage := "Hardware identifier not initialized. Call initialize() first."

  /** The JavaScript exception an accessor raises. */
  datatype JsError = TypeError(message: string)

  const NotInitialized := TypeError(NotInitializedMessage)

  /** What a call into the addon hands back to JavaScript: a value, or a
      thrown exception (the C++ side then returns `null`). */
  datatype JsResult<T> = Returned(value: T) | Threw(error: JsError)

  /** The object `getAllHardwareInfo()` returns; the two lists are
      JavaScript arrays. */
  datatype HardwareInfo = HardwareInfo(
    cpuId: string,
    motherboardSerial: string,
    biosSerial: string,
    diskSerials: array<string>,
    macAddresses: array<string>,
    fingerprint: string)

  /** `Napi::Array::New(env, v.size())` filled by index from the vector:
      same length, same elements, same order. */
  method ToJsArray(values: seq<string>) returns (a: array<string>)
    ensures a.Length == |values| && a[..] == values
  {
    a := new string[|values|];
    for i := 0 to |values|
      invariant a[..i] == values[..i]
    {
      a[i] := values[i];
    }
  }

  class HardwareIdAddon {
    /** `g_hardwareIdentifier`. */
    var instance: HardwareIdentifier?

    ghost predicate Valid()
      reads this, instance
    {
      instance != null ==> instance.Valid()
    }

    /** Module load: the pointer starts out null. */
    constructor ()
      ensures Valid() && instance == null
    {
      instance := null;
    }

    /** `initialize()`: creates the instance only when there is none, reuses
        an existing one, and returns exactly what its `Initialize` returns. */
    method Initialize(setup: SessionSetup) returns (ok: bool)
      requires Valid()
      modifies this, instance
      ensures Valid() && instance != null
      ensures old(instance) != null ==> instance == old(instance)
      ensures old(instance) == null ==> fresh(instance)
      ensures ok == instance.isInitialized
      ensures old(instance) != null && old(instance.isInitialized) ==> ok
      ensures old(instance) == null || !old(instance.isInitialized) ==> (ok <==> SetupSucceeds(setup))
      ensures old(instance) != null && old(instance.isInitialized) ==> unchanged(instance)
      ensures ok && (old(instance) == null || !old(instance.isInitialized)) ==>
                instance.wbemLocator == setup.locator && instance.wbemServices == setup.services
    {
      if instance == null {
        instance := new HardwareIdentifier();
      }
      ok := instance.Initialize(setup);
    }

    /** `cleanup()`: with an instance, runs its `Cleanup`, then `reset()`
        destroys it, and the destructor runs `Cleanup` once more (a no-op by
        then); the pointer ends up null. With no instance it does nothing. */
    method Cleanup()
      requires Valid()
      modifies this, instance
      ensures Valid() && instance == null
      ensures old(instance) != null ==>
                var gone := old(instance);
                !gone.isInitialized && gone.wbemLocator == None && gone.wbemServices == None
                && gone.ledger == []
      ensures old(instance) != null && old(instance.isInitialized) ==>
                old(instance).trace == old(instance.trace)
                  + [Release(Services(old(instance.wbemServices).value)),
                     Release(Locator(old(instance.wbemLocator).value)),
                     Release(ComRuntime)]
    {
      if instance != null {
        instance.Cleanup();
        instance.Cleanup();
        instance := null;
      }
    }

    /** `getCpuId()`. */
    method GetCpuId(host: Host) returns (r: JsResult<string>)
      requires Valid()
      modifies instance
      ensures Valid()
      ensures instance == null ==> r == Threw(NotInitialized)
      ensures instance != null ==>
                && instance.wbemLocator == old(instance.wbemLocator)
                && instance.wbemServices == old(instance.wbemServices)
                && instance.ledger == old(instance.ledger)
      ensures instance != null ==>
                && instance.isInitialized == old(instance.isInitialized)
                && r == Returned(First(instance.isInitialized, host.wmi, ProcessorId))
                && instance.trace == old(instance.trace) + Queries(instance.isInitialized, [ProcessorId])
    {
      if instance == null {
        return Threw(NotInitialized);
      }
      var cpuId := instance.GetCpuId(host);
      return Returned(cpuId);
    }

    /** `getMotherboardSerial()`. */
    method GetMotherboardSerial(host: Host) returns (r: JsResult<string>)
      requires Valid()
      modifies instance
      ensures Valid()
      ensures instance == null ==> r == Threw(NotInitialized)
      ensures instance != null ==>
                && instance.wbemLocator == old(instance.wbemLocator)
                && instance.wbemServices == old(instance.wbemServices)
                && instance.ledger == old(instance.ledger)
      ensures instance != null ==>
                && instance.isInitialized == old(instance.isInitialized)
                && r == Returned(First(instance.isInitialized, host.wmi, BaseBoardSerial))
                && instance.trace == old(instance.trace) + Queries(instance.isInitialized, [BaseBoardSerial])
    {
      if instance == null {
        return Threw(NotInitialized);
      }
      var serial := instance.GetMotherboardSerial(host);
      return Returned(serial);
    }

    /** `getBiosSerial()`. */
    method GetBiosSerial(host: Host) returns (r: JsResult<string>)
      requires Valid()
      modifies instance
      ensures Valid()
      ensures instance == null ==> r == Threw(NotInitialized)
      ensures instance != null ==>
                && instance.wbemLocator == old(instance.wbemLocator)
                && instance.wbemServices == old(instance.wbemServices)
                && instance.ledger == old(instance.ledger)
      ensures instance != null ==>
                && instance.isInitialized == old(instance.isInitialized)
                && r == Returned(First(instance.isInitialized, host.wmi, BiosSerial))
                && instance.trace == old(instance.trace) + Queries(instance.isInitialized, [BiosSerial])
    {
      if instance == null {
        return Threw(NotInitialized);
      }
      var serial := instance.GetBiosSerial(host);
      return Returned(serial);
    }

    /** `getDiskSerials()`: the vector copied into a JavaScript array. */
    method GetDiskSerials(host: Host) returns (r: JsResult<array<string>>)
      requires Valid()
      modifies instance
      ensures Valid()
      ensures instance == null ==> r == Threw(NotInitialized)
      ensures instance != null ==>
                && instance.wbemLocator == old(instance.wbemLocator)
                && instance.wbemServices == old(instance.wbemServices)
                && instance.ledger == old(instance.ledger)
      ensures instance != null ==>
                && instance.isInitialized == old(instance.isInitialized)
                && r.Returned?
                && r.value[..] == All(instance.isInitialized, host.wmi, PhysicalMediaSerial)
                && instance.trace == old(instance.trace) + Queries(instance.isInitialized, [PhysicalMediaSerial])
    {
      if instance == null {
        return Threw(NotInitialized);
      }
      var serials := instance.GetDiskSerials(host);
      var result := ToJsArray(serials);
      return Returned(result);
    }

    /** `getMacAddresses()`: the vector copied into a JavaScript array. */
    method GetMacAddresses(host: Host) returns (r: JsResult<array<string>>)
      requires Valid()
      modifies instance
      ensures Valid()
      ensures instance == null ==> r == Threw(NotInitialized)
      ensures instance != null ==>
                && instance.wbemLocator == old(instance.wbemLocator)
                && instance.wbemServices == old(instance.wbemServices)
                && instance.ledger == old(instance.ledger)
      ensures instance != null ==>
                && instance.isInitialized == old(instance.isInitialized)
                && r.Returned?
                && r.value[..] == All(instance.isInitialized, host.wmi, AdapterMac)
                && instance.trace == old(instance.trace) + Queries(instance.isInitialized, [AdapterMac])
    {
      if instance == null {
        return Threw(NotInitialized);
      }
      var addresses := instance.GetMacAddresses(host);
      var result := ToJsArray(addresses);
      return Returned(result);
    }

    /** `getHardwareFingerprint()`. */
    method GetHardwareFingerprint(host: Host) returns (r: JsResult<string>)
      requires Valid()
      modifies instance
      ensures Valid()
      ensures instance == null ==> r == Threw(NotInitialized)
      ensures instance != null ==>
                && instance.wbemLocator == old(instance.wbemLocator)
                && instance.wbemServices == old(instance.wbemServices)
                && instance.ledger == old(instance.ledger)
      ensures instance != null ==>
                && instance.isInitialized == old(instance.isInitialized)
                && r == Returned(HardwareFingerprint(instance.isInitialized, host))
                && instance.trace == old(instance.trace) + Queries(instance.isInitialized, FingerprintAttributes)
    {
      if instance == null {
        return Threw(NotInitialized);
      }
      var fingerprint := instance.GetHardwareFingerprint(host);
      return Returned(fingerprint);
    }

    /** `getAllHardwareInfo()`: the six getters in the order cpu, motherboard,
        BIOS, disks, MACs, fingerprint. The fingerprint queries the five
        attributes a second time; `again` is the machine as that second round
        sees it. Only when it answers as the first round did is the
        fingerprint the hash of the fields returned beside it. */
    method GetAllHardwareInfo(host: Host, again: Host) returns (r: JsResult<HardwareInfo>)
      requires Valid()
      modifies instance
      ensures Valid()
      ensures instance == null ==> r == Threw(NotInitialized)
      ensures instance != null ==>
                && instance.wbemLocator == old(instance.wbemLocator)
                && instance.wbemServices == old(instance.wbemServices)
                && instance.ledger == old(instance.ledger)
      ensures instance != null ==>
                var initialized := instance.isInitialized;
                && initialized == old(instance.isInitialized)
                && r.Returned?
                && r.value.cpuId == First(initialized, host.wmi, ProcessorId)
                && r.value.motherboardSerial == First(initialized, host.wmi, BaseBoardSerial)
                && r.value.biosSerial == First(initialized, host.wmi, BiosSerial)
                && r.value.diskSerials[..] == All(initialized, host.wmi, PhysicalMediaSerial)
                && r.value.macAddresses[..] == All(initialized, host.wmi, AdapterMac)
                && r.value.fingerprint == HardwareFingerprint(initialized, again)
                && instance.trace == old(instance.trace) + Queries(initialized, FingerprintAttributes)
                                                         + Queries(initialized, FingerprintAttributes)
      ensures r.Returned? && again == host ==>
                r.value.fingerprint
                == GenerateHash(host.hash, FingerprintInput(r.value.cpuId, r.value.motherboardSerial,
                                                            r.value.biosSerial,
                                                            FirstOf(r.value.diskSerials[..]),
                                                            FirstOf(r.value.macAddresses[..])))
    {
      if instance == null {
        return Threw(NotInitialized);
      }
      ghost var t0 := instance.trace;
      var cpuId := instance.GetCpuId(host);
      ghost var t1 := instance.trace;
      var motherboardSerial := instance.GetMotherboardSerial(host);
      ghost var t2 := instance.trace;
      var biosSerial := instance.GetBiosSerial(host);
      ghost var t3 := instance.trace;
      var diskSerials := instance.GetDiskSerials(host);
      ghost var t4 := instance.trace;
      var macAddresses := instance.GetMacAddresses(host);
      FingerprintTrace(instance.isInitialized, t0, t1, t2, t3, t4, instance.trace);
      var fingerprint := instance.GetHardwareFingerprint(again);

      var diskArray := ToJsArray(diskSerials);
      var macArray := ToJsArray(macAddresses);
      return Returned(HardwareInfo(cpuId, motherboardSerial, biosSerial, diskArray, macArray, fingerprint));
    }
  }

  /** Before any `initialize()`, every accessor raises "not initialized". */
  method NeverInitializedThrows(host: Host)
    returns (cpu: JsResult<string>, motherboard: JsResult<string>, bios: JsResult<string>,
             disks: JsResult<array<string>>, macs: JsResult<array<string>>,
             fingerprint: JsResult<string>, all: JsResult<HardwareInfo>)
    ensures cpu == Threw(NotInitialized) && motherboard == Threw(NotInitialized)
    ensures bios == Threw(NotInitialized)
    ensures disks == Threw(NotInitialized) && macs == Threw(NotInitialized)
    ensures fingerprint == Threw(NotInitialized) && all == Threw(NotInitialized)
  {
    var addon := new HardwareIdAddon();
    cpu := addon.GetCpuId(host);
    motherboard := addon.GetMotherboardSerial(host);
    bios := addon.GetBiosSerial(host);
    disks := addon.GetDiskSerials(host);
    macs := addon.GetMacAddresses(host);
    fingerprint := addon.GetHardwareFingerprint(host);
    all := addon.GetAllHardwareInfo(host, host);
  }

  /** A failed `initialize()` reports false but leaves an instance behind,
      so the accessors answer with empty values instead of raising, and the
      fingerprint is the hash of "||". */
  method FailedInitializeStillAnswers(setup: SessionSetup, host: Host)
    returns (ok: bool, cpu: JsResult<string>, motherboard: JsResult<string>, bios: JsResult<string>,
             disks: JsResult<array<string>>, macs: JsResult<array<string>>,
             fingerprint: JsResult<string>, all: JsResult<HardwareInfo>)
    requires !SetupSucceeds(setup)
    ensures !ok
    ensures cpu == Returned("") && motherboard == Returned("") && bios == Returned("")
    ensures disks.Returned? && disks.value.Length == 0
    ensures macs.Returned? && macs.value.Length == 0
    ensures fingerprint == Returned(GenerateHash(host.hash, "||"))
    ensures all.Returned?
    ensures all.value.cpuId == "" && all.value.motherboardSerial == "" && all.value.biosSerial == ""
    ensures all.value.diskSerials.Length == 0 && all.value.macAddresses.Length == 0
    ensures all.value.fingerprint == GenerateHash(host.hash, "||")
  {
    var addon := new HardwareIdAddon();
    ok := addon.Initialize(setup);
    cpu := addon.GetCpuId(host);
    motherboard := addon.GetMotherboardSerial(host);
    bios := addon.GetBiosSerial(host);
    disks := addon.GetDiskSerials(host);
    macs := addon.GetMacAddresses(host);
    fingerprint := addon.GetHardwareFingerprint(host);
    all := addon.GetAllHardwareInfo(host, host);
    FingerprintUninitialized(host);
  }

  /** `cleanup()` may be repeated; afterwards every accessor raises again. */
  method CleanupThenThrows(setup: SessionSetup, host: Host)
    returns (ok: bool, cpu: JsResult<string>, motherboard: JsResult<string>, bios: JsResult<string>,
             disks: JsResult<array<string>>, macs: JsResult<array<string>>,
             fingerprint: JsResult<string>, all: JsResult<HardwareInfo>)
    ensures ok <==> SetupSucceeds(setup)
    ensures cpu == Threw(NotInitialized) && motherboard == Threw(NotInitialized)
    ensures bios == Threw(NotInitialized)
    ensures disks == Threw(NotInitialized) && macs == Threw(NotInitialized)
    ensures fingerprint == Threw(NotInitialized) && all == Threw(NotInitialized)
  {
    var addon := new HardwareIdAddon();
    ok := addon.Initialize(setup);
    addon.Cleanup();
    addon.Cleanup();
    cpu := addon.GetCpuId(host);
    motherboard := addon.GetMotherboardSerial(host);
    bios := addon.GetBiosSerial(host);
    disks := addon.GetDiskSerials(host);
    macs := addon.GetMacAddresses(host);
    fingerprint := addon.GetHardwareFingerprint(host);
    all := addon.GetAllHardwareInfo(host, host);
  }

  /** A second `initialize()` keeps a session that came up: same handles,
      nothing acquired or released. One that did not come up is retried with
      the new step outcomes, and its handles are then the new ones. */
  method InitializeAgain(first: SessionSetup, second: SessionSetup)
    returns (ok1: bool, ok2: bool,
             locator1: Option<Handle>, services1: Option<Handle>,
             locator2: Option<Handle>, services2: Option<Handle>,
             ghost trace1: seq<Event>, ghost trace2: seq<Event>)
    ensures ok1 <==> SetupSucceeds(first)
    ensures ok2 <==> ok1 || SetupSucceeds(second)
    ensures ok1 ==> locator1 == first.locator && services1 == first.services
    ensures ok1 ==> locator2 == locator1 && services2 == services1 && trace2 == trace1
    ensures !ok1 ==> locator1 == None && services1 == None
    ensures !ok1 && ok2 ==> locator2 == second.locator && services2 == second.services
    ensures !ok2 ==> locator2 == None && services2 == None
  {
    var addon := new HardwareIdAddon();
    ok1 := addon.Initialize(first);
    locator1 := addon.instance.wbemLocator;
    services1 := addon.instance.wbemServices;
    trace1 := addon.instance.trace;
    ok2 := addon.Initialize(second);
    locator2 := addon.instance.wbemLocator;
    services2 := addon.instance.wbemServices;
    trace2 := addon.instance.trace;
  }

  /** After `cleanup()` a new `initialize()` starts over on a new instance. */
  method ReinitializeAfterCleanup(first: SessionSetup, second: SessionSetup)
    returns (ok1: bool, ok2: bool)
    ensures ok1 <==> SetupSucceeds(first)
    ensures ok2 <==> SetupSucceeds(second)
  {
    var addon := new HardwareIdAddon();
    ok1 := addon.Initialize(first);
    addon.Cleanup();
    ok2 := addon.Initialize(second);
  }

  /** With the machine unchanged between the calls, `getAllHardwareInfo()`
      agrees field by field with the individual accessors. */
  method AllInfoAgreesWithAccessors(setup: SessionSetup, host: Host)
    returns (all: JsResult<HardwareInfo>, cpu: JsResult<string>, motherboard: JsResult<string>,
             bios: JsResult<string>, disks: JsResult<array<string>>, macs: JsResult<array<string>>,
             fingerprint: JsResult<string>)
    ensures all.Returned? && cpu.Returned? && motherboard.Returned? && bios.Returned?
    ensures disks.Returned? && macs.Returned? && fingerprint.Returned?
    ensures all.value.cpuId == cpu.value
    ensures all.value.motherboardSerial == motherboard.value
    ensures all.value.biosSerial == bios.value
    ensures all.value.diskSerials[..] == disks.value[..]
    ensures all.value.macAddresses[..] == macs.value[..]
    ensures all.value.fingerprint == fingerprint.value
  {
    var addon := new HardwareIdAddon();
    var _ := addon.Initialize(setup);
    all := addon.GetAllHardwareInfo(host, host);
    cpu := addon.GetCpuId(host);
    motherboard := addon.GetMotherboardSerial(host);
    bios := addon.GetBiosSerial(host);
    disks := addon.GetDiskSerials(host);
    macs := addon.GetMacAddresses(host);
    fingerprint := addon.GetHardwareFingerprint(host);
  }
}
