/** `HardwareIdentifier`: the WMI session manager and the query engine.

    The object owns three fields: the initialized flag and the two interface
    pointers (`IWbemLocator`, `IWbemServices`), all cleared at construction.
    `Initialize` runs the five setup steps, each of whose outcome comes from
    a `SessionSetup`; the queries are answered by the `Host`. Two ghost
    fields carry the resource ledger of module Ledger: `trace`, every event
    this object caused, and `ledger`, the resources live right now. */
module Identifier {
  import opened Wrappers
  import opened Ledger
  import opened Wmi
  import opened Hex
  import opened Fingerprint

  /** The outcome of each COM/WMI call `Initialize` makes, in call order:
      `CoInitializeEx`, `CoInitializeSecurity`, `CoCreateInstance` (the
      locator, or failure), `ConnectServer` on ROOT\\CIMV2 (the services
      proxy, or failure), `CoSetProxyBlanket`. */
  datatype SessionSetup = SessionSetup(
    comInitialized: bool,
    securitySet: bool,
    locator: Option<Handle>,
    services: Option<Handle>,
    blanketSet: bool)

  predicate SetupSucceeds(setup: SessionSetup) {
    setup.comInitialized && setup.securitySet && setup.locator.Some?
    && setup.services.Some? && setup.blanketSet
  }

  /** What the model cannot see: the WMI service's answers and
      `std::hash<std::string>`. */
  datatype Host = Host(wmi: Service, hash: string -> Word64)

  /** One hardware fact: a WMI class and one of its properties. */
  datatype AttributeSpec = AttributeSpec(wmiClass: string, property: string)

  const ProcessorId := AttributeSpec("Win32_Processor", "ProcessorId")
  const BaseBoardSerial := AttributeSpec("Win32_BaseBoard", "SerialNumber")
  const BiosSerial := AttributeSpec("Win32_BIOS", "SerialNumber")
  const PhysicalMediaSerial := AttributeSpec("Win32_PhysicalMedia", "SerialNumber")
  const AdapterMac := AttributeSpec("Win32_NetworkAdapter", "MACAddress")

  /** The queries `GetHardwareFingerprint` sends, in order. */
  const FingerprintAttributes := [ProcessorId, BaseBoardSerial, BiosSerial, PhysicalMediaSerial, AdapterMac]

  /** A scalar getter's value: the first enumerated object (index 0). */
  function First(initialized: bool, wmi: Service, a: AttributeSpec): string {
    SingleResult(initialized, wmi, a.wmiClass, a.property, 0)
  }

  /** A list getter's value. */
  function All(initialized: bool, wmi: Service, a: AttributeSpec): seq<string> {
    AllResults(initialized, wmi, a.wmiClass, a.property)
  }

  /** The value of `GetHardwareFingerprint`. */
  function HardwareFingerprint(initialized: bool, host: Host): string {
    GenerateHash(host.hash,
      FingerprintInput(First(initialized, host.wmi, ProcessorId),
                       First(initialized, host.wmi, BaseBoardSerial),
                       First(initialized, host.wmi, BiosSerial),
                       FirstOf(All(initialized, host.wmi, PhysicalMediaSerial)),
                       FirstOf(All(initialized, host.wmi, AdapterMac))))
  }

  /** The query events a sequence of getters leaves in the trace: one WQL
      query each when initialized, none at all otherwise. */
  function Queries(initialized: bool, attrs: seq<AttributeSpec>): (events: seq<Event>)
    ensures |events| == if initialized then |attrs| else 0
    ensures forall i :: 0 <= i < |events| ==>
              events[i] == Query(Wql(attrs[i].wmiClass, attrs[i].property))
    decreases |attrs|
  {
    if !initialized || attrs == [] then []
    else [Query(Wql(attrs[0].wmiClass, attrs[0].property))] + Queries(initialized, attrs[1..])
  }

  lemma QueriesAppend(initialized: bool, a: seq<AttributeSpec>, b: seq<AttributeSpec>)
    ensures Queries(initialized, a + b) == Queries(initialized, a) + Queries(initialized, b)
  {
  }

  /** The stream `GetHardwareFingerprint` writes, step by step, is the
      fingerprint input. */
  lemma StreamIsInput(cpu: string, motherboard: string, bios: string,
                      disks: seq<string>, macs: seq<string>,
                      fields: string, withDisk: string, stream: string)
    requires fields == "" + cpu + "|" + motherboard + "|" + bios
    requires withDisk == if |disks| > 0 then fields + "|" + disks[0] else fields
    requires stream == if |macs| > 0 then withDisk + "|" + macs[0] else withDisk
    ensures stream == FingerprintInput(cpu, motherboard, bios, FirstOf(disks), FirstOf(macs))
  {
    assert "|" == [Separator];
    assert "" + cpu == cpu;
    assert withDisk == fields + OptionalSegment(FirstOf(disks));
    assert stream == withDisk + OptionalSegment(FirstOf(macs));
  }

  /** Five getter calls in a row leave the queries of all five attributes
      on the trace. */
  lemma FingerprintTrace(initialized: bool, t0: seq<Event>, t1: seq<Event>, t2: seq<Event>,
                         t3: seq<Event>, t4: seq<Event>, t5: seq<Event>)
    requires t1 == t0 + Queries(initialized, [ProcessorId])
    requires t2 == t1 + Queries(initialized, [BaseBoardSerial])
    requires t3 == t2 + Queries(initialized, [BiosSerial])
    requires t4 == t3 + Queries(initialized, [PhysicalMediaSerial])
    requires t5 == t4 + Queries(initialized, [AdapterMac])
    ensures t5 == t0 + Queries(initialized, FingerprintAttributes)
  {
    FingerprintQueries(initialized);
    AppendChain(t0, t1, t2, t3, t4, t5,
                Queries(initialized, [ProcessorId]), Queries(initialized, [BaseBoardSerial]),
                Queries(initialized, [BiosSerial]), Queries(initialized, [PhysicalMediaSerial]),
                Queries(initialized, [AdapterMac]));
  }

  lemma AppendChain<T>(t0: seq<T>, t1: seq<T>, t2: seq<T>, t3: seq<T>, t4: seq<T>, t5: seq<T>,
                       q1: seq<T>, q2: seq<T>, q3: seq<T>, q4: seq<T>, q5: seq<T>)
    requires t1 == t0 + q1 && t2 == t1 + q2 && t3 == t2 + q3 && t4 == t3 + q4 && t5 == t4 + q5
    ensures t5 == t0 + (q1 + q2 + q3 + q4 + q5)
  {
  }

  lemma FingerprintQueries(initialized: bool)
    ensures Queries(initialized, FingerprintAttributes)
            == Queries(initialized, [ProcessorId]) + Queries(initialized, [BaseBoardSerial])
               + Queries(initialized, [BiosSerial]) + Queries(initialized, [PhysicalMediaSerial])
               + Queries(initialized, [AdapterMac])
  {
    assert FingerprintAttributes == [ProcessorId] + [BaseBoardSerial] + [BiosSerial]
                                    + [PhysicalMediaSerial] + [AdapterMac];
    QueriesAppend(initialized, [ProcessorId] + [BaseBoardSerial] + [BiosSerial] + [PhysicalMediaSerial], [AdapterMac]);
    QueriesAppend(initialized, [ProcessorId] + [BaseBoardSerial] + [BiosSerial], [PhysicalMediaSerial]);
    QueriesAppend(initialized, [ProcessorId] + [BaseBoardSerial], [BiosSerial]);
    QueriesAppend(initialized, [ProcessorId], [BaseBoardSerial]);
  }

  /** An instance that never initialized fingerprints the empty fields:
      the hash of "||". */
  lemma FingerprintUninitialized(host: Host)
    ensures HardwareFingerprint(false, host) == GenerateHash(host.hash, "||")
  {
    assert FingerprintInput("", "", "", None, None) == "||";
  }

  /** The fingerprint is canonical lowercase hex of 1 to 16 digits that
      reads back as the hash of its input. */
  lemma FingerprintShape(initialized: bool, host: Host)
    ensures Canonical(HardwareFingerprint(initialized, host))
    ensures 1 <= |HardwareFingerprint(initialized, host)| <= 16
  {
  }

  class HardwareIdentifier {
    var isInitialized: bool
    var wbemLocator: Option<Handle>
    var wbemServices: Option<Handle>

    ghost var trace: seq<Event>
    ghost var ledger: seq<Resource>

    /** The resources the fields own. */
    ghost function Held(): seq<Resource>
      reads this
    {
      if isInitialized && wbemLocator.Some? && wbemServices.Some?
      then Session(wbemLocator.value, wbemServices.value) else []
    }

    /** The three fields are set together or cleared together, the live
        resources are exactly those the fields own, and the trace so far
        obeys the ledger's rules. */
    ghost predicate Valid()
      reads this
    {
      && (wbemLocator.Some? <==> isInitialized)
      && (wbemServices.Some? <==> isInitialized)
      && ledger == Held()
      && Replay([], trace) == Some(ledger)
    }

    constructor ()
      ensures Valid()
      ensures !isInitialized && wbemLocator == None && wbemServices == None
      ensures trace == [] && ledger == []
    {
      isInitialized := false;
      wbemLocator := None;
      wbemServices := None;
      trace := [];
      ledger := [];
    }

    /** Logs one acquisition or release; the ledger's rules must allow it. */
    ghost method Record(e: Event)
      requires Replay([], trace) == Some(ledger)
      requires !e.Query? && Step(ledger, e).Some?
      modifies this`trace, this`ledger
      ensures trace == old(trace) + [e] && ledger == Step(old(ledger), e).value
      ensures Replay([], trace) == Some(ledger)
    {
      ReplaySnoc([], trace, e);
      trace := trace + [e];
      ledger := Step(ledger, e).value;
    }

    /** Logs one WQL query; a services proxy must be live. */
    ghost method RecordQuery(wql: string)
      requires Replay([], trace) == Some(ledger) && HoldsServices(ledger)
      modifies this`trace
      ensures trace == old(trace) + [Query(wql)]
      ensures Replay([], trace) == Some(ledger)
    {
      ReplaySnoc([], trace, Query(wql));
      trace := trace + [Query(wql)];
    }

    /** Opens the WMI session. A second call on an initialized instance
        returns true and changes nothing. Otherwise the result is true
        exactly when all five steps succeed; only then are the handles
        stored. Every failure path releases, newest first, what the attempt
        acquired. */
    method Initialize(setup: SessionSetup) returns (ok: bool)
      requires Valid()
      modifies this
      ensures Valid()
      ensures ok == isInitialized
      ensures old(isInitialized) ==> ok && unchanged(this)
      ensures !old(isInitialized) ==> (ok <==> SetupSucceeds(setup))
      ensures !old(isInitialized) && ok ==> wbemLocator == setup.locator && wbemServices == setup.services
      ensures !ok ==> wbemLocator == None && wbemServices == None && ledger == []
      ensures old(trace) <= trace
      ensures !old(isInitialized) && !setup.comInitialized ==> trace == old(trace)
    {
      if isInitialized {
        return true;
      }
      // CoInitializeEx
      if !setup.comInitialized {
        return false;
      }
      Record(Acquire(ComRuntime));

      // CoInitializeSecurity
      if !setup.securitySet {
        Record(Release(ComRuntime));
        return false;
      }

      // CoCreateInstance: the locator
      if setup.locator.None? {
        Record(Release(ComRuntime));
        return false;
      }
      var loc := setup.locator.value;
      Record(Acquire(Locator(loc)));

      // ConnectServer: the services proxy
      if setup.services.None? {
        Record(Release(Locator(loc)));
        Record(Release(ComRuntime));
        return false;
      }
      var svc := setup.services.value;
      Record(Acquire(Services(svc)));

      // CoSetProxyBlanket
      if !setup.blanketSet {
        Record(Release(Services(svc)));
        Record(Release(Locator(loc)));
        Record(Release(ComRuntime));
        return false;
      }

      wbemLocator := Some(loc);
      wbemServices := Some(svc);
      isInitialized := true;
      return true;
    }

    /** Tears the session down: services, then locator, then the COM
        runtime (the last only if initialized), clearing each field. On an
        instance that is not initialized it does nothing, so it is safe to
        repeat. */
    method Cleanup()
      requires Valid()
      modifies this
      ensures Valid()
      ensures !isInitialized && wbemLocator == None && wbemServices == None && ledger == []
      ensures old(isInitialized) ==>
                trace == old(trace) + [Release(Services(old(wbemServices).value)),
                                       Release(Locator(old(wbemLocator).value)),
                                       Release(ComRuntime)]
      ensures !old(isInitialized) ==> unchanged(this)
    {
      if wbemServices.Some? {
        Record(Release(Services(wbemServices.value)));
        wbemServices := None;
      }
      if wbemLocator.Some? {
        Record(Release(Locator(wbemLocator.value)));
        wbemLocator := None;
      }
      if isInitialized {
        Record(Release(ComRuntime));
        isInitialized := false;
      }
    }

    /** `ExecuteWmiQuery`: the text of `property` on the object at position
        `index` of the enumeration, or "" when the instance is not
        initialized, the query fails, there is no such object or it holds
        no text. Sends one query exactly when initialized. */
    method ExecuteWmiQuery(host: Host, wmiClass: string, property: string, index: int := 0)
      returns (r: string)
      requires Valid()
      modifies this`trace
      ensures Valid()
      ensures r == SingleResult(isInitialized, host.wmi, wmiClass, property, index)
      ensures trace == old(trace) + (if isInitialized then [Query(Wql(wmiClass, property))] else [])
    {
      if !isInitialized {
        return "";
      }
      var query := Wql(wmiClass, property);
      RecordQuery(query);
      var outcome := host.wmi(query);
      if outcome.QueryFailed? {
        return "";
      }
      var objects := outcome.objects;

      var cursor := 0;                        // the enumerator's position
      var current: Option<WbemObject> := None; // pclsObj
      var returned := 0;                      // uReturn
      var result := "";
      var i := 0;
      while i <= index
        invariant 0 <= i == cursor <= |objects|
        invariant i == 0 || i <= index + 1
        invariant i == 0 ==> current == None && returned == 0
        invariant i > 0 ==> current == Some(objects[i - 1]) && returned == 1
      {
        current := None;                      // release the previous object
        if cursor < |objects| {               // Next
          current := Some(objects[cursor]);
          cursor := cursor + 1;
          returned := 1;
        } else {
          returned := 0;
        }
        if returned == 0 {
          break;
        }
        i := i + 1;
      }

      if current.Some? && returned > 0 {
        var value := Get(current.value, property);
        if value.Some? && value.value.VtBstr? && value.value.bstrVal.Some? {
          result := WideStringToString(CString(value.value.bstrVal.value));
        }
      }
      r := result;
    }

    /** `ExecuteWmiQueryMultiple`: the non-empty texts of `property` over the
        whole enumeration, in order; empty when not initialized or when the
        query fails. Sends one query exactly when initialized. */
    method ExecuteWmiQueryMultiple(host: Host, wmiClass: string, property: string)
      returns (results: seq<string>)
      requires Valid()
      modifies this`trace
      ensures Valid()
      ensures results == AllResults(isInitialized, host.wmi, wmiClass, property)
      ensures trace == old(trace) + (if isInitialized then [Query(Wql(wmiClass, property))] else [])
    {
      results := [];
      if !isInitialized {
        return;
      }
      var query := Wql(wmiClass, property);
      RecordQuery(query);
      var outcome := host.wmi(query);
      if outcome.QueryFailed? {
        return;
      }
      var objects := outcome.objects;

      var cursor := 0;
      while true
        modifies {}
        invariant 0 <= cursor <= |objects|
        invariant results == NonEmptyTexts(objects[..cursor], property)
        decreases |objects| - cursor
      {
        if cursor == |objects| {              // Next returned no object
          break;
        }
        var obj := objects[cursor];
        cursor := cursor + 1;
        var value := Get(obj, property);
        NonEmptyTextsAppend(objects[..cursor - 1], [obj], property);
        assert objects[..cursor] == objects[..cursor - 1] + [obj];
        if value.Some? && value.value.VtBstr? && value.value.bstrVal.Some? {
          var text := WideStringToString(CString(value.value.bstrVal.value));
          if text != "" {
            results := results + [text];
          }
        }
      }
      assert objects[..cursor] == objects;
    }

    method GetCpuId(host: Host) returns (r: string)
      requires Valid()
      modifies this`trace
      ensures Valid()
      ensures r == First(isInitialized, host.wmi, ProcessorId)
      ensures !isInitialized ==> r == ""
      ensures trace == old(trace) + Queries(isInitialized, [ProcessorId])
    {
      r := ExecuteWmiQuery(host, ProcessorId.wmiClass, ProcessorId.property);
    }

    method GetMotherboardSerial(host: Host) returns (r: string)
      requires Valid()
      modifies this`trace
      ensures Valid()
      ensures r == First(isInitialized, host.wmi, BaseBoardSerial)
      ensures !isInitialized ==> r == ""
      ensures trace == old(trace) + Queries(isInitialized, [BaseBoardSerial])
    {
      r := ExecuteWmiQuery(host, BaseBoardSerial.wmiClass, BaseBoardSerial.property);
    }

    method GetBiosSerial(host: Host) returns (r: string)
      requires Valid()
      modifies this`trace
      ensures Valid()
      ensures r == First(isInitialized, host.wmi, BiosSerial)
      ensures !isInitialized ==> r == ""
      ensures trace == old(trace) + Queries(isInitialized, [BiosSerial])
    {
      r := ExecuteWmiQuery(host, BiosSerial.wmiClass, BiosSerial.property);
    }

    method GetDiskSerials(host: Host) returns (r: seq<string>)
      requires Valid()
      modifies this`trace
      ensures Valid()
      ensures r == All(isInitialized, host.wmi, PhysicalMediaSerial)
      ensures trace == old(trace) + Queries(isInitialized, [PhysicalMediaSerial])
    {
      r := ExecuteWmiQueryMultiple(host, PhysicalMediaSerial.wmiClass, PhysicalMediaSerial.property);
    }

    method GetMacAddresses(host: Host) returns (r: seq<string>)
      requires Valid()
      modifies this`trace
      ensures Valid()
      ensures r == All(isInitialized, host.wmi, AdapterMac)
      ensures trace == old(trace) + Queries(isInitialized, [AdapterMac])
    {
      r := ExecuteWmiQueryMultiple(host, AdapterMac.wmiClass, AdapterMac.property);
    }

    /** `GetHardwareFingerprint`: runs the five getters in order, joins their
        values with '|' (the disk and MAC segments only when present) and
        hashes the result. */
    method GetHardwareFingerprint(host: Host) returns (r: string)
      requires Valid()
      modifies this`trace
      ensures Valid()
      ensures r == HardwareFingerprint(isInitialized, host)
      ensures !isInitialized ==> r == GenerateHash(host.hash, "||")
      ensures trace == old(trace) + Queries(isInitialized, FingerprintAttributes)
    {
      ghost var t0 := trace;
      var fingerprint := "";
      var cpu := GetCpuId(host);
      ghost var t1 := trace;
      fingerprint := fingerprint + cpu;
      var motherboard := GetMotherboardSerial(host);
      ghost var t2 := trace;
      fingerprint := fingerprint + "|" + motherboard;
      var bios := GetBiosSerial(host);
      ghost var t3 := trace;
      fingerprint := fingerprint + "|" + bios;
      ghost var fields := fingerprint;

      var diskSerials := GetDiskSerials(host);
      ghost var t4 := trace;
      if |diskSerials| > 0 {
        fingerprint := fingerprint + "|" + diskSerials[0];
      }
      ghost var withDisk := fingerprint;
      var macAddresses := GetMacAddresses(host);
      FingerprintTrace(isInitialized, t0, t1, t2, t3, t4, trace);
      if |macAddresses| > 0 {
        fingerprint := fingerprint + "|" + macAddresses[0];
      }
      StreamIsInput(cpu, motherboard, bios, diskSerials, macAddresses, fields, withDisk, fingerprint);

      if !isInitialized {
        FingerprintUninitialized(host);
      }
      r := GenerateHash(host.hash, fingerprint);
    }
  }
}
