# Hardware identification addon: a Dafny model

The addon is a Node.js native module for Windows that reads hardware facts through WMI (Windows Management Instrumentation). The facts are the processor id, the baseboard and BIOS serial numbers, the physical-media serials and the network adapter MAC addresses. The addon also combines them into a hashed fingerprint. This project models its core in Dafny 4.11 and proves properties of that model. The core consists of:

- **`HardwareIdentifier`** (`hardware_identifier.dfy`, module `Identifier`).
  - A class with the three fields of the C++ object: `isInitialized`, `wbemLocator` and `wbemServices`.
  - `Initialize` runs the five-step COM/WMI session setup: `CoInitializeEx`, `CoInitializeSecurity`, `CoCreateInstance`, `ConnectServer`, `CoSetProxyBlanket`.
  - `Cleanup` tears the session down in reverse order.
  - Two query loops, and the getters and fingerprint composer built on them.
- **The resource ledger** (`ledger.dfy`).
  - A ghost trace of every acquisition, release and WQL query an instance causes, and a ghost stack of live resources.
  - `Replay` accepts a trace only when the COM runtime, locator and services proxy are released newest first, and only when every query happens while a services proxy is live.
  - The class invariant `Valid()` says the trace replays from nothing to exactly the resources the fields own, so there is no leak, no out-of-order teardown and no query outside a session.
- **The WMI service as data** (`wmi.dfy`).
  - A query either fails or yields its enumerated objects in order.
  - An object is a property bag of variants; only a `VT_BSTR` with a non-null string counts as text.
  - `SingleResult` and `AllResults` are the specification functions the two query loops are proved against.
- **`std::hex` rendering** (`hex.dfy`): the digits of a 64-bit value, lowercase, with no padding and no leading zeros.
- **The fingerprint input and its hash** (`fingerprint.dfy`).
  - The input is `cpu|motherboard|bios`, then `|disk` for a first disk serial, then `|mac` for a first MAC address.
  - The hash is a parameter, and its value is rendered in hex.
- **The N-API facade** (`addon.dfy`, module `Addon`).
  - The process-wide `g_hardwareIdentifier` is either null or an instance.
  - `initialize()` creates the instance only when there is none.
  - `cleanup()` drops it.
  - Every accessor raises the "not initialized" `TypeError` exactly when there is no instance.
  - The vectors are copied into JavaScript arrays by index.

The platform is an oracle:

- A `SessionSetup` gives the outcome of each setup call, and the interface pointers it yields.
- A `Host` gives the WMI service, a function from WQL text to outcome, and `std::hash<std::string>`, a function to 64-bit words.

Two behaviours of the code are easy to miss, and the model states both.

- **What the accessors check.** The accessors do not check whether the session is up. They check only that the instance exists (`src/hardware_id_addon.cpp:21-26` with `:66`). So after a failed `initialize()` the accessors return empty strings, empty arrays and the hash of `"||"`. `Addon.FailedInitializeStillAnswers` states this.
- **Fingerprint width.** The fingerprint is not fixed-width. `std::hex` prints without padding, so the fingerprint has 1 to 16 digits and no leading zero. `Hex.Word64Width` and `Hex.ToHexCanonical` state this.

## Model

| member | source | states |
|---|---|---|
| Ledger.SessionBuiltInOrder | src/hardware_identifier.cpp:40-121 | acquiring the COM runtime, the locator and the services proxy in the order `Initialize` does, starting from nothing, yields exactly the session an initialized instance owns |
| Ledger.AcquireReleaseRestores | src/hardware_identifier.cpp:40-61 | releasing a resource right after acquiring it leaves every ledger as it was, so a failure path that undoes its last step leaks nothing |
| Ledger.ReplayAppend | src/hardware_identifier.cpp:34-142 | replaying a concatenated trace replays its halves one after the other |
| Ledger.ReplaySnoc | src/hardware_identifier.cpp:34-142 | extending a trace by one event applies that event to the ledger the trace reached |
| Ledger.TeardownInReverse | src/hardware_identifier.cpp:127-142 | releasing services, then locator, then the COM runtime takes a full session back to the ledger it was built on |
| Ledger.TeardownOutOfOrderFails | src/hardware_identifier.cpp:127-142 | while services are live, any other first release is a violation |
| Wmi.WideStringToString | src/hardware_identifier.cpp:272-281 | the conversion yields an empty string exactly for an empty input |
| Wmi.CString | src/hardware_identifier.cpp:198 | copying a `BSTR` into `std::wstring` keeps the longest NUL-free prefix: a prefix of the input, without NUL, followed in the input by a NUL when it is shorter |
| Wmi.PropertyTextStopsAtNul | src/hardware_identifier.cpp:196-199 | the text read from a non-null `VT_BSTR` is its prefix before the first NUL: without NUL it is the whole string, and a string that starts with NUL reads as "", which the queries treat as missing |
| Wmi.NonEmptyTexts | src/hardware_identifier.cpp:243-263 | the multi-result is never longer than the enumeration |
| Wmi.NonEmptyTextsAppend | src/hardware_identifier.cpp:243-263 | results come out in enumeration order: the results of two consecutive stretches of objects are concatenated |
| Wmi.NonEmptyTextsMembers | src/hardware_identifier.cpp:253-258 | a value is in the multi-result exactly when it is non-empty and some enumerated object holds it as text |
| Wmi.NonEmptyTextsHasNoEmpty | src/hardware_identifier.cpp:256-257 | the multi-result never contains "" |
| Wmi.NonEmptyTextsFirst | src/hardware_identifier.cpp:243-258 | the first multi-result is the text of the first object with non-empty text, and the objects before it contribute nothing |
| Wmi.SingleResultCases | src/hardware_identifier.cpp:147-207 | the single result is "" when not initialized or when the query fails; otherwise it is non-empty exactly when the object at `index` exists and holds non-empty text, and then it is that text |
| Wmi.AllResultsBounds | src/hardware_identifier.cpp:212-267 | the multi-result is empty when not initialized or when the query fails; it is at most as long as the enumeration and never holds "" |
| Wmi.FirstResultAgrees | src/hardware_identifier.cpp:179-199 | when the index-0 query yields text, the multi-result query on the same answer starts with that text |
| Hex.DigitChar | src/hardware_identifier.cpp:328 | each digit value below 16 prints as a lowercase hex digit, and only zero prints as '0' |
| Hex.DigitValue | src/hardware_identifier.cpp:328 | every lowercase hex digit is the printing of exactly one digit value |
| Hex.ToHex | src/hardware_identifier.cpp:327-329 | `std::hex` prints at least one digit |
| Hex.ToHexCanonical | src/hardware_identifier.cpp:327-329 | the printing is lowercase hex digits with no leading zero (a lone "0" for zero) |
| Hex.ParseToHex | src/hardware_identifier.cpp:327-329 | reading the printing back gives the value: no information is lost |
| Hex.ToHexParse | src/hardware_identifier.cpp:327-329 | every canonical hex text is the printing of its own value |
| Hex.ToHexLength | src/hardware_identifier.cpp:327-329 | a value in [16^(k-1), 16^k) prints with exactly k digits, so the width varies with the value |
| Hex.ToHexInjective | src/hardware_identifier.cpp:327-329 | two values print the same exactly when they are equal |
| Hex.ToHexAtMost | src/hardware_identifier.cpp:327-329 | a value below 16^k prints with at most k digits |
| Hex.Word64Width | src/hardware_identifier.cpp:324-329 | a `size_t` hash value prints with 1 to 16 digits |
| Fingerprint.GenerateHash | src/hardware_identifier.cpp:321-330 | `GenerateHash` is canonical lowercase hex of 1 to 16 digits that reads back as the hash value of its input |
| Fingerprint.GenerateHashSame | src/hardware_identifier.cpp:321-330 | two inputs get the same text exactly when their hash values are equal; equal inputs always do |
| Fingerprint.SplitJoin | src/hardware_identifier.cpp:336-353 | splitting at '\|' undoes joining when no field contains '\|' |
| Fingerprint.FingerprintInputIsJoin | src/hardware_identifier.cpp:336-353 | the fingerprint input is the '\|'-join of cpu, motherboard, bios and the present disk and MAC fields, in that order |
| Fingerprint.FingerprintFields | src/hardware_identifier.cpp:336-353 | when no field contains '\|', splitting the input gives back cpu, motherboard, bios, then the disk and MAC fields that are present |
| Fingerprint.FingerprintInputSensitive | src/hardware_identifier.cpp:336-353 | changing any one of the five fields, the others fixed, changes the input string |
| Fingerprint.SensitiveToCpu | src/hardware_identifier.cpp:339 | a different cpu id gives a different input |
| Fingerprint.SensitiveToMotherboard | src/hardware_identifier.cpp:340 | a different motherboard serial gives a different input |
| Fingerprint.SensitiveToBios | src/hardware_identifier.cpp:341 | a different BIOS serial gives a different input |
| Fingerprint.SensitiveToDisk | src/hardware_identifier.cpp:344-347 | a different first disk serial, or a disk serial appearing or vanishing, gives a different input |
| Fingerprint.SensitiveToMac | src/hardware_identifier.cpp:350-353 | a different first MAC address, or one appearing or vanishing, gives a different input |
| Fingerprint.DiskOrMacIndistinguishable | src/hardware_identifier.cpp:344-353 | a lone disk serial and a lone MAC address with the same text give the same input, because an absent field leaves no empty segment |
| Identifier.Queries | src/hardware_identifier.cpp:150-167 | a getter sends one WQL query for its attribute when initialized, and none otherwise |
| Identifier.StreamIsInput | src/hardware_identifier.cpp:336-353 | the text the stream receives, step by step, is the fingerprint input of the five getter results |
| Identifier.FingerprintTrace | src/hardware_identifier.cpp:339-350 | the five getter calls leave the queries for processor, baseboard, BIOS, physical media and network adapter on the trace, in that order |
| Identifier.FingerprintUninitialized | src/hardware_identifier.cpp:335-357 | an uninitialized instance fingerprints the hash of "\|\|" |
| Identifier.FingerprintShape | src/hardware_identifier.cpp:356 | every fingerprint is canonical lowercase hex of 1 to 16 digits |
| Identifier.HardwareIdentifier.constructor | src/hardware_identifier.cpp:17-21 | a new instance is uninitialized with both handles null (the whole instance state of `src/hardware_identifier.h`, lines 115-117), holds nothing and has caused nothing |
| Identifier.HardwareIdentifier.Initialize | src/hardware_identifier.cpp:34-122 | if already initialized: returns true and changes nothing. Otherwise: returns true exactly when all five steps succeed, and stores the handles only then; on failure the fields are cleared and every resource the attempt acquired has been released newest first. No leak either way, and no COM call before `CoInitializeEx` succeeds. The boolean result says whether the session is up, as the header documents |
| Identifier.HardwareIdentifier.Cleanup | src/hardware_identifier.cpp:127-142 | releases services, then locator, then the COM runtime when initialized; clears all fields; does nothing on an uninitialized instance, so repeating it is safe |
| Identifier.HardwareIdentifier.ExecuteWmiQuery | src/hardware_identifier.cpp:147-207 | returns `SingleResult`: the text at position `index`, or "" when uninitialized, when the query fails, or when there is no such object or text; sends one query exactly when initialized. `index` is 0 unless given, as the header declares |
| Identifier.HardwareIdentifier.ExecuteWmiQueryMultiple | src/hardware_identifier.cpp:212-267 | returns `AllResults`: the non-empty texts in enumeration order, or nothing when uninitialized or when the query fails; sends one query exactly when initialized |
| Identifier.HardwareIdentifier.GetCpuId | src/hardware_identifier.cpp:286-288 | the first object's `ProcessorId` of `Win32_Processor`; "" when uninitialized, the header's "empty if failed" |
| Identifier.HardwareIdentifier.GetMotherboardSerial | src/hardware_identifier.cpp:293-295 | the first object's `SerialNumber` of `Win32_BaseBoard`; "" when uninitialized, the header's "empty if failed" |
| Identifier.HardwareIdentifier.GetBiosSerial | src/hardware_identifier.cpp:300-302 | the first object's `SerialNumber` of `Win32_BIOS`; "" when uninitialized, the header's "empty if failed" |
| Identifier.HardwareIdentifier.GetDiskSerials | src/hardware_identifier.cpp:307-309 | the multi-result for `SerialNumber` of `Win32_PhysicalMedia` |
| Identifier.HardwareIdentifier.GetMacAddresses | src/hardware_identifier.cpp:314-316 | the multi-result for `MACAddress` of `Win32_NetworkAdapter` |
| Identifier.HardwareIdentifier.GetHardwareFingerprint | src/hardware_identifier.cpp:335-357 | the hash of the fingerprint input of the five getter results (the hash of "\|\|" when uninitialized); sends the five queries in order |
| Addon.ToJsArray | src/hardware_id_addon.cpp:143-148 | the JavaScript array has the vector's length and its elements in order |
| Addon.HardwareIdAddon.constructor | src/hardware_id_addon.cpp:9 | the global pointer starts out null |
| Addon.HardwareIdAddon.Initialize | src/hardware_id_addon.cpp:17-32 | creates the instance only when there is none, reuses an existing one, and returns exactly what its `Initialize` returns. On an instance whose session is up, nothing changes. When a new attempt succeeds, the instance holds that setup's locator and services handles |
| Addon.HardwareIdAddon.Cleanup | src/hardware_id_addon.cpp:40-54 | with an instance: its session is torn down, it holds nothing and the pointer becomes null; with none: does nothing |
| Addon.HardwareIdAddon.GetCpuId | src/hardware_id_addon.cpp:62-78 | raises "not initialized" exactly when there is no instance, and never changes the instance's handles or live resources; otherwise returns the instance's cpu id |
| Addon.HardwareIdAddon.GetMotherboardSerial | src/hardware_id_addon.cpp:86-102 | raises "not initialized" exactly when there is no instance, and never changes the instance's handles or live resources; otherwise returns the instance's motherboard serial |
| Addon.HardwareIdAddon.GetBiosSerial | src/hardware_id_addon.cpp:110-126 | raises "not initialized" exactly when there is no instance, and never changes the instance's handles or live resources; otherwise returns the instance's BIOS serial |
| Addon.HardwareIdAddon.GetDiskSerials | src/hardware_id_addon.cpp:134-156 | raises "not initialized" exactly when there is no instance, and never changes the instance's handles or live resources; otherwise returns an array with exactly the instance's disk serials |
| Addon.HardwareIdAddon.GetMacAddresses | src/hardware_id_addon.cpp:164-186 | raises "not initialized" exactly when there is no instance, and never changes the instance's handles or live resources; otherwise returns an array with exactly the instance's MAC addresses |
| Addon.HardwareIdAddon.GetHardwareFingerprint | src/hardware_id_addon.cpp:194-210 | raises "not initialized" exactly when there is no instance, and never changes the instance's handles or live resources; otherwise returns the instance's fingerprint |
| Addon.HardwareIdAddon.GetAllHardwareInfo | src/hardware_id_addon.cpp:218-264 | raises "not initialized" exactly when there is no instance, and never changes the instance's handles or live resources. Otherwise each field equals the matching getter's result, taken in the order cpu, motherboard, BIOS, disks, MACs, fingerprint (ten queries). The fingerprint comes from the second round of five queries, which may see a different machine (`again`). Only when both rounds see the same machine is the fingerprint the hash of the other five fields it returns |
| Addon.NeverInitializedThrows | src/hardware_id_addon.cpp:66-69 | before any `initialize()`, all seven accessors raise "not initialized": the cpu id, motherboard and BIOS serials, disk serials, MAC addresses, the fingerprint, and `getAllHardwareInfo()` |
| Addon.FailedInitializeStillAnswers | src/hardware_id_addon.cpp:21-26 | after a failed `initialize()`, none of the seven accessors raises. The three single values are "", both arrays are empty, and the fingerprint is the hash of "\|\|". `getAllHardwareInfo()` returns an object holding the same values |
| Addon.CleanupThenThrows | src/hardware_id_addon.cpp:44-48 | `cleanup()` can be repeated, and afterwards all seven accessors raise "not initialized" |
| Addon.InitializeAgain | src/hardware_id_addon.cpp:21-26 | a second `initialize()` keeps a session that came up: the locator and services handles are the first setup's, both unchanged, and the trace gains no event. A session that did not come up holds no handles; it is retried, and on success holds the second setup's locator and services. A session still down after the second call holds no handles |
| Addon.ReinitializeAfterCleanup | src/hardware_id_addon.cpp:17-54 | after `cleanup()`, `initialize()` starts over on a new instance |
| Addon.AllInfoAgreesWithAccessors | src/hardware_id_addon.cpp:231-236 | while the machine does not change, each of the six fields of `getAllHardwareInfo()` equals what the matching accessor returns: cpu id, motherboard serial, BIOS serial, disk serials, MAC addresses and fingerprint |

## Left out

- COM and WMI semantics are not modelled: `CoInitializeEx`, `CoInitializeSecurity`, `CoCreateInstance`, `ConnectServer`, `CoSetProxyBlanket`, `ExecQuery`, `Next`, `Get` and `VariantClear`, and their reference counting. Their outcomes are inputs (`SessionSetup`, `Host`). Releasing the enumerator and the per-object pointers inside the query loops is not on the ledger.
- `std::hash<std::string>` is implementation-defined, so it is a parameter `string -> Word64`. Only its determinism and its hex rendering are modelled.
- `WideCharToMultiByte` (UTF-16 to UTF-8) is taken as the identity on characters, keeping only the rule that empty maps to empty. A `BSTR` is modelled as a sequence of Unicode characters, so a lone surrogate code unit cannot occur in the model. The cut at the first NUL made by `std::wstring(bstrVal)` is modelled (`Wmi.CString`).
- The WQL text is built as the source builds it, but its meaning belongs to the WMI service, which is an input.
- N-API is not modelled: value construction, the JavaScript exception object, the `catch (std::exception)` fallbacks and the registration `Init`/`NODE_API_MODULE` (`src/hardware_id_addon.cpp:272-297`). Those catch blocks are reached only when allocation or conversion throws, and neither can happen in the model. The "not initialized" signal is the `Threw` result.
- Addon.HardwareIdAddon.GetCpuId and the other accessors: "performs no query when there is no instance" is stated as "there is no instance whose trace could record one"; there is no global trace.
- Identifier.HardwareIdentifier.Initialize: its trace is stated as an extension of the old trace that keeps replaying under the ledger's rules, with `ledger == []` on failure. It does not list the events of each failure path.
- Threads and the `COINIT_MULTITHREADED` apartment choice are not modelled; the model is single-threaded.
- The destructor's `Cleanup` is modelled only where `reset()` runs it in `cleanup()`, as a second `Cleanup` call. Destruction at process exit is not modelled.
