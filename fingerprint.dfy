/** The fingerprint composer: the '|'-joined input string and its hash.

    The input is `cpu|motherboard|bios`, then `|disk` when a first disk
    serial exists, then `|mac` when a first MAC address exists. The hash is
    `std::hash<std::string>`, which the model takes as a parameter (its
    values are implementation-defined), rendered with `std::hex`. */
module Fingerprint {
  import opened Wrappers
  import opened Hex

  const Separator: char := '|'

  /** The first element of a result list, if there is one. */
  function FirstOf(values: seq<string>): (f: Option<string>)
    ensures f.Some? <==> |values| > 0
    ensures f.Some? ==> f.value == values[0]
  {
    if |values| > 0 then Some(values[0]) else None
  }

  /** A `|`-prefixed segment for a present optional field, nothing otherwise. */
  function OptionalSegment(field: Option<string>): string {
    match field
    case Some(v) => [Separator] + v
    case None => ""
  }

  /** The string `GetHardwareFingerprint` hashes. */
  function FingerprintInput(cpu: string, motherboard: string, bios: string,
                            disk: Option<string>, mac: Option<string>): string
  {
    cpu + [Separator] + motherboard + [Separator] + bios + OptionalSegment(disk) + OptionalSegment(mac)
  }

  /** `GenerateHash`: the hash value printed with `std::hex`. The text is
      canonical lowercase hex of at most 16 digits and reads back as the hash
      value, so two inputs get the same text exactly when their hash values
      are equal. */
  function GenerateHash(hash: string -> Word64, input: string): (r: string)
    ensures Canonical(r) && 1 <= |r| <= 16
    ensures ParseHex(r) == hash(input) as nat
  {
    var value := hash(input) as nat;
    ToHexCanonical(value);
    ParseToHex(value);
    Word64Width(value);
    ToHex(value)
  }

  /** Equal renderings come from equal hash values and only from them. */
  lemma GenerateHashSame(hash: string -> Word64, a: string, b: string)
    ensures GenerateHash(hash, a) == GenerateHash(hash, b) <==> hash(a) == hash(b)
  {
    ToHexInjective(hash(a) as nat, hash(b) as nat);
  }

  // ---------------------------------------------------------------------
  // Reading the input back

  /** The `|`-separated fields of a string (always at least one). */
  function Split(s: string): (fields: seq<string>)
    ensures |fields| >= 1
    decreases |s|
  {
    if s == [] then [""]
    else
      var rest := Split(s[1..]);
      if s[0] == Separator then [""] + rest else [[s[0]] + rest[0]] + rest[1..]
  }

  /** A string without separators splits into itself. */
  lemma {:induction false} SplitPlain(a: string)
    requires Separator !in a
    ensures Split(a) == [a]
    decreases |a|
  {
    if a != [] {
      assert a[1..] == a[1..] && Separator !in a[1..];
      SplitPlain(a[1..]);
      assert [a[0]] + a[1..] == a;
    }
  }

  /** A separator-free field followed by a separator splits off as one field. */
  lemma {:induction false} SplitField(a: string, b: string)
    requires Separator !in a
    ensures Split(a + [Separator] + b) == [a] + Split(b)
    decreases |a|
  {
    var s := a + [Separator] + b;
    if a == [] {
      assert s == [Separator] + b;
      assert s[1..] == b;
    } else {
      assert s[0] == a[0];
      assert s[1..] == a[1..] + [Separator] + b;
      assert Separator !in a[1..];
      SplitField(a[1..], b);
      assert [a[0]] + a[1..] == a;
    }
  }

  predicate Plain(field: string) {
    Separator !in field
  }

  predicate PlainOption(field: Option<string>) {
    field.Some? ==> Plain(field.value)
  }

  function Present(field: Option<string>): seq<string> {
    if field.Some? then [field.value] else []
  }

  /** Fields joined with the separator. */
  function Join(fields: seq<string>): string
    requires |fields| >= 1
    decreases |fields|
  {
    if |fields| == 1 then fields[0] else fields[0] + [Separator] + Join(fields[1..])
  }

  /** Splitting undoes joining when no field contains the separator. */
  lemma {:induction false} SplitJoin(fields: seq<string>)
    requires |fields| >= 1 && forall i :: 0 <= i < |fields| ==> Plain(fields[i])
    ensures Split(Join(fields)) == fields
    decreases |fields|
  {
    if |fields| == 1 {
      SplitPlain(fields[0]);
    } else {
      SplitJoin(fields[1..]);
      SplitField(fields[0], Join(fields[1..]));
    }
  }

  lemma JoinCons(f: string, rest: seq<string>)
    requires |rest| >= 1
    ensures Join([f] + rest) == f + [Separator] + Join(rest)
  {
    assert ([f] + rest)[1..] == rest;
  }

  /** The bios field and the optional segments are the join of the last fields. */
  lemma TailIsJoin(bios: string, disk: Option<string>, mac: Option<string>)
    ensures bios + OptionalSegment(disk) + OptionalSegment(mac)
            == Join([bios] + (Present(disk) + Present(mac)))
  {
    match disk {
      case None =>
        match mac {
          case None =>
            assert [bios] + (Present(disk) + Present(mac)) == [bios];
          case Some(m) =>
            assert [bios] + (Present(disk) + Present(mac)) == [bios] + [m];
            JoinCons(bios, [m]);
        }
      case Some(d) =>
        match mac {
          case None =>
            assert [bios] + (Present(disk) + Present(mac)) == [bios] + [d];
            JoinCons(bios, [d]);
          case Some(m) =>
            assert [bios] + (Present(disk) + Present(mac)) == [bios] + ([d] + [m]);
            JoinCons(d, [m]);
            JoinCons(bios, [d] + [m]);
        }
    }
  }

  lemma FieldList(cpu: string, motherboard: string, bios: string, disks: seq<string>, macs: seq<string>)
    ensures [cpu, motherboard, bios] + disks + macs == [cpu] + ([motherboard] + ([bios] + (disks + macs)))
  {
  }

  lemma InputRegrouped(cpu: string, motherboard: string, bios: string,
                       disk: Option<string>, mac: Option<string>)
    ensures FingerprintInput(cpu, motherboard, bios, disk, mac)
            == cpu + [Separator] + (motherboard + [Separator] + (bios + OptionalSegment(disk) + OptionalSegment(mac)))
  {
  }

  /** The input is the join of the present fields, in order. */
  lemma FingerprintInputIsJoin(cpu: string, motherboard: string, bios: string,
                               disk: Option<string>, mac: Option<string>)
    ensures FingerprintInput(cpu, motherboard, bios, disk, mac)
            == Join([cpu, motherboard, bios] + Present(disk) + Present(mac))
  {
    var rest := [bios] + (Present(disk) + Present(mac));
    TailIsJoin(bios, disk, mac);
    JoinCons(motherboard, rest);
    JoinCons(cpu, [motherboard] + rest);
    FieldList(cpu, motherboard, bios, Present(disk), Present(mac));
    InputRegrouped(cpu, motherboard, bios, disk, mac);
  }

  /** When no field contains the separator, splitting the input returns the
      fields in order: cpu, motherboard, bios, then the disk and MAC fields
      that are present. */
  lemma FingerprintFields(cpu: string, motherboard: string, bios: string,
                          disk: Option<string>, mac: Option<string>)
    requires Plain(cpu) && Plain(motherboard) && Plain(bios) && PlainOption(disk) && PlainOption(mac)
    ensures Split(FingerprintInput(cpu, motherboard, bios, disk, mac))
            == [cpu, motherboard, bios] + Present(disk) + Present(mac)
  {
    var fs := [cpu, motherboard, bios] + Present(disk) + Present(mac);
    FingerprintInputIsJoin(cpu, motherboard, bios, disk, mac);
    forall i | 0 <= i < |fs| ensures Plain(fs[i]) {
    }
    SplitJoin(fs);
  }

  /** Changing exactly one of the five fields (the others fixed) always
      changes the input string; only the hash can then collide. */
  lemma FingerprintInputSensitive(cpu: string, motherboard: string, bios: string,
                                  disk: Option<string>, mac: Option<string>,
                                  cpu': string, motherboard': string, bios': string,
                                  disk': Option<string>, mac': Option<string>)
    requires (cpu != cpu' && motherboard == motherboard' && bios == bios' && disk == disk' && mac == mac')
          || (cpu == cpu' && motherboard != motherboard' && bios == bios' && disk == disk' && mac == mac')
          || (cpu == cpu' && motherboard == motherboard' && bios != bios' && disk == disk' && mac == mac')
          || (cpu == cpu' && motherboard == motherboard' && bios == bios' && disk != disk' && mac == mac')
          || (cpu == cpu' && motherboard == motherboard' && bios == bios' && disk == disk' && mac != mac')
    ensures FingerprintInput(cpu, motherboard, bios, disk, mac)
            != FingerprintInput(cpu', motherboard', bios', disk', mac')
  {
    if cpu != cpu' {
      SensitiveToCpu(cpu, cpu', motherboard, bios, disk, mac);
    } else if motherboard != motherboard' {
      SensitiveToMotherboard(cpu, motherboard, motherboard', bios, disk, mac);
    } else if bios != bios' {
      SensitiveToBios(cpu, motherboard, bios, bios', disk, mac);
    } else if disk != disk' {
      SensitiveToDisk(cpu, motherboard, bios, disk, disk', mac);
    } else {
      SensitiveToMac(cpu, motherboard, bios, disk, mac, mac');
    }
  }

  lemma SensitiveToCpu(cpu: string, cpu': string, motherboard: string, bios: string,
                       disk: Option<string>, mac: Option<string>)
    requires cpu != cpu'
    ensures FingerprintInput(cpu, motherboard, bios, disk, mac)
            != FingerprintInput(cpu', motherboard, bios, disk, mac)
  {
    var x := FingerprintInput(cpu, motherboard, bios, disk, mac);
    var y := FingerprintInput(cpu', motherboard, bios, disk, mac);
    if x == y {
      assert |cpu| == |cpu'|;
      forall i | 0 <= i < |cpu| ensures cpu[i] == cpu'[i] {
        assert x[i] == cpu[i] && y[i] == cpu'[i];
      }
    }
  }

  lemma SensitiveToMotherboard(cpu: string, motherboard: string, motherboard': string, bios: string,
                               disk: Option<string>, mac: Option<string>)
    requires motherboard != motherboard'
    ensures FingerprintInput(cpu, motherboard, bios, disk, mac)
            != FingerprintInput(cpu, motherboard', bios, disk, mac)
  {
    var p := cpu + [Separator];
    var q := [Separator] + bios + OptionalSegment(disk) + OptionalSegment(mac);
    assert FingerprintInput(cpu, motherboard, bios, disk, mac) == p + motherboard + q;
    assert FingerprintInput(cpu, motherboard', bios, disk, mac) == p + motherboard' + q;
    SeparatedBy(p, motherboard, motherboard', q);
  }

  lemma SensitiveToBios(cpu: string, motherboard: string, bios: string, bios': string,
                        disk: Option<string>, mac: Option<string>)
    requires bios != bios'
    ensures FingerprintInput(cpu, motherboard, bios, disk, mac)
            != FingerprintInput(cpu, motherboard, bios', disk, mac)
  {
    var p := cpu + [Separator] + motherboard + [Separator];
    var q := OptionalSegment(disk) + OptionalSegment(mac);
    assert FingerprintInput(cpu, motherboard, bios, disk, mac) == p + bios + q;
    assert FingerprintInput(cpu, motherboard, bios', disk, mac) == p + bios' + q;
    SeparatedBy(p, bios, bios', q);
  }

  lemma SensitiveToDisk(cpu: string, motherboard: string, bios: string,
                        disk: Option<string>, disk': Option<string>, mac: Option<string>)
    requires disk != disk'
    ensures FingerprintInput(cpu, motherboard, bios, disk, mac)
            != FingerprintInput(cpu, motherboard, bios, disk', mac)
  {
    var p := cpu + [Separator] + motherboard + [Separator] + bios;
    var q := OptionalSegment(mac);
    if OptionalSegment(disk) == OptionalSegment(disk') {
      OptionalSegmentInjective(disk, disk');
    }
    SeparatedBy(p, OptionalSegment(disk), OptionalSegment(disk'), q);
  }

  lemma SensitiveToMac(cpu: string, motherboard: string, bios: string,
                       disk: Option<string>, mac: Option<string>, mac': Option<string>)
    requires mac != mac'
    ensures FingerprintInput(cpu, motherboard, bios, disk, mac)
            != FingerprintInput(cpu, motherboard, bios, disk, mac')
  {
    var p := cpu + [Separator] + motherboard + [Separator] + bios + OptionalSegment(disk);
    if OptionalSegment(mac) == OptionalSegment(mac') {
      OptionalSegmentInjective(mac, mac');
    }
    SeparatedBy(p, OptionalSegment(mac), OptionalSegment(mac'), []);
    assert p + OptionalSegment(mac) + [] == p + OptionalSegment(mac);
    assert p + OptionalSegment(mac') + [] == p + OptionalSegment(mac');
  }

  /** Different middles between a fixed prefix and suffix give different strings. */
  lemma SeparatedBy(p: string, a: string, b: string, q: string)
    requires a != b
    ensures p + a + q != p + b + q
  {
    if p + a + q == p + b + q {
      CancelAround(p, a, b, q);
    }
  }

  lemma CancelAround(p: string, a: string, b: string, q: string)
    requires p + a + q == p + b + q
    ensures a == b
  {
    var s := p + a + q;
    assert |a| == |b|;
    assert a == s[|p|..|p| + |a|];
    assert b == (p + b + q)[|p|..|p| + |b|];
  }

  lemma OptionalSegmentInjective(a: Option<string>, b: Option<string>)
    requires OptionalSegment(a) == OptionalSegment(b)
    ensures a == b
  {
    if a.Some? && b.Some? {
      assert a.value == OptionalSegment(a)[1..];
      assert b.value == OptionalSegment(b)[1..];
    }
  }

  /** A known limitation of the format: a lone disk serial and a lone MAC
      address with the same text give the same input, since an absent field
      leaves no empty segment behind. */
  lemma DiskOrMacIndistinguishable(cpu: string, motherboard: string, bios: string, v: string)
    ensures FingerprintInput(cpu, motherboard, bios, Some(v), None)
            == FingerprintInput(cpu, motherboard, bios, None, Some(v))
  {
  }
}
