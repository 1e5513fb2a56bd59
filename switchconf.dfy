/**
 * The configuration resolver of switchconf.py: it expands the short declarative
 * description of every switch port (a type of trunk, tagged or untagged plus
 * optional VLAN names) into concrete 802.1Q membership given as VLAN IDs.
 */
module SwitchConf {
  import opened Wrappers
  import opened Dicts
  import opened Strings

  /** An entry of the `vlans:` section: `{vlan-id: <id>}`. */
  datatype Vlan = Vlan(vlanId: int)

  /** `vlans_by_name`: VLAN name to its entry, in declaration order. */
  type Vlans = Dict<Vlan>

  /** A port as declared: every key is optional. */
  datatype PortDecl = PortDecl(
    portType: Option<string>,    // `type`
    vlan: Option<string>,        // `vlan`: the untagged VLAN's name
    vlans: Option<seq<string>>,  // `vlans`: names of the tagged VLANs
    pvid: Option<string>)        // `pvid`: name of the PVID override

  /** A port whose entry is left empty (`port3:` with no value) is treated as `{}`. */
  const EmptyPort := PortDecl(None, None, None, None)

  /**
   * A port after resolution: the declared keys that the resolver leaves in place,
   * the lowered `type`, and the computed `tagged-vlan-ids`, `untagged-vlan-id` and
   * `pvid` (the `pvid` key now holds an ID instead of a name).
   */
  datatype PortConfig = PortConfig(
    portType: string,
    vlan: Option<string>,
    vlans: Option<seq<string>>,
    taggedVlanIds: Option<seq<int>>,
    untaggedVlanId: Option<int>,
    pvid: int)

  /** A switch entry; `P` is the port type, declared before resolution and resolved after. */
  datatype Switch<P> = Switch(
    deviceType: string,          // `type`: names the driver module
    ip: string,
    username: string,
    password: string,
    defaultVlan: Option<string>,
    ports: Dict<P>)

  /** The whole configuration file. */
  datatype Config<P> = Config(
    vlans: Vlans,
    defaultVlan: Option<string>,
    switches: Dict<Switch<P>>)

  /** The exceptions the resolver raises. */
  datatype Error =
    | VlanNotFound(vlanName: string)                    // `VLAN ... not found!`
    | KeyMissing(key: string)                           // a `KeyError` on a mandatory key
    | PvidNotTagged(portName: string, pvid: int)        // the PVID is not a member of the tagged port
    | UnknownPortType(portName: string, portType: string)

  /** The IDs of all declared VLANs, in declaration order. */
  function AllVlanIds(vlans: Vlans): (ids: seq<int>)
    ensures |ids| == |vlans|
    ensures forall i :: 0 <= i < |vlans| ==> ids[i] == vlans[i].1.vlanId
  {
    seq(|vlans|, i requires 0 <= i < |vlans| => vlans[i].1.vlanId)
  }

  /** The invariant every resolved port satisfies: its PVID is one of its member VLANs. */
  predicate PortInvariant(p: PortConfig) {
    if p.untaggedVlanId.Some? then p.pvid == p.untaggedVlanId.value
    else p.taggedVlanIds.Some? && p.pvid in p.taggedVlanIds.value
  }

  // ---------------------------------------------------------------------------
  // get_vlan_id_by_name

  /** The `vlan-id` of the VLAN called `name`; fails exactly when no VLAN has that name. */
  function GetVlanIdByName(name: string, vlans: Vlans): (r: Result<int, Error>)
    ensures r.Err? <==> name !in Keys(vlans)
    ensures r.Err? ==> r.error == VlanNotFound(name)
    ensures r.Ok? ==> (name, Vlan(r.value)) in vlans
  {
    match Get(vlans, name)
    case None => Err(VlanNotFound(name))
    case Some(v) => Ok(v.vlanId)
  }

  /** With the unique names of a dictionary, the lookup finds the entry declared under that name. */
  lemma GetVlanIdAt(vlans: Vlans, i: nat)
    requires UniqueKeys(vlans) && i < |vlans|
    ensures GetVlanIdByName(vlans[i].0, vlans) == Ok(vlans[i].1.vlanId)
  {
    GetAt(vlans, i);
  }

  // ---------------------------------------------------------------------------
  // The `for vlan_name in ...: ids.append(get_vlan_id_by_name(...))` loops

  /**
   * Looking up a list of names in order, stopping at the first unknown one: on
   * success the i-th ID is the i-th name's ID, and on failure the error names the
   * first name that is not declared.
   */
  function VlanIdsByName(names: seq<string>, vlans: Vlans): (r: Result<seq<int>, Error>)
    ensures r.Ok? <==> forall i :: 0 <= i < |names| ==> names[i] in Keys(vlans)
    ensures r.Ok? ==> |r.value| == |names| &&
                      forall i :: 0 <= i < |names| ==> GetVlanIdByName(names[i], vlans) == Ok(r.value[i])
    ensures r.Err? ==> exists i :: 0 <= i < |names| && r.error == VlanNotFound(names[i]) &&
                                   names[i] !in Keys(vlans) &&
                                   forall j :: 0 <= j < i ==> names[j] in Keys(vlans)
  {
    if |names| == 0 then Ok([])
    else
      var init := names[..|names| - 1];
      var last := names[|names| - 1];
      assert forall i :: 0 <= i < |init| ==> init[i] == names[i];
      match VlanIdsByName(init, vlans)
      case Err(e) => Err(e)
      case Ok(ids) =>
        match GetVlanIdByName(last, vlans)
        case Err(e) => Err(e)
        case Ok(id) => Ok(ids + [id])
  }

  /** Once a prefix of the names fails, the whole list fails with the same error. */
  lemma {:induction false} VlanIdsByNameFailurePersists(names: seq<string>, j: nat, vlans: Vlans)
    requires j <= |names| && VlanIdsByName(names[..j], vlans).Err?
    ensures VlanIdsByName(names, vlans) == VlanIdsByName(names[..j], vlans)
  {
    if j < |names| {
      assert names[..|names| - 1][..j] == names[..j];
      VlanIdsByNameFailurePersists(names[..|names| - 1], j, vlans);
    } else {
      assert names[..j] == names;
    }
  }

  /** The loop that appends one looked-up ID per name. */
  method CollectVlanIds(names: seq<string>, vlans: Vlans) returns (r: Result<seq<int>, Error>)
    ensures r == VlanIdsByName(names, vlans)
  {
    var ids: seq<int> := [];
    var i := 0;
    while i < |names|
      invariant 0 <= i <= |names|
      invariant VlanIdsByName(names[..i], vlans) == Ok(ids)
    {
      var id := GetVlanIdByName(names[i], vlans);
      assert names[..i + 1][..i] == names[..i];
      if id.Err? {
        VlanIdsByNameFailurePersists(names, i + 1, vlans);
        return Err(id.error);
      }
      ids := ids + [id.value];
      i := i + 1;
    }
    assert names[..i] == names;
    r := Ok(ids);
  }

  /** A trunk port's loop over all declared names succeeds and yields every ID in declaration order. */
  lemma AllNamesResolve(vlans: Vlans)
    requires UniqueKeys(vlans)
    ensures VlanIdsByName(Keys(vlans), vlans) == Ok(AllVlanIds(vlans))
  {
    var names := Keys(vlans);
    forall i | 0 <= i < |names|
      ensures names[i] in Keys(vlans) && GetVlanIdByName(names[i], vlans) == Ok(vlans[i].1.vlanId)
    {
      GetVlanIdAt(vlans, i);
    }
    var r := VlanIdsByName(names, vlans);
    assert r.Ok?;
    forall i | 0 <= i < |names| ensures r.value[i] == AllVlanIds(vlans)[i] {
      assert GetVlanIdByName(names[i], vlans) == Ok(r.value[i]);
    }
    assert r.value == AllVlanIds(vlans);
  }

  // ---------------------------------------------------------------------------
  // get_switch_port_config

  /** The port type used for dispatch: `{}` for a missing entry, `"untagged"` for a missing type, lowered. */
  function PortTypeOf(decl: Option<PortDecl>): string {
    Lower(decl.GetOr(EmptyPort).portType.GetOr("untagged"))
  }

  /** The resolution of one port, branch for branch as the resolver does it. */
  function ResolvePort(portName: string, decl: Option<PortDecl>, switchDefault: string, vlans: Vlans)
    : Result<PortConfig, Error>
  {
    var d := decl.GetOr(EmptyPort);
    var t := PortTypeOf(decl);
    if t == "trunk" then
      match VlanIdsByName(Keys(vlans), vlans)
      case Err(e) => Err(e)
      case Ok(ids) =>
        match GetVlanIdByName(switchDefault, vlans)
        case Err(e) => Err(e)
        case Ok(pvid) => Ok(PortConfig(t, d.vlan, d.vlans, Some(ids), None, pvid))
    else if t == "tagged" then
      if d.vlans.None? then Err(KeyMissing("vlans"))
      else
        match VlanIdsByName(d.vlans.value, vlans)
        case Err(e) => Err(e)
        case Ok(ids) =>
          if d.vlan.Some? then
            match GetVlanIdByName(d.vlan.value, vlans)
            case Err(e) => Err(e)
            case Ok(u) => Ok(PortConfig(t, d.vlan, d.vlans, Some(ids), Some(u), u))
          else
            match GetVlanIdByName(d.pvid.GetOr(switchDefault), vlans)
            case Err(e) => Err(e)
            case Ok(p) =>
              if p in ids then Ok(PortConfig(t, d.vlan, d.vlans, Some(ids), None, p))
              else Err(PvidNotTagged(portName, p))
    else if t == "untagged" then
      match GetVlanIdByName(d.vlan.GetOr(switchDefault), vlans)
      case Err(e) => Err(e)
      case Ok(u) => Ok(PortConfig(t, d.vlan, d.vlans, None, Some(u), u))
    else
      Err(UnknownPortType(portName, t))
  }

  /** `get_switch_port_config`, with its two `append` loops. */
  method GetSwitchPortConfig(portName: string, decl: Option<PortDecl>, switchDefault: string, vlans: Vlans)
    returns (r: Result<PortConfig, Error>)
    ensures r == ResolvePort(portName, decl, switchDefault, vlans)
  {
    var d := if decl.None? then EmptyPort else decl.value;
    var portType := if d.portType.None? then "untagged" else d.portType.value;
    portType := Lower(portType);
    if portType == "trunk" {
      // every declared name is found, so this loop cannot fail
      var ids := CollectVlanIds(Keys(vlans), vlans);
      assert ids.Ok?;
      var pvid := GetVlanIdByName(switchDefault, vlans);
      if pvid.Err? {
        return Err(pvid.error);
      }
      r := Ok(PortConfig(portType, d.vlan, d.vlans, Some(ids.value), None, pvid.value));
    } else if portType == "tagged" {
      if d.vlans.None? {
        return Err(KeyMissing("vlans"));
      }
      var ids := CollectVlanIds(d.vlans.value, vlans);
      if ids.Err? {
        return Err(ids.error);
      }
      if d.vlan.Some? {
        var untagged := GetVlanIdByName(d.vlan.value, vlans);
        if untagged.Err? {
          return Err(untagged.error);
        }
        r := Ok(PortConfig(portType, d.vlan, d.vlans, Some(ids.value), Some(untagged.value), untagged.value));
      } else {
        var pvidName := switchDefault;
        if d.pvid.Some? {
          pvidName := d.pvid.value;
        }
        var pvid := GetVlanIdByName(pvidName, vlans);
        if pvid.Err? {
          return Err(pvid.error);
        }
        if pvid.value !in ids.value {
          return Err(PvidNotTagged(portName, pvid.value));
        }
        r := Ok(PortConfig(portType, d.vlan, d.vlans, Some(ids.value), None, pvid.value));
      }
    } else if portType == "untagged" {
      var vlanName := switchDefault;
      if d.vlan.Some? {
        vlanName := d.vlan.value;
      }
      var untagged := GetVlanIdByName(vlanName, vlans);
      if untagged.Err? {
        return Err(untagged.error);
      }
      r := Ok(PortConfig(portType, d.vlan, d.vlans, None, Some(untagged.value), untagged.value));
    } else {
      r := Err(UnknownPortType(portName, portType));
    }
  }

  /** Every port that resolves satisfies the PVID-membership invariant, whatever its type. */
  lemma ResolvedPortInvariant(portName: string, decl: Option<PortDecl>, switchDefault: string, vlans: Vlans)
    ensures ResolvePort(portName, decl, switchDefault, vlans).Ok? ==>
            PortInvariant(ResolvePort(portName, decl, switchDefault, vlans).value)
  {
    var r := ResolvePort(portName, decl, switchDefault, vlans);
    if r.Ok? && PortTypeOf(decl) == "trunk" {
      var names := Keys(vlans);
      var ids := VlanIdsByName(names, vlans).value;
      var pvid := GetVlanIdByName(switchDefault, vlans).value;
      var j :| 0 <= j < |names| && names[j] == switchDefault;
      assert GetVlanIdByName(names[j], vlans) == Ok(ids[j]);
      assert ids[j] == pvid;
    }
  }

  /** A missing port entry is the empty entry, and a missing type is `untagged`. */
  lemma MissingPortDefaults(portName: string, d: PortDecl, switchDefault: string, vlans: Vlans)
    requires d.portType.None?
    ensures ResolvePort(portName, None, switchDefault, vlans) == ResolvePort(portName, Some(EmptyPort), switchDefault, vlans)
    ensures ResolvePort(portName, Some(d), switchDefault, vlans) ==
            ResolvePort(portName, Some(d.(portType := Some("untagged"))), switchDefault, vlans)
  {
  }

  /** Port types are compared after lowering: types differing only in letter case resolve alike. */
  lemma TypeIsCaseInsensitive(portName: string, d: PortDecl, a: string, b: string, switchDefault: string, vlans: Vlans)
    requires Lower(a) == Lower(b)
    ensures ResolvePort(portName, Some(d.(portType := Some(a))), switchDefault, vlans) ==
            ResolvePort(portName, Some(d.(portType := Some(b))), switchDefault, vlans)
  {
  }

  /**
   * Trunk: all declared VLANs tagged in declaration order, the switch default as PVID;
   * it fails exactly when the switch default is not a declared VLAN.
   */
  lemma TrunkPort(portName: string, decl: Option<PortDecl>, switchDefault: string, vlans: Vlans)
    requires UniqueKeys(vlans) && PortTypeOf(decl) == "trunk"
    ensures ResolvePort(portName, decl, switchDefault, vlans).Ok? <==> switchDefault in Keys(vlans)
    ensures ResolvePort(portName, decl, switchDefault, vlans).Ok? ==>
            var p := ResolvePort(portName, decl, switchDefault, vlans).value;
            p.taggedVlanIds == Some(AllVlanIds(vlans)) && p.untaggedVlanId.None? &&
            GetVlanIdByName(switchDefault, vlans) == Ok(p.pvid)
  {
    AllNamesResolve(vlans);
  }

  /**
   * Tagged with a `vlan`: the listed VLANs are tagged, `vlan` is untagged and is
   * the PVID; no membership check is made.
   */
  lemma TaggedPortWithVlan(portName: string, d: PortDecl, switchDefault: string, vlans: Vlans)
    requires PortTypeOf(Some(d)) == "tagged" && d.vlan.Some?
    ensures ResolvePort(portName, Some(d), switchDefault, vlans).Ok? <==>
            d.vlans.Some? && VlanIdsByName(d.vlans.value, vlans).Ok? && d.vlan.value in Keys(vlans)
    ensures ResolvePort(portName, Some(d), switchDefault, vlans).Ok? ==>
            var p := ResolvePort(portName, Some(d), switchDefault, vlans).value;
            p.taggedVlanIds == Some(VlanIdsByName(d.vlans.value, vlans).value) &&
            p.untaggedVlanId.Some? && p.pvid == p.untaggedVlanId.value &&
            GetVlanIdByName(d.vlan.value, vlans) == Ok(p.pvid)
  {
  }

  /**
   * Tagged without a `vlan`: the PVID is the `pvid` override or the switch default,
   * and once every name is known, resolution fails exactly when that PVID is not tagged.
   */
  lemma TaggedPortWithoutVlan(portName: string, d: PortDecl, switchDefault: string, vlans: Vlans)
    requires PortTypeOf(Some(d)) == "tagged" && d.vlan.None?
    requires d.vlans.Some? && VlanIdsByName(d.vlans.value, vlans).Ok?
    requires d.pvid.GetOr(switchDefault) in Keys(vlans)
    ensures var ids := VlanIdsByName(d.vlans.value, vlans).value;
            var pvid := GetVlanIdByName(d.pvid.GetOr(switchDefault), vlans).value;
            var r := ResolvePort(portName, Some(d), switchDefault, vlans);
            (r.Ok? <==> pvid in ids) &&
            (r.Ok? ==> r.value.pvid == pvid && r.value.untaggedVlanId.None? && r.value.taggedVlanIds == Some(ids)) &&
            (r.Err? ==> r.error == PvidNotTagged(portName, pvid))
  {
  }

  /**
   * Tagged without a `vlan`, over all declarations: resolution succeeds exactly when
   * `vlans` is present, all its names and the PVID name are declared, and the PVID is tagged.
   */
  lemma TaggedPortWithoutVlanResolves(portName: string, d: PortDecl, switchDefault: string, vlans: Vlans)
    requires PortTypeOf(Some(d)) == "tagged" && d.vlan.None?
    ensures ResolvePort(portName, Some(d), switchDefault, vlans).Ok? <==>
            d.vlans.Some? && VlanIdsByName(d.vlans.value, vlans).Ok? &&
            d.pvid.GetOr(switchDefault) in Keys(vlans) &&
            GetVlanIdByName(d.pvid.GetOr(switchDefault), vlans).value in VlanIdsByName(d.vlans.value, vlans).value
    ensures d.vlans.None? ==> ResolvePort(portName, Some(d), switchDefault, vlans) == Err(KeyMissing("vlans"))
  {
  }

  /**
   * Untagged: `vlan` or else the switch default is the untagged VLAN and the PVID;
   * it fails exactly when that name is not declared.
   */
  lemma UntaggedPort(portName: string, decl: Option<PortDecl>, switchDefault: string, vlans: Vlans)
    requires PortTypeOf(decl) == "untagged"
    ensures var name := decl.GetOr(EmptyPort).vlan.GetOr(switchDefault);
            var r := ResolvePort(portName, decl, switchDefault, vlans);
            (r.Ok? <==> name in Keys(vlans)) &&
            (r.Ok? ==> r.value.untaggedVlanId == Some(r.value.pvid) && r.value.taggedVlanIds.None? &&
                       GetVlanIdByName(name, vlans) == Ok(r.value.pvid))
  {
  }

  /** Any type other than trunk, tagged or untagged is refused. */
  lemma UnknownTypeFails(portName: string, decl: Option<PortDecl>, switchDefault: string, vlans: Vlans)
    requires PortTypeOf(decl) !in {"trunk", "tagged", "untagged"}
    ensures ResolvePort(portName, decl, switchDefault, vlans) == Err(UnknownPortType(portName, PortTypeOf(decl)))
  {
  }

  // ---------------------------------------------------------------------------
  // parse_switch_config

  /** The switch's own `default-vlan` if present, else the global one. */
  function SwitchDefaultVlan(sw: Switch<Option<PortDecl>>, globalDefault: string): string {
    if sw.defaultVlan.Some? then sw.defaultVlan.value else globalDefault
  }

  /**
   * Every port entry replaced by its resolution, in the same order under the same
   * key, stopping at the first port that fails.
   */
  function ResolvePorts(ports: Dict<Option<PortDecl>>, switchDefault: string, vlans: Vlans)
    : Result<Dict<PortConfig>, Error>
  {
    if |ports| == 0 then Ok([])
    else
      var (name, decl) := ports[|ports| - 1];
      match ResolvePorts(ports[..|ports| - 1], switchDefault, vlans)
      case Err(e) => Err(e)
      case Ok(done) =>
        match ResolvePort(name, decl, switchDefault, vlans)
        case Err(e) => Err(e)
        case Ok(p) => Ok(done + [(name, p)])
  }

  /**
   * The ports resolve exactly when each one does on its own, and then the result
   * has the same keys in the same order, each mapped to that port's resolution.
   */
  lemma {:induction false} ResolvePortsSpec(ports: Dict<Option<PortDecl>>, switchDefault: string, vlans: Vlans)
    ensures var r := ResolvePorts(ports, switchDefault, vlans);
            (r.Ok? <==> forall i :: 0 <= i < |ports| ==> ResolvePort(ports[i].0, ports[i].1, switchDefault, vlans).Ok?) &&
            (r.Ok? ==> Keys(r.value) == Keys(ports) &&
                       forall i :: 0 <= i < |ports| ==>
                         ResolvePort(ports[i].0, ports[i].1, switchDefault, vlans) == Ok(r.value[i].1))
  {
    if |ports| > 0 {
      var init := ports[..|ports| - 1];
      var last := ports[|ports| - 1];
      ResolvePortsSpec(init, switchDefault, vlans);
      assert ports == init + [last];
      assert forall i :: 0 <= i < |init| ==> init[i] == ports[i];
      var prev := ResolvePorts(init, switchDefault, vlans);
      var here := ResolvePort(last.0, last.1, switchDefault, vlans);
      if prev.Ok? && here.Ok? {
        ResolvePortsSnoc(init, last, switchDefault, vlans, prev.value, here.value);
      }
    }
  }

  /** One more resolved port keeps the result aligned with the declarations. */
  lemma ResolvePortsSnoc(init: Dict<Option<PortDecl>>, last: (string, Option<PortDecl>), switchDefault: string,
                         vlans: Vlans, done: Dict<PortConfig>, p: PortConfig)
    requires Keys(done) == Keys(init)
    requires forall i :: 0 <= i < |init| ==> ResolvePort(init[i].0, init[i].1, switchDefault, vlans) == Ok(done[i].1)
    requires ResolvePort(last.0, last.1, switchDefault, vlans) == Ok(p)
    ensures Keys(done + [(last.0, p)]) == Keys(init + [last])
    ensures forall i :: 0 <= i < |init| + 1 ==>
              ResolvePort((init + [last])[i].0, (init + [last])[i].1, switchDefault, vlans) == Ok((done + [(last.0, p)])[i].1)
  {
    KeysSnoc(done, (last.0, p));
    KeysSnoc(init, last);
  }

  /** Resolving one more port: the prefix's result extended by that port's resolution, or its error. */
  lemma ResolvePortsStep(ports: Dict<Option<PortDecl>>, i: nat, switchDefault: string, vlans: Vlans,
                         done: Dict<PortConfig>)
    requires i < |ports| && ResolvePorts(ports[..i], switchDefault, vlans) == Ok(done)
    ensures var here := ResolvePort(ports[i].0, ports[i].1, switchDefault, vlans);
            ResolvePorts(ports[..i + 1], switchDefault, vlans) ==
              if here.Ok? then Ok(done + [(ports[i].0, here.value)]) else Err(here.error)
  {
    assert ports[..i + 1][..i] == ports[..i];
  }

  lemma {:induction false} ResolvePortsFailurePersists(ports: Dict<Option<PortDecl>>, j: nat, switchDefault: string, vlans: Vlans)
    requires j <= |ports| && ResolvePorts(ports[..j], switchDefault, vlans).Err?
    ensures ResolvePorts(ports, switchDefault, vlans) == ResolvePorts(ports[..j], switchDefault, vlans)
  {
    if j < |ports| {
      assert ports[..|ports| - 1][..j] == ports[..j];
      ResolvePortsFailurePersists(ports[..|ports| - 1], j, switchDefault, vlans);
    } else {
      assert ports[..j] == ports;
    }
  }

  /** A switch with its ports resolved and all other fields as they were. */
  function ResolveSwitch(sw: Switch<Option<PortDecl>>, vlans: Vlans, globalDefault: string)
    : Result<Switch<PortConfig>, Error>
  {
    match ResolvePorts(sw.ports, SwitchDefaultVlan(sw, globalDefault), vlans)
    case Err(e) => Err(e)
    case Ok(ports) => Ok(Switch(sw.deviceType, sw.ip, sw.username, sw.password, sw.defaultVlan, ports))
  }

  /** `parse_switch_config`: the loop that overwrites each port entry with its resolution. */
  method ParseSwitchConfig(switchName: string, sw: Switch<Option<PortDecl>>, vlans: Vlans, globalDefault: string)
    returns (r: Result<Switch<PortConfig>, Error>)
    ensures r == ResolveSwitch(sw, vlans, globalDefault)
  {
    var switchDefault := globalDefault;
    if sw.defaultVlan.Some? {
      switchDefault := sw.defaultVlan.value;
    }
    assert switchDefault == SwitchDefaultVlan(sw, globalDefault);
    var ports: Dict<PortConfig> := [];
    var i := 0;
    while i < |sw.ports|
      invariant 0 <= i <= |sw.ports|
      invariant ResolvePorts(sw.ports[..i], switchDefault, vlans) == Ok(ports)
    {
      var (portName, decl) := sw.ports[i];
      var port := GetSwitchPortConfig(portName, decl, switchDefault, vlans);
      ResolvePortsStep(sw.ports, i, switchDefault, vlans, ports);
      if port.Err? {
        ResolvePortsFailurePersists(sw.ports, i + 1, switchDefault, vlans);
        return Err(port.error);
      }
      ports := ports + [(portName, port.value)];
      i := i + 1;
    }
    assert sw.ports[..i] == sw.ports;
    assert ResolvePorts(sw.ports, switchDefault, vlans) == Ok(ports);
    r := Ok(Switch(sw.deviceType, sw.ip, sw.username, sw.password, sw.defaultVlan, ports));
  }

  /**
   * A resolved switch keeps its port keys in order and its other fields, and each
   * port is resolved against the switch default, which is the switch's own
   * `default-vlan` or else the global one.
   */
  lemma ResolveSwitchSpec(sw: Switch<Option<PortDecl>>, vlans: Vlans, globalDefault: string)
    ensures var r := ResolveSwitch(sw, vlans, globalDefault);
            var def := if sw.defaultVlan.Some? then sw.defaultVlan.value else globalDefault;
            (r.Ok? <==> forall i :: 0 <= i < |sw.ports| ==> ResolvePort(sw.ports[i].0, sw.ports[i].1, def, vlans).Ok?) &&
            (r.Ok? ==>
              r.value.deviceType == sw.deviceType && r.value.ip == sw.ip &&
              r.value.username == sw.username && r.value.password == sw.password &&
              r.value.defaultVlan == sw.defaultVlan &&
              Keys(r.value.ports) == Keys(sw.ports) &&
              (UniqueKeys(sw.ports) ==> UniqueKeys(r.value.ports)) &&
              forall i :: 0 <= i < |sw.ports| ==>
                ResolvePort(sw.ports[i].0, sw.ports[i].1, def, vlans) == Ok(r.value.ports[i].1) &&
                PortInvariant(r.value.ports[i].1))
  {
    var def := SwitchDefaultVlan(sw, globalDefault);
    ResolvePortsSpec(sw.ports, def, vlans);
    forall i | 0 <= i < |sw.ports| {
      ResolvedPortInvariant(sw.ports[i].0, sw.ports[i].1, def, vlans);
    }
  }

  // ---------------------------------------------------------------------------
  // parse_config

  /** Every switch replaced by its resolution, in order, stopping at the first failure. */
  function ResolveSwitches(switches: Dict<Switch<Option<PortDecl>>>, vlans: Vlans, globalDefault: string)
    : Result<Dict<Switch<PortConfig>>, Error>
  {
    if |switches| == 0 then Ok([])
    else
      var (name, sw) := switches[|switches| - 1];
      match ResolveSwitches(switches[..|switches| - 1], vlans, globalDefault)
      case Err(e) => Err(e)
      case Ok(done) =>
        match ResolveSwitch(sw, vlans, globalDefault)
        case Err(e) => Err(e)
        case Ok(s) => Ok(done + [(name, s)])
  }

  /** Resolved switches keep their keys and order, each mapped to that switch's resolution. */
  lemma {:induction false} ResolveSwitchesSpec(switches: Dict<Switch<Option<PortDecl>>>, vlans: Vlans, globalDefault: string)
    ensures var r := ResolveSwitches(switches, vlans, globalDefault);
            (r.Ok? <==> forall i :: 0 <= i < |switches| ==> ResolveSwitch(switches[i].1, vlans, globalDefault).Ok?) &&
            (r.Ok? ==> Keys(r.value) == Keys(switches) &&
                       forall i :: 0 <= i < |switches| ==> ResolveSwitch(switches[i].1, vlans, globalDefault) == Ok(r.value[i].1))
  {
    if |switches| > 0 {
      var init := switches[..|switches| - 1];
      var last := switches[|switches| - 1];
      ResolveSwitchesSpec(init, vlans, globalDefault);
      assert switches == init + [last];
      assert forall i :: 0 <= i < |init| ==> init[i] == switches[i];
      var prev := ResolveSwitches(init, vlans, globalDefault);
      var here := ResolveSwitch(last.1, vlans, globalDefault);
      if prev.Ok? && here.Ok? {
        ResolveSwitchesSnoc(init, last, vlans, globalDefault, prev.value, here.value);
      }
    }
  }

  /** One more resolved switch keeps the result aligned with the declarations. */
  lemma ResolveSwitchesSnoc(init: Dict<Switch<Option<PortDecl>>>, last: (string, Switch<Option<PortDecl>>),
                            vlans: Vlans, globalDefault: string, done: Dict<Switch<PortConfig>>, s: Switch<PortConfig>)
    requires Keys(done) == Keys(init)
    requires forall i :: 0 <= i < |init| ==> ResolveSwitch(init[i].1, vlans, globalDefault) == Ok(done[i].1)
    requires ResolveSwitch(last.1, vlans, globalDefault) == Ok(s)
    ensures Keys(done + [(last.0, s)]) == Keys(init + [last])
    ensures forall i :: 0 <= i < |init| + 1 ==>
              ResolveSwitch((init + [last])[i].1, vlans, globalDefault) == Ok((done + [(last.0, s)])[i].1)
  {
    KeysSnoc(done, (last.0, s));
    KeysSnoc(init, last);
  }

  /** Resolving one more switch: the prefix's result extended by that switch's resolution, or its error. */
  lemma ResolveSwitchesStep(switches: Dict<Switch<Option<PortDecl>>>, i: nat, vlans: Vlans, globalDefault: string,
                            done: Dict<Switch<PortConfig>>)
    requires i < |switches| && ResolveSwitches(switches[..i], vlans, globalDefault) == Ok(done)
    ensures var here := ResolveSwitch(switches[i].1, vlans, globalDefault);
            ResolveSwitches(switches[..i + 1], vlans, globalDefault) ==
              if here.Ok? then Ok(done + [(switches[i].0, here.value)]) else Err(here.error)
  {
    assert switches[..i + 1][..i] == switches[..i];
  }

  lemma {:induction false} ResolveSwitchesFailurePersists(switches: Dict<Switch<Option<PortDecl>>>, j: nat, vlans: Vlans, globalDefault: string)
    requires j <= |switches| && ResolveSwitches(switches[..j], vlans, globalDefault).Err?
    ensures ResolveSwitches(switches, vlans, globalDefault) == ResolveSwitches(switches[..j], vlans, globalDefault)
  {
    if j < |switches| {
      assert switches[..|switches| - 1][..j] == switches[..j];
      ResolveSwitchesFailurePersists(switches[..|switches| - 1], j, vlans, globalDefault);
    } else {
      assert switches[..j] == switches;
    }
  }

  /**
   * The resolved configuration. The global `default-vlan` is read for every switch,
   * so it is mandatory as soon as there is one switch, even one with its own default.
   */
  function ResolveConfig(config: Config<Option<PortDecl>>): Result<Config<PortConfig>, Error> {
    if |config.switches| == 0 then Ok(Config(config.vlans, config.defaultVlan, []))
    else if config.defaultVlan.None? then Err(KeyMissing("default-vlan"))
    else
      match ResolveSwitches(config.switches, config.vlans, config.defaultVlan.value)
      case Err(e) => Err(e)
      case Ok(switches) => Ok(Config(config.vlans, config.defaultVlan, switches))
  }

  /** `parse_config`: the loop that overwrites each switch entry with its resolution. */
  method ParseConfig(config: Config<Option<PortDecl>>) returns (r: Result<Config<PortConfig>, Error>)
    ensures r == ResolveConfig(config)
  {
    var switches: Dict<Switch<PortConfig>> := [];
    var i := 0;
    while i < |config.switches|
      invariant 0 <= i <= |config.switches|
      invariant i > 0 ==> config.defaultVlan.Some?
      invariant i > 0 ==> ResolveSwitches(config.switches[..i], config.vlans, config.defaultVlan.value) == Ok(switches)
      invariant i == 0 ==> switches == []
    {
      if config.defaultVlan.None? {
        return Err(KeyMissing("default-vlan"));
      }
      var (switchName, sw) := config.switches[i];
      var resolved := ParseSwitchConfig(switchName, sw, config.vlans, config.defaultVlan.value);
      if i == 0 {
        assert config.switches[..0] == [];
      }
      ResolveSwitchesStep(config.switches, i, config.vlans, config.defaultVlan.value, switches);
      if resolved.Err? {
        ResolveSwitchesFailurePersists(config.switches, i + 1, config.vlans, config.defaultVlan.value);
        return Err(resolved.error);
      }
      switches := switches + [(switchName, resolved.value)];
      i := i + 1;
    }
    if i > 0 {
      assert config.switches[..i] == config.switches;
    }
    r := Ok(Config(config.vlans, config.defaultVlan, switches));
  }

  /**
   * A resolved configuration keeps the VLANs, the switch keys and each switch's port
   * keys, and every port of every switch satisfies the PVID-membership invariant.
   */
  lemma ResolvedConfigInvariant(config: Config<Option<PortDecl>>)
    ensures var r := ResolveConfig(config);
            r.Ok? ==>
              r.value.vlans == config.vlans &&
              Keys(r.value.switches) == Keys(config.switches) &&
              forall s :: 0 <= s < |config.switches| ==>
                Keys(r.value.switches[s].1.ports) == Keys(config.switches[s].1.ports) &&
                forall p :: 0 <= p < |r.value.switches[s].1.ports| ==> PortInvariant(r.value.switches[s].1.ports[p].1)
  {
    var r := ResolveConfig(config);
    if r.Ok? && |config.switches| > 0 {
      ResolveSwitchesSpec(config.switches, config.vlans, config.defaultVlan.value);
      forall s | 0 <= s < |config.switches|
        ensures Keys(r.value.switches[s].1.ports) == Keys(config.switches[s].1.ports)
        ensures forall p :: 0 <= p < |r.value.switches[s].1.ports| ==> PortInvariant(r.value.switches[s].1.ports[p].1)
      {
        ResolveSwitchSpec(config.switches[s].1, config.vlans, config.defaultVlan.value);
      }
    }
  }

  /** Two VLANs, `office` = 10 and `iot` = 20; the examples below use `office` as the switch default. */
  const ExampleVlans: Vlans := [("office", Vlan(10)), ("iot", Vlan(20))]

  /** A tagged port carrying only `iot` falls back to PVID 10, which it does not carry. */
  lemma ExampleTaggedWithoutDefault()
    ensures ResolvePort("port1", Some(PortDecl(Some("tagged"), None, Some(["iot"]), None)), "office", ExampleVlans)
            == Err(PvidNotTagged("port1", 10))
  {
    assert GetVlanIdByName("iot", ExampleVlans) == Ok(20);
    assert GetVlanIdByName("office", ExampleVlans) == Ok(10);
    assert ["iot"][..0] == [];
    assert VlanIdsByName([], ExampleVlans) == Ok([]);
    assert [] + [20] == [20];
    assert VlanIdsByName(["iot"], ExampleVlans) == Ok([20]);
  }

  /** A plain untagged port gets the default VLAN as untagged VLAN and PVID. */
  lemma ExampleUntagged()
    ensures ResolvePort("port2", Some(PortDecl(Some("untagged"), None, None, None)), "office", ExampleVlans)
            == Ok(PortConfig("untagged", None, None, None, Some(10), 10))
  {
    assert GetVlanIdByName("office", ExampleVlans) == Ok(10);
  }
}
