/**
 * The driver for TP-Link TL-SG105E switches (and the TL-SG108E and TL-SG108PE, which
 * run the same firmware with eight ports).  It reconciles the switch's live 802.1Q
 * VLAN table with a resolved switch configuration through the web interface.
 *
 * Every HTTP request the driver sends is appended to a `RequestLog`; the pages it
 * reads back are inputs: the text of the system-information page, the text of the
 * VLAN overview page, and the VLAN IDs that the page parser extracts from the second
 * overview read (`None` when the parser finds no `qvlan_ds = ...;` or no `vids`).
 */
module Backend {
  import opened Wrappers
  import opened Dicts
  import opened Strings
  import opened Bits
  import SwitchConf

  type PortConfig = SwitchConf.PortConfig

  /** The supported device families. */
  datatype Model = SG105E | SG108E | SG108PE

  /** `NUM_PHYSICAL_PORTS` of each driver class. */
  function PhysicalPorts(m: Model): nat {
    match m
    case SG105E => 5
    case SG108E => 8
    case SG108PE => 8
  }

  /** Construction is refused from this many declared VLANs on. */
  const MaxVlans := 32

  /** Membership codes of the VLAN form. */
  const SelTypeUntagged := 0
  const SelTypeTagged := 1
  const SelTypeNotAMember := 2

  /** Found on the system-information page only after a successful login. */
  const LoginMarker := "info_ds"
  /** Found on the VLAN overview page while 802.1Q VLANs are disabled. */
  const QvlanDisabledMarker := "var qvlan_ds = {\nstate:0,"

  /** A form or query value. */
  datatype Param = Int(n: int) | Str(s: string)
  type Params = Dict<Param>

  datatype Request = HttpPost(url: string, form: Params) | HttpGet(url: string, params: Params)

  datatype Error =
    | TooManyVlans(switchName: string)
    | LoginFailed(switchName: string)
    | CleanupFailed(switchName: string)   // "Failed while removing old VLANs..."

  /** The device side of the conversation: the requests sent so far, in order. */
  class RequestLog {
    var sent: seq<Request>

    constructor ()
      ensures sent == []
    {
      sent := [];
    }

    method Send(r: Request)
      modifies this
      ensures sent == old(sent) + [r]
    {
      sent := sent + [r];
    }
  }

  // ---------------------------------------------------------------------------
  // URLs and the fixed requests

  /** `build_url`: the address of a page of the switch's web interface. */
  function BuildUrl(ip: string, path: string): string {
    "http://" + ip + "/" + path
  }

  /** Distinct pages of one switch have distinct URLs, and the page is recovered from its URL. */
  lemma BuildUrlInjective(ip: string, p: string, q: string)
    ensures BuildUrl(ip, p)[|ip| + 8..] == p
    ensures BuildUrl(ip, p) == BuildUrl(ip, q) ==> p == q
  {
    PrefixCancel("http://" + ip + "/", p, q);
  }

  function LoginRequests(ip: string, username: string, password: string): seq<Request> {
    [ HttpPost(BuildUrl(ip, "logon.cgi"),
               [("username", Str(username)), ("password", Str(password)), ("cpassword", Str("")), ("logon", Str("Login"))]),
      HttpGet(BuildUrl(ip, "SystemInfoRpm.htm"), []) ]
  }

  function OverviewRequest(ip: string): Request {
    HttpGet(BuildUrl(ip, "Vlan8021QRpm.htm"), [])
  }

  function EnableRequest(ip: string): Request {
    HttpGet(BuildUrl(ip, "qvlanSet.cgi"), [("qvlan_en", Int(1)), ("qvlan_mode", Str("Apply"))])
  }

  // ---------------------------------------------------------------------------
  // The VLAN add/modify requests

  /** `'selType_' + str(k)`. */
  function SelKey(k: nat): string {
    "selType_" + NatToString(k)
  }

  /** `'port' + str(k)`. */
  function PortName(k: nat): string {
    "port" + NatToString(k)
  }

  lemma SelKeyInjective(a: nat, b: nat)
    ensures SelKey(a) == SelKey(b) ==> a == b
  {
    PrefixCancel("selType_", NatToString(a), NatToString(b));
    NatToStringInjective(a, b);
  }

  lemma PortNameInjective(a: nat, b: nat)
    ensures PortName(a) == PortName(b) ==> a == b
  {
    PrefixCancel("port", NatToString(a), NatToString(b));
    NatToStringInjective(a, b);
  }

  /**
   * The VLAN name as sent: its alphanumeric characters, in order, cut to ten.
   */
  function SanitizeVlanName(name: string): (r: string)
    ensures |r| == if |FilterAlnum(name)| <= 10 then |FilterAlnum(name)| else 10
    ensures forall i :: 0 <= i < |r| ==> IsAlnum(r[i])
    ensures r <= FilterAlnum(name)
    ensures |FilterAlnum(name)| <= 10 ==> r == FilterAlnum(name)
  {
    var f := FilterAlnum(name);
    if |f| <= 10 then f else f[..10]
  }

  /** Sanitizing drops only characters of `name` (keeping order), and a clean name is kept. */
  lemma SanitizeVlanNameSpec(name: string)
    ensures IsSubsequence(FilterAlnum(name), name)
    ensures (|name| <= 10 && forall i :: 0 <= i < |name| ==> IsAlnum(name[i])) ==> SanitizeVlanName(name) == name
    ensures SanitizeVlanName(SanitizeVlanName(name)) == SanitizeVlanName(name)
  {
    FilterAlnumSpec(name);
    if |name| <= 10 && forall i :: 0 <= i < |name| ==> IsAlnum(name[i]) {
      FilterAlnumFixed(name);
    }
    FilterAlnumFixed(SanitizeVlanName(name));
  }

  /** The membership code of one resolved port for VLAN `vid`: untagged wins over tagged. */
  function PortCode(p: PortConfig, vid: int): int {
    if p.untaggedVlanId == Some(vid) then SelTypeUntagged
    else if p.taggedVlanIds.Some? && vid in p.taggedVlanIds.value then SelTypeTagged
    else SelTypeNotAMember
  }

  /** The code of physical port k for VLAN `vid`; a port without a `port<k>` entry is not a member. */
  function MembershipCode(ports: Dict<PortConfig>, k: nat, vid: int): int {
    match Get(ports, PortName(k))
    case None => SelTypeNotAMember
    case Some(p) => PortCode(p, vid)
  }

  /** The `selType_1` .. `selType_n` entries, in port order. */
  function SelTypes(ports: Dict<PortConfig>, vid: int, n: nat): (ps: Params)
    ensures |ps| == n
    ensures forall i :: 0 <= i < n ==> ps[i] == (SelKey(i + 1), Int(MembershipCode(ports, i + 1, vid)))
  {
    if n == 0 then [] else SelTypes(ports, vid, n - 1) + [(SelKey(n), Int(MembershipCode(ports, n, vid)))]
  }

  function VlanBase(vlanName: string, vid: int): Params {
    [("vid", Int(vid)), ("vname", Str(SanitizeVlanName(vlanName))), ("qvlan_add", Str("Add%2FModify"))]
  }

  /** The query of the add/modify request for one VLAN. */
  function VlanParams(vlanName: string, vid: int, ports: Dict<PortConfig>, n: nat): Params {
    VlanBase(vlanName, vid) + SelTypes(ports, vid, n)
  }

  function VlanRequest(ip: string, vlanName: string, vid: int, ports: Dict<PortConfig>, n: nat): Request {
    HttpGet(BuildUrl(ip, "qvlanSet.cgi"), VlanParams(vlanName, vid, ports, n))
  }

  /** No `selType_k` key is among the keys already in the request before port k is handled. */
  lemma SelKeyFresh(vlanName: string, vid: int, ports: Dict<PortConfig>, k: nat)
    requires k >= 1
    ensures SelKey(k) !in Keys(VlanBase(vlanName, vid) + SelTypes(ports, vid, k - 1))
  {
    var ps := VlanBase(vlanName, vid) + SelTypes(ports, vid, k - 1);
    assert SelKey(k)[0] == 's';
    forall i | 0 <= i < |ps| ensures ps[i].0 != SelKey(k) {
      if i >= 3 {
        SelKeyInjective(i - 2, k);
      } else {
        assert ps[i].0[0] != 's';
      }
    }
  }

  /** The query opens with the VLAN's ID, its sanitized name and the add/modify action, in that order. */
  lemma VlanParamsHead(vlanName: string, vid: int, ports: Dict<PortConfig>, n: nat)
    ensures var ps := VlanParams(vlanName, vid, ports, n);
            |ps| == 3 + n &&
            ps[..3] == [("vid", Int(vid)), ("vname", Str(SanitizeVlanName(vlanName))), ("qvlan_add", Str("Add%2FModify"))]
  {
  }

  /** The i-th key of the add/modify query: the three fixed keys, then `selType_1` .. `selType_n`. */
  lemma VlanParamsKey(vlanName: string, vid: int, ports: Dict<PortConfig>, n: nat, i: nat)
    requires i < 3 + n
    ensures |VlanParams(vlanName, vid, ports, n)| == 3 + n
    ensures i < 3 ==> VlanParams(vlanName, vid, ports, n)[i].0[0] != 's'
    ensures i >= 3 ==> VlanParams(vlanName, vid, ports, n)[i].0 == SelKey(i - 2)
  {
  }

  /** No key of the add/modify query occurs twice. */
  lemma VlanParamsUnique(vlanName: string, vid: int, ports: Dict<PortConfig>, n: nat)
    ensures UniqueKeys(VlanParams(vlanName, vid, ports, n))
  {
    var ps := VlanParams(vlanName, vid, ports, n);
    forall i, j | 0 <= i < j < |ps| ensures ps[i].0 != ps[j].0 {
      VlanParamsKey(vlanName, vid, ports, n, i);
      VlanParamsKey(vlanName, vid, ports, n, j);
      if i >= 3 {
        SelKeyInjective(i - 2, j - 2);
      } else if j >= 3 {
        assert ps[j].0[0] == 's';
      }
    }
  }

  /**
   * The add/modify query carries the VLAN's ID, its sanitized name and the add/modify
   * action, and exactly one `selType_k` entry for each physical port k in 1..n,
   * holding that port's code.
   */
  lemma VlanParamsEntries(vlanName: string, vid: int, ports: Dict<PortConfig>, n: nat, k: nat)
    ensures var ps := VlanParams(vlanName, vid, ports, n);
            UniqueKeys(ps) &&
            Get(ps, "vid") == Some(Int(vid)) &&
            Get(ps, "vname") == Some(Str(SanitizeVlanName(vlanName))) &&
            Get(ps, "qvlan_add") == Some(Str("Add%2FModify")) &&
            Get(ps, SelKey(k)) == if 1 <= k <= n then Some(Int(MembershipCode(ports, k, vid))) else None
  {
    VlanParamsUnique(vlanName, vid, ports, n);
    VlanParamsFixed(vlanName, vid, ports, n);
    VlanParamsSelType(vlanName, vid, ports, n, k);
  }

  /** The query's `vid` and `vname` entries, and the `qvlan_add` entry that makes it an add/modify. */
  lemma VlanParamsFixed(vlanName: string, vid: int, ports: Dict<PortConfig>, n: nat)
    ensures var ps := VlanParams(vlanName, vid, ports, n);
            Get(ps, "vid") == Some(Int(vid)) && Get(ps, "vname") == Some(Str(SanitizeVlanName(vlanName))) &&
            Get(ps, "qvlan_add") == Some(Str("Add%2FModify"))
  {
    var ps := VlanParams(vlanName, vid, ports, n);
    VlanParamsUnique(vlanName, vid, ports, n);
    GetAt(ps, 0);
    GetAt(ps, 1);
    GetAt(ps, 2);
  }

  /** The query's `selType_k` entry: present for ports 1..n only, holding the port's membership code. */
  lemma VlanParamsSelType(vlanName: string, vid: int, ports: Dict<PortConfig>, n: nat, k: nat)
    ensures Get(VlanParams(vlanName, vid, ports, n), SelKey(k)) ==
            if 1 <= k <= n then Some(Int(MembershipCode(ports, k, vid))) else None
  {
    if 1 <= k <= n {
      SelKeyPresent(vlanName, vid, ports, n, k);
    } else {
      SelKeyAbsent(vlanName, vid, ports, n, k);
    }
  }

  /** Port k of 1..n finds its membership code under `selType_k`. */
  lemma SelKeyPresent(vlanName: string, vid: int, ports: Dict<PortConfig>, n: nat, k: nat)
    requires 1 <= k <= n
    ensures Get(VlanParams(vlanName, vid, ports, n), SelKey(k)) == Some(Int(MembershipCode(ports, k, vid)))
  {
    var ps := VlanParams(vlanName, vid, ports, n);
    VlanParamsAt(vlanName, vid, ports, n, k - 1);
    VlanParamsUnique(vlanName, vid, ports, n);
    GetAt(ps, k + 2);
  }

  /** Past the three fixed entries, the query holds port i + 1's `selType` entry. */
  lemma VlanParamsAt(vlanName: string, vid: int, ports: Dict<PortConfig>, n: nat, i: nat)
    requires i < n
    ensures |VlanParams(vlanName, vid, ports, n)| == 3 + n
    ensures VlanParams(vlanName, vid, ports, n)[i + 3] == (SelKey(i + 1), Int(MembershipCode(ports, i + 1, vid)))
  {
    var base := VlanBase(vlanName, vid);
    var sel := SelTypes(ports, vid, n);
    assert |base| == 3;
    assert (base + sel)[i + 3] == sel[i];
  }

  /** Only ports 1..n have a `selType_k` key in the query. */
  lemma SelKeyAbsent(vlanName: string, vid: int, ports: Dict<PortConfig>, n: nat, k: nat)
    requires !(1 <= k <= n)
    ensures SelKey(k) !in Keys(VlanParams(vlanName, vid, ports, n))
  {
    var ps := VlanParams(vlanName, vid, ports, n);
    forall i | 0 <= i < |ps| ensures ps[i].0 != SelKey(k) {
      VlanParamsKey(vlanName, vid, ports, n, i);
      if i >= 3 {
        SelKeyInjective(i - 2, k);
      } else {
        assert SelKey(k)[0] == 's';
      }
    }
  }

  /** The add/modify requests for the declared VLANs. */
  function AddRequests(ip: string, vlans: SwitchConf.Vlans, ports: Dict<PortConfig>, n: nat): seq<Request> {
    if |vlans| == 0 then []
    else
      var last := vlans[|vlans| - 1];
      AddRequests(ip, vlans[..|vlans| - 1], ports, n) + [VlanRequest(ip, last.0, last.1.vlanId, ports, n)]
  }

  /** Exactly one add/modify request per declared VLAN, in declaration order. */
  lemma {:induction false} AddRequestsSpec(ip: string, vlans: SwitchConf.Vlans, ports: Dict<PortConfig>, n: nat)
    ensures |AddRequests(ip, vlans, ports, n)| == |vlans|
    ensures forall i :: 0 <= i < |vlans| ==>
              AddRequests(ip, vlans, ports, n)[i] == VlanRequest(ip, vlans[i].0, vlans[i].1.vlanId, ports, n)
  {
    if |vlans| > 0 {
      AddRequestsSpec(ip, vlans[..|vlans| - 1], ports, n);
    }
  }

  /** Scanning the ports in order yields the membership code of the one `port<k>` entry. */
  lemma MembershipCodeStep(ports: Dict<PortConfig>, j: nat, k: nat, vid: int)
    requires UniqueKeys(ports) && j < |ports|
    ensures ports[j].0 == PortName(k) ==> MembershipCode(ports[..j], k, vid) == SelTypeNotAMember
    ensures MembershipCode(ports[..j + 1], k, vid) ==
            if ports[j].0 == PortName(k) then PortCode(ports[j].1, vid) else MembershipCode(ports[..j], k, vid)
  {
    GetPrefixStep(ports, j, PortName(k));
  }

  /**
   * The inner loop for physical port k: `selType_k` is added as "not a member", and
   * then overwritten to tagged and to untagged when the `port<k>` entry says so.
   */
  method PutPortSelType(request: Params, ports: Dict<PortConfig>, k: nat, vid: int) returns (updated: Params)
    requires UniqueKeys(ports) && SelKey(k) !in Keys(request)
    ensures updated == request + [(SelKey(k), Int(MembershipCode(ports, k, vid)))]
  {
    var key := SelKey(k);
    PutFresh(request, key, Int(SelTypeNotAMember));
    updated := Put(request, key, Int(SelTypeNotAMember));
    var j := 0;
    while j < |ports|
      invariant 0 <= j <= |ports|
      invariant updated == request + [(key, Int(MembershipCode(ports[..j], k, vid)))]
    {
      var (portName, portConfig) := ports[j];
      MembershipCodeStep(ports, j, k, vid);
      if portName == PortName(k) {
        if portConfig.taggedVlanIds.Some? && vid in portConfig.taggedVlanIds.value {
          PutLast(request, key, updated[|updated| - 1].1, Int(SelTypeTagged));
          updated := Put(updated, key, Int(SelTypeTagged));
        }
        if portConfig.untaggedVlanId.Some? && portConfig.untaggedVlanId.value == vid {
          PutLast(request, key, updated[|updated| - 1].1, Int(SelTypeUntagged));
          updated := Put(updated, key, Int(SelTypeUntagged));
        }
      }
      j := j + 1;
    }
    assert ports[..j] == ports;
  }

  /** The request dictionary of one VLAN, built by the loop over physical ports 1..n. */
  method BuildVlanParams(vlanName: string, vid: int, ports: Dict<PortConfig>, n: nat) returns (request: Params)
    requires UniqueKeys(ports)
    ensures request == VlanParams(vlanName, vid, ports, n)
  {
    request := [("vid", Int(vid)), ("vname", Str(SanitizeVlanName(vlanName))), ("qvlan_add", Str("Add%2FModify"))];
    ghost var base := request;
    var k := 1;
    while k <= n
      invariant 1 <= k <= n + 1
      invariant request == base + SelTypes(ports, vid, k - 1)
    {
      SelKeyFresh(vlanName, vid, ports, k);
      request := PutPortSelType(request, ports, k, vid);
      assert base + SelTypes(ports, vid, k) == base + SelTypes(ports, vid, k - 1) + [(SelKey(k), Int(MembershipCode(ports, k, vid)))];
      k := k + 1;
    }
  }

  // ---------------------------------------------------------------------------
  // The PVID requests

  /** The PVID set on physical port k: the `pvid` of its `port<k>` entry, or 1. */
  function PortPvid(ports: Dict<PortConfig>, k: nat): int {
    match Get(ports, PortName(k))
    case None => 1
    case Some(p) => p.pvid
  }

  function PvidRequest(ip: string, ports: Dict<PortConfig>, k: nat): Request
    requires k >= 1
  {
    HttpGet(BuildUrl(ip, "vlanPvidSet.cgi"), [("pbm", Int(Pow2(k - 1))), ("pvid", Int(PortPvid(ports, k)))])
  }

  /** The PVID requests for physical ports 1..n. */
  function PvidRequests(ip: string, ports: Dict<PortConfig>, n: nat): seq<Request> {
    if n == 0 then [] else PvidRequests(ip, ports, n - 1) + [PvidRequest(ip, ports, n)]
  }

  /** Exactly one PVID request per physical port, ports 1..n in order. */
  lemma {:induction false} PvidRequestsSpec(ip: string, ports: Dict<PortConfig>, n: nat)
    ensures |PvidRequests(ip, ports, n)| == n
    ensures forall i :: 0 <= i < n ==> PvidRequests(ip, ports, n)[i] == PvidRequest(ip, ports, i + 1)
  {
    if n > 0 {
      PvidRequestsSpec(ip, ports, n - 1);
    }
  }

  /**
   * The PVID request for port k addresses that port alone: its bitmask has exactly
   * bit k-1 set, so the requests for two ports never share a mask.
   */
  lemma PvidMaskOneHot(ip: string, ports: Dict<PortConfig>, k: nat, m: nat, b: nat)
    requires k >= 1 && m >= 1
    ensures var pbm := PvidRequest(ip, ports, k).params[0];
            pbm == ("pbm", Int(Pow2(k - 1))) &&
            BitAt(Pow2(k - 1), b) == (if b == k - 1 then 1 else 0) &&
            (k != m ==> pbm != PvidRequest(ip, ports, m).params[0])
  {
    Pow2OneHot(k - 1, b);
    Pow2Injective(k - 1, m - 1);
  }

  /** The loop that looks for `port<k>` among the configured ports, starting from PVID 1. */
  method LookupPortPvid(ports: Dict<PortConfig>, k: nat) returns (pvid: int)
    requires UniqueKeys(ports)
    ensures pvid == PortPvid(ports, k)
  {
    pvid := 1;
    var j := 0;
    while j < |ports|
      invariant 0 <= j <= |ports|
      invariant pvid == PortPvid(ports[..j], k)
    {
      GetPrefixStep(ports, j, PortName(k));
      if ports[j].0 == PortName(k) {
        pvid := ports[j].1.pvid;
      }
      j := j + 1;
    }
    assert ports[..j] == ports;
  }

  /**
   * The device is told that every configured port carries its own PVID VLAN: for a
   * port resolved with the PVID-membership invariant, the membership code sent for
   * the VLAN whose ID is its PVID is untagged or tagged.
   */
  lemma PvidVlanIsMember(ports: Dict<PortConfig>, k: nat)
    requires PortName(k) in Keys(ports)
    requires forall i :: 0 <= i < |ports| ==> SwitchConf.PortInvariant(ports[i].1)
    ensures MembershipCode(ports, k, PortPvid(ports, k)) != SelTypeNotAMember
  {
    var p := Get(ports, PortName(k)).value;
    assert (PortName(k), p) in ports;
  }

  /** A physical port with no `port<k>` entry is not a member of any VLAN and gets PVID 1. */
  lemma UnconfiguredPort(ports: Dict<PortConfig>, k: nat, vid: int)
    requires PortName(k) !in Keys(ports)
    ensures MembershipCode(ports, k, vid) == SelTypeNotAMember && PortPvid(ports, k) == 1
  {
  }

  // ---------------------------------------------------------------------------
  // Removal of VLANs that are no longer declared

  /** The live VLAN IDs, in device order, that no declared VLAN has. */
  function StaleVids(live: seq<int>, vlans: SwitchConf.Vlans): seq<int> {
    if |live| == 0 then []
    else (if live[0] in SwitchConf.AllVlanIds(vlans) then [] else [live[0]]) + StaleVids(live[1..], vlans)
  }

  /**
   * The stale IDs are exactly the live IDs that are not declared, kept in device
   * order: the result is a subsequence of the live list.
   */
  lemma {:induction false} StaleVidsSpec(live: seq<int>, vlans: SwitchConf.Vlans)
    ensures forall v :: v in StaleVids(live, vlans) <==> v in live && v !in SwitchConf.AllVlanIds(vlans)
    ensures IsSubsequence(StaleVids(live, vlans), live)
  {
    if |live| > 0 {
      var rest := StaleVids(live[1..], vlans);
      StaleVidsSpec(live[1..], vlans);
      assert live == [live[0]] + live[1..];
      if live[0] in SwitchConf.AllVlanIds(vlans) {
        assert StaleVids(live, vlans) == rest;
        SubsequenceOfTail(rest, live);
      } else {
        assert ([live[0]] + rest)[1..] == rest;
      }
    }
  }

  /** The stale IDs of a longer device list: those of the shorter one, then possibly the new ID. */
  lemma {:induction false} StaleVidsAppend(live: seq<int>, v: int, vlans: SwitchConf.Vlans)
    ensures StaleVids(live + [v], vlans) ==
            StaleVids(live, vlans) + (if v in SwitchConf.AllVlanIds(vlans) then [] else [v])
  {
    if |live| > 0 {
      assert (live + [v])[1..] == live[1..] + [v];
      StaleVidsAppend(live[1..], v, vlans);
    }
  }

  function DeleteRequest(ip: string, vid: int): Request {
    HttpGet(BuildUrl(ip, "qvlanSet.cgi"), [("selVlans", Int(vid)), ("qvlan_del", Str("Delete"))])
  }

  /** One delete request per stale VLAN ID, in device order. */
  function DeleteRequests(ip: string, live: seq<int>, vlans: SwitchConf.Vlans): seq<Request> {
    var stale := StaleVids(live, vlans);
    seq(|stale|, i requires 0 <= i < |stale| => DeleteRequest(ip, stale[i]))
  }

  /** The delete requests for a longer device list: those for the shorter one, then possibly one for the new ID. */
  lemma DeleteRequestsAppend(ip: string, live: seq<int>, v: int, vlans: SwitchConf.Vlans)
    ensures DeleteRequests(ip, live + [v], vlans) ==
            DeleteRequests(ip, live, vlans) + (if v in SwitchConf.AllVlanIds(vlans) then [] else [DeleteRequest(ip, v)])
  {
    StaleVidsAppend(live, v, vlans);
  }

  /** A declared VLAN is never deleted, and every live VLAN that is not declared is. */
  lemma CleanupDeletesExactlyStale(ip: string, live: seq<int>, vlans: SwitchConf.Vlans, vid: int)
    ensures DeleteRequest(ip, vid) in DeleteRequests(ip, live, vlans) <==>
            vid in live && vid !in SwitchConf.AllVlanIds(vlans)
  {
    var rs := DeleteRequests(ip, live, vlans);
    var stale := StaleVids(live, vlans);
    StaleVidsSpec(live, vlans);
    if DeleteRequest(ip, vid) in rs {
      var i :| 0 <= i < |rs| && rs[i] == DeleteRequest(ip, vid);
      assert stale[i] == vid;
    }
    if vid in stale {
      var i :| 0 <= i < |stale| && stale[i] == vid;
      assert rs[i] == DeleteRequest(ip, vid);
    }
  }

  /** The loop that sets `vlan_should_exist` when a declared VLAN has the live ID. */
  method VlanShouldExist(vid: int, vlans: SwitchConf.Vlans) returns (shouldExist: bool)
    ensures shouldExist <==> vid in SwitchConf.AllVlanIds(vlans)
  {
    shouldExist := false;
    var i := 0;
    while i < |vlans|
      invariant 0 <= i <= |vlans|
      invariant shouldExist <==> exists j :: 0 <= j < i && vlans[j].1.vlanId == vid
    {
      if vid == vlans[i].1.vlanId {
        shouldExist := true;
      }
      i := i + 1;
    }
  }

  /** Live VLANs 10, 20 and 99 against declared 10 and 20: one delete request, for 99. */
  lemma ExampleCleanup(ip: string)
    ensures DeleteRequests(ip, [10, 20, 99], SwitchConf.ExampleVlans) == [DeleteRequest(ip, 99)]
  {
    var ids := SwitchConf.AllVlanIds(SwitchConf.ExampleVlans);
    assert ids == [10, 20];
    assert [10, 20, 99][..2] == [10, 20];
    assert [10, 20][..1] == [10];
    assert [10][..0] == [];
    assert StaleVids([10, 20, 99], SwitchConf.ExampleVlans) == [99];
  }

  // ---------------------------------------------------------------------------
  // The whole deployment

  /** The overview read that opens the configuration phase, then the 802.1Q enable if the page shows it off. */
  function SetupRequests(ip: string, overviewPage: string): seq<Request> {
    [OverviewRequest(ip)] + (if Contains(overviewPage, QvlanDisabledMarker) then [EnableRequest(ip)] else [])
  }

  /** The requests of the configuration phase: overview read, 802.1Q enable if needed, VLANs, PVIDs. */
  function ConfigureRequests(ip: string, ports: Dict<PortConfig>, vlans: SwitchConf.Vlans, n: nat,
                             overviewPage: string): seq<Request>
  {
    SetupRequests(ip, overviewPage) + AddRequests(ip, vlans, ports, n) + PvidRequests(ip, ports, n)
  }

  /** The requests of the cleanup phase: overview read, then the deletions if the page could be parsed. */
  function CleanupRequests(ip: string, vlans: SwitchConf.Vlans, liveVids: Option<seq<int>>): seq<Request> {
    [OverviewRequest(ip)] + (if liveVids.Some? then DeleteRequests(ip, liveVids.value, vlans) else [])
  }

  /** Every request `deploy_config` sends, in order. */
  function DeployRequests(ip: string, ports: Dict<PortConfig>, vlans: SwitchConf.Vlans, n: nat,
                          overviewPage: string, liveVids: Option<seq<int>>): seq<Request>
  {
    ConfigureRequests(ip, ports, vlans, n, overviewPage) + CleanupRequests(ip, vlans, liveVids)
  }

  /** The enable request is none of the VLAN, PVID or cleanup requests (its first query key differs). */
  lemma EnableRequestDistinct(ip: string, ports: Dict<PortConfig>, vlans: SwitchConf.Vlans, n: nat,
                              liveVids: Option<seq<int>>)
    ensures EnableRequest(ip) !in AddRequests(ip, vlans, ports, n)
    ensures EnableRequest(ip) !in PvidRequests(ip, ports, n)
    ensures EnableRequest(ip) !in CleanupRequests(ip, vlans, liveVids)
  {
    var e := EnableRequest(ip);
    assert e.params[0].0 == "qvlan_en";
    var adds := AddRequests(ip, vlans, ports, n);
    assert e !in adds by {
      AddRequestsSpec(ip, vlans, ports, n);
      forall i | 0 <= i < |adds| ensures adds[i] != e {
        assert adds[i].params[0].0 == "vid";
      }
    }
    var pvids := PvidRequests(ip, ports, n);
    assert e !in pvids by {
      PvidRequestsSpec(ip, ports, n);
      forall i | 0 <= i < |pvids| ensures pvids[i] != e {
        assert pvids[i].params[0].0 == "pbm";
      }
    }
    var dels := if liveVids.Some? then DeleteRequests(ip, liveVids.value, vlans) else [];
    assert e !in dels by {
      forall i | 0 <= i < |dels| ensures dels[i] != e {
        assert dels[i].params[0].0 == "selVlans";
      }
    }
    assert CleanupRequests(ip, vlans, liveVids) == [OverviewRequest(ip)] + dels;
  }

  /** The whole log is the setup requests, then the VLAN requests, then the rest. */
  lemma DeployShape(ip: string, ports: Dict<PortConfig>, vlans: SwitchConf.Vlans, n: nat,
                    overviewPage: string, liveVids: Option<seq<int>>)
    ensures DeployRequests(ip, ports, vlans, n, overviewPage, liveVids) ==
            SetupRequests(ip, overviewPage) + AddRequests(ip, vlans, ports, n) +
            (PvidRequests(ip, ports, n) + CleanupRequests(ip, vlans, liveVids))
  {
    AppendAssoc(SetupRequests(ip, overviewPage) + AddRequests(ip, vlans, ports, n),
                PvidRequests(ip, ports, n), CleanupRequests(ip, vlans, liveVids));
  }

  /**
   * The enable request is sent exactly when the overview page shows 802.1Q disabled,
   * right after that page is read and before the first VLAN request, and the VLAN
   * requests follow in declaration order.
   */
  lemma DeployOrder(ip: string, ports: Dict<PortConfig>, vlans: SwitchConf.Vlans, n: nat,
                    overviewPage: string, liveVids: Option<seq<int>>)
    ensures var log := DeployRequests(ip, ports, vlans, n, overviewPage, liveVids);
            var disabled := Contains(overviewPage, QvlanDisabledMarker);
            var first := if disabled then 2 else 1;
            log[0] == OverviewRequest(ip) &&
            (EnableRequest(ip) in log <==> disabled) &&
            (disabled ==> log[1] == EnableRequest(ip)) &&
            first + |vlans| <= |log| &&
            log[first..first + |vlans|] == AddRequests(ip, vlans, ports, n)
  {
    var adds := AddRequests(ip, vlans, ports, n);
    var tail := PvidRequests(ip, ports, n) + CleanupRequests(ip, vlans, liveVids);
    AddRequestsSpec(ip, vlans, ports, n);
    DeployShape(ip, ports, vlans, n, overviewPage, liveVids);
    EnableRequestDistinct(ip, ports, vlans, n, liveVids);
    SetupOrder(OverviewRequest(ip), EnableRequest(ip), Contains(overviewPage, QvlanDisabledMarker), adds, tail);
  }

  /** A log made of an opening entry, an optional second one, a middle part and the rest. */
  lemma SetupOrder<T>(o: T, e: T, present: bool, mid: seq<T>, rest: seq<T>)
    requires e != o && e !in mid && e !in rest
    ensures var log := [o] + (if present then [e] else []) + mid + rest;
            var first := if present then 2 else 1;
            log[0] == o &&
            (e in log <==> present) &&
            (present ==> log[1] == e) &&
            first + |mid| <= |log| &&
            log[first..first + |mid|] == mid
  {
    var head := [o] + (if present then [e] else []);
    AppendSlice(head, mid, rest);
    assert e in head <==> present;
  }

  /** Concatenation of three logs, grouped either way. */
  lemma AppendAssoc<T>(a: seq<T>, b: seq<T>, c: seq<T>)
    ensures a + b + c == a + (b + c)
  {
  }

  /** The middle part of a three-part concatenation is the slice at its offset. */
  lemma AppendSlice<T>(a: seq<T>, b: seq<T>, c: seq<T>)
    ensures |a| + |b| <= |a + b + c|
    ensures (a + b + c)[..|a|] == a
    ensures (a + b + c)[|a|..|a| + |b|] == b
  {
  }

  class TLSG105E {
    const model: Model
    const name: string
    const ip: string
    const username: string
    const password: string
    const numPorts: nat
    const http: RequestLog
    /** Set once the VLAN-count guard and the login check have both passed, as for a constructed Python driver. */
    ghost var connected: bool

    /** The field set-up and login of `__init__`: a login form post, then the system-information page. */
    constructor (model: Model, name: string, config: SwitchConf.Switch<PortConfig>, http: RequestLog)
      modifies http
      ensures this.model == model && this.name == name && this.ip == config.ip
      ensures this.username == config.username && this.password == config.password
      ensures this.numPorts == PhysicalPorts(model) && this.http == http
      ensures http.sent == old(http.sent) + LoginRequests(config.ip, config.username, config.password)
      ensures !connected
    {
      this.model := model;
      this.name := name;
      this.ip := config.ip;
      this.username := config.username;
      this.password := config.password;
      this.numPorts := PhysicalPorts(model);
      this.http := http;
      this.connected := false;
      new;
      http.Send(HttpPost(BuildUrl(ip, "logon.cgi"),
        [("username", Str(username)), ("password", Str(password)), ("cpassword", Str("")), ("logon", Str("Login"))]));
      http.Send(HttpGet(BuildUrl(ip, "SystemInfoRpm.htm"), []));
    }

    /**
     * `TLSG105E(name, config, vlans)`: refused before any request with 32 or more
     * VLANs; otherwise logs in, and is refused when the system-information page
     * read back lacks the login marker.
     */
    static method Connect(model: Model, name: string, config: SwitchConf.Switch<PortConfig>,
                          vlans: SwitchConf.Vlans, http: RequestLog, systemInfoPage: string)
      returns (r: Result<TLSG105E, Error>)
      modifies http
      ensures |vlans| >= MaxVlans ==> r == Err(TooManyVlans(name)) && http.sent == old(http.sent)
      ensures |vlans| < MaxVlans ==>
                http.sent == old(http.sent) + LoginRequests(config.ip, config.username, config.password) &&
                (r.Ok? <==> Contains(systemInfoPage, LoginMarker)) &&
                (r.Err? ==> r.error == LoginFailed(name))
      ensures r.Ok? ==> |vlans| <= 31 && fresh(r.value) && r.value.http == http &&
                        r.value.name == name && r.value.ip == config.ip &&
                        r.value.username == config.username && r.value.password == config.password &&
                        r.value.numPorts == PhysicalPorts(model) && r.value.connected
    {
      if |vlans| >= MaxVlans {
        return Err(TooManyVlans(name));
      }
      var driver := new TLSG105E(model, name, config, http);
      if !Contains(systemInfoPage, LoginMarker) {
        return Err(LoginFailed(name));
      }
      driver.connected := true;
      r := Ok(driver);
    }

    /** The loop over the declared VLANs: one add/modify request each. */
    method SendVlanRequests(ports: Dict<PortConfig>, vlans: SwitchConf.Vlans)
      requires UniqueKeys(ports)
      requires connected
      modifies http
      ensures http.sent == old(http.sent) + AddRequests(ip, vlans, ports, numPorts)
    {
      var i := 0;
      while i < |vlans|
        invariant 0 <= i <= |vlans|
        invariant http.sent == old(http.sent) + AddRequests(ip, vlans[..i], ports, numPorts)
      {
        var (vlanName, vlan) := vlans[i];
        var request := BuildVlanParams(vlanName, vlan.vlanId, ports, numPorts);
        http.Send(HttpGet(BuildUrl(ip, "qvlanSet.cgi"), request));
        assert vlans[..i + 1][..i] == vlans[..i];
        i := i + 1;
      }
      assert vlans[..i] == vlans;
    }

    /** The loop over physical ports 1..N: one PVID request each, addressed by `1 << (k - 1)`. */
    method SendPvidRequests(ports: Dict<PortConfig>)
      requires UniqueKeys(ports)
      requires connected
      modifies http
      ensures http.sent == old(http.sent) + PvidRequests(ip, ports, numPorts)
    {
      var k := 1;
      while k <= numPorts
        invariant 1 <= k <= numPorts + 1
        invariant http.sent == old(http.sent) + PvidRequests(ip, ports, k - 1)
      {
        var pvid := LookupPortPvid(ports, k);
        http.Send(HttpGet(BuildUrl(ip, "vlanPvidSet.cgi"), [("pbm", Int(Pow2(k - 1))), ("pvid", Int(pvid))]));
        k := k + 1;
      }
    }

    /** The loop over the live VLAN IDs: a delete request for each one that is not declared. */
    method SendDeleteRequests(live: seq<int>, vlans: SwitchConf.Vlans)
      requires connected
      modifies http
      ensures http.sent == old(http.sent) + DeleteRequests(ip, live, vlans)
    {
      var j := 0;
      while j < |live|
        invariant 0 <= j <= |live|
        invariant http.sent == old(http.sent) + DeleteRequests(ip, live[..j], vlans)
      {
        var vid := live[j];
        var shouldExist := VlanShouldExist(vid, vlans);
        assert live[..j + 1] == live[..j] + [vid];
        DeleteRequestsAppend(ip, live[..j], vid, vlans);
        if !shouldExist {
          http.Send(HttpGet(BuildUrl(ip, "qvlanSet.cgi"), [("selVlans", Int(vid)), ("qvlan_del", Str("Delete"))]));
        }
        j := j + 1;
      }
      assert live[..j] == live;
    }

    /** The configuration phase of `deploy_config`. */
    method ConfigureVlans(config: SwitchConf.Switch<PortConfig>, vlans: SwitchConf.Vlans, overviewPage: string)
      requires UniqueKeys(config.ports)
      requires connected
      modifies http
      ensures http.sent == old(http.sent) + ConfigureRequests(ip, config.ports, vlans, numPorts, overviewPage)
    {
      ghost var start := http.sent;
      http.Send(OverviewRequest(ip));
      if Contains(overviewPage, QvlanDisabledMarker) {
        http.Send(EnableRequest(ip));
      }
      ghost var setup := SetupRequests(ip, overviewPage);
      assert http.sent == start + setup;
      SendVlanRequests(config.ports, vlans);
      ghost var adds := AddRequests(ip, vlans, config.ports, numPorts);
      AppendAssoc(start, setup, adds);
      SendPvidRequests(config.ports);
      ghost var pvids := PvidRequests(ip, config.ports, numPorts);
      AppendAssoc(start, setup + adds, pvids);
    }

    /**
     * The cleanup phase of `deploy_config`: read the overview page again and delete
     * the stale VLANs; when the page yields no VLAN list, the phase fails as a whole.
     */
    method RemoveUnusedVlans(vlans: SwitchConf.Vlans, liveVids: Option<seq<int>>) returns (r: Result<bool, Error>)
      requires connected
      modifies http
      ensures http.sent == old(http.sent) + CleanupRequests(ip, vlans, liveVids)
      ensures r == if liveVids.Some? then Ok(true) else Err(CleanupFailed(name))
    {
      http.Send(OverviewRequest(ip));
      if liveVids.None? {
        return Err(CleanupFailed(name));
      }
      SendDeleteRequests(liveVids.value, vlans);
      r := Ok(true);
    }

    /**
     * `deploy_config`: enable 802.1Q if needed, send one add/modify request per
     * declared VLAN, one PVID request per physical port, then delete the stale VLANs.
     * A failure of the cleanup step is reported as one error; otherwise the result is true.
     */
    method DeployConfig(config: SwitchConf.Switch<PortConfig>, vlans: SwitchConf.Vlans,
                        overviewPage: string, liveVids: Option<seq<int>>)
      returns (r: Result<bool, Error>)
      requires UniqueKeys(config.ports)
      requires connected
      modifies http
      ensures http.sent == old(http.sent) + DeployRequests(ip, config.ports, vlans, numPorts, overviewPage, liveVids)
      ensures r == if liveVids.Some? then Ok(true) else Err(CleanupFailed(name))
    {
      ConfigureVlans(config, vlans, overviewPage);
      r := RemoveUnusedVlans(vlans, liveVids);
      AppendAssoc(old(http.sent), ConfigureRequests(ip, config.ports, vlans, numPorts, overviewPage),
                  CleanupRequests(ip, vlans, liveVids));
    }
  }
}
