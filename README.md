# switchconf core, modelled in Dafny

This project models the two parts of the VLAN deployment tool that decide what
reaches the switches.

- **The configuration resolver** (`switchconf.py`). It takes the declarative
  YAML description and expands each switch port into concrete 802.1Q
  membership. A port is `trunk`, `tagged` or `untagged`, and names optional VLANs
  plus a PVID override. The result is a list of tagged VLAN IDs, an untagged
  VLAN ID and a PVID. Fallbacks go from the port, to the switch `default-vlan`,
  to the global `default-vlan`.
- **The TP-Link Easy Smart driver** (`backends/TLSG105E.py`). It logs in to the
  switch's web interface. It enables 802.1Q if needed, and sends one add/modify
  request per declared VLAN with a membership code for every physical port. It
  sends one PVID request per physical port, then deletes the VLANs on the device
  that are no longer declared. The TL-SG108E and TL-SG108PE drivers differ only
  in their port count, 8 instead of 5. They are covered through `Backend.Model`.

Files:

| file | module | contents |
|---|---|---|
| `wrappers.dfy` | `Wrappers` | `Option` and `Result` |
| `dicts.dfy` | `Dicts` | Python dictionaries as insertion-ordered `(key, value)` sequences |
| `strings.dfy` | `Strings` | `lower()`, `in` on strings, `str(n)`, and the alphanumeric filter |
| `bits.dfy` | `Bits` | `1 << n` and single bits |
| `switchconf.dfy` | `SwitchConf` | the resolver: `get_vlan_id_by_name`, `get_switch_port_config`, `parse_switch_config`, `parse_config` |
| `tlsg105e.dfy` | `Backend` | the driver: the VLAN guard and login of `__init__`, `build_url`, `deploy_config` |

How the model is built:

- Pure decisions are functions: port resolution, the request queries and the
  stale-VLAN selection. Each loop of the source is a method with loop
  invariants. Each method is proved equal to its function.
  - `CollectVlanIds` is proved equal to `VlanIdsByName`.
  - `GetSwitchPortConfig` is proved equal to `ResolvePort`.
  - `ParseSwitchConfig` and `ParseConfig` are proved equal to `ResolveSwitch` and `ResolveConfig`.
  - `PutPortSelType` and `BuildVlanParams` are proved equal to `VlanParams`.
  - `LookupPortPvid` is proved equal to `PortPvid`.
  - `VlanShouldExist` is proved equal to membership in `AllVlanIds`.
- Python raises exceptions; the model returns `Result` instead. The `Error`
  values mirror the exceptions. Two `KeyError`s the resolver can raise become
  `KeyMissing`: a tagged port without `vlans`, and a configuration with switches
  but no global `default-vlan`.
- The driver is a class. Its HTTP side is a `RequestLog` object that records
  every request sent. What the switch sends back is passed in as input: the
  system-information page text, the VLAN overview page text, and the VLAN IDs
  the page parser extracts.

## Model

| member | source | states |
|---|---|---|
| Dicts.Get | switchconf.py:10-13 | a lookup succeeds exactly when the key is present, and returns a value stored under that key |
| Dicts.GetAt | switchconf.py:13 | with unique keys, looking up the i-th key returns the i-th value |
| Dicts.PutKeys | backends/TLSG105E.py:62 | assigning a key keeps the key order, and a new key is added at the end |
| Dicts.GetPut | backends/TLSG105E.py:62-72 | after `d[k] = v`, `d[k]` is `v` and every other key keeps its value |
| Dicts.PutFresh | backends/TLSG105E.py:62 | assigning a key the dictionary lacks appends exactly one entry |
| Dicts.PutLast | backends/TLSG105E.py:69-72 | reassigning the key added last overwrites that entry only |
| Dicts.GetPrefixStep | backends/TLSG105E.py:65-67 | scanning ports in order, only the entry with the matching name can match, so the scan's result is that entry's value |
| Strings.LowerIdempotent | switchconf.py:24 | lowering an already-lowered type changes nothing |
| Strings.ContainsAt | backends/TLSG105E.py:34 | the substring test holds exactly when the marker occurs at some position of the page |
| Strings.NatToString | backends/TLSG105E.py:62 | `str(port_id)` is a non-empty string of decimal digits in canonical form: a single digit exactly below ten, and no leading zero unless the number is 0 |
| Strings.ParseNatToString | backends/TLSG105E.py:62 | reading back the decimal text of a number gives that number |
| Strings.NatToStringInjective | backends/TLSG105E.py:62 | distinct port numbers have distinct decimal texts |
| Strings.FilterAlnum | backends/TLSG105E.py:54 | the filtered name is alphanumeric and no longer than the name |
| Strings.FilterAlnumSpec | backends/TLSG105E.py:54 | the filtered name is the name with characters deleted in order, and keeps every alphanumeric character of the name as often as the name has it |
| Strings.FilterAlnumFixed | backends/TLSG105E.py:54 | an alphanumeric name passes the filter unchanged |
| Bits.Pow2OneHot | backends/TLSG105E.py:91-92 | `1 << n` has bit n set and every other bit clear |
| Bits.Pow2Injective | backends/TLSG105E.py:92 | distinct shifts give distinct masks |
| SwitchConf.GetVlanIdByName | switchconf.py:9-13 | the lookup fails with VlanNotFound(name) exactly when the name is not declared; otherwise it returns the declared `vlan-id` of that name |
| SwitchConf.GetVlanIdAt | switchconf.py:9-13 | every declared name resolves to its own entry's ID |
| SwitchConf.VlanIdsByName | switchconf.py:35-37 | a list of names resolves exactly when all are declared. The i-th ID is then the i-th name's ID. Otherwise the error names the first undeclared name of the list: every name before it is declared |
| SwitchConf.CollectVlanIds | switchconf.py:28-30 | the append loop returns what VlanIdsByName returns, failing at the first unknown name |
| SwitchConf.AllNamesResolve | switchconf.py:28-30 | the trunk loop over all declared names cannot fail, and yields every declared ID in declaration order |
| SwitchConf.GetSwitchPortConfig | switchconf.py:16-65 | the port resolution, branch for branch, equals the function ResolvePort |
| SwitchConf.ResolvedPortInvariant | switchconf.py:26-60 | every port that resolves has its PVID among its member VLANs. For an untagged VLAN the PVID is that VLAN; otherwise the PVID is tagged |
| SwitchConf.MissingPortDefaults | switchconf.py:18-22 | an empty port entry resolves as `{}`, and a missing type resolves as `untagged` |
| SwitchConf.TypeIsCaseInsensitive | switchconf.py:24 | types that differ only in letter case resolve alike |
| SwitchConf.TrunkPort | switchconf.py:26-33 | a trunk port resolves exactly when the switch default is declared. It tags all declared VLANs in declaration order, has no untagged VLAN, and its PVID is the default's ID |
| SwitchConf.TaggedPortWithVlan | switchconf.py:34-42 | a tagged port with `vlan` resolves exactly when its names are all declared. The listed VLANs are tagged, `vlan` is untagged and is the PVID, and no membership check is made |
| SwitchConf.TaggedPortWithoutVlan | switchconf.py:43-52 | without `vlan`, the PVID is the override or the switch default. Resolution fails with PvidNotTagged exactly when that ID is not among the tagged IDs |
| SwitchConf.TaggedPortWithoutVlanResolves | switchconf.py:34-52 | without `vlan`, the port resolves exactly when `vlans` is present, every listed name is declared, the PVID name (the override, else the switch default) is declared and its ID is among the tagged IDs. Without `vlans` it fails with KeyMissing("vlans") |
| SwitchConf.UntaggedPort | switchconf.py:54-60 | an untagged port resolves exactly when its VLAN name (`vlan`, else the switch default) is declared. That ID is both untagged VLAN and PVID, and nothing is tagged |
| SwitchConf.UnknownTypeFails | switchconf.py:62-63 | any other type fails with UnknownPortType, carrying the lowered type |
| SwitchConf.ExampleTaggedWithoutDefault | switchconf.py:43-52 | a tagged port carrying only `iot` under default `office` is refused with PVID 10 |
| SwitchConf.ExampleUntagged | switchconf.py:54-60 | a plain untagged port gets the default VLAN as untagged VLAN and PVID |
| SwitchConf.ResolvePortsSpec | switchconf.py:75-79 | the ports of a switch resolve exactly when each one resolves. The result keeps the port keys in order, each mapped to its own resolution |
| SwitchConf.ResolvePortsStep | switchconf.py:75-79 | each iteration extends the resolved prefix by one port, or stops with that port's error |
| SwitchConf.ResolvePortsFailurePersists | switchconf.py:75-79 | the first port that fails decides the error of the whole switch |
| SwitchConf.ParseSwitchConfig | switchconf.py:68-81 | the port loop returns what ResolveSwitch returns |
| SwitchConf.ResolveSwitchSpec | switchconf.py:68-81 | the switch resolves exactly when every port resolves against the switch default. That default is the switch's own `default-vlan`, else the global one. All other fields and the port keys are kept, key uniqueness is preserved, and every port satisfies the PVID invariant |
| SwitchConf.ResolveSwitchesSpec | switchconf.py:84-88 | the switches resolve exactly when each one does. The result keeps the switch keys in order, each mapped to its own resolution |
| SwitchConf.ResolveSwitchesStep | switchconf.py:87-88 | each iteration extends the resolved prefix by one switch, or stops with that switch's error |
| SwitchConf.ResolveSwitchesFailurePersists | switchconf.py:87-88 | the first switch that fails decides the error of the whole configuration |
| SwitchConf.ParseConfig | switchconf.py:84-88 | the switch loop returns what ResolveConfig returns. With at least one switch, a missing global `default-vlan` is a KeyMissing error |
| SwitchConf.ResolvedConfigInvariant | switchconf.py:84-88 | a resolved configuration keeps the VLANs, the switch keys and every switch's port keys, and every resolved port satisfies the PVID invariant |
| Backend.RequestLog.Send | backends/TLSG105E.py:25-33 | sending a request appends it to the log |
| Backend.BuildUrlInjective | backends/TLSG105E.py:38-39 | the page path is recovered from the URL, so distinct pages of a switch have distinct URLs |
| Backend.SelKeyInjective | backends/TLSG105E.py:62 | distinct ports have distinct `selType_` keys |
| Backend.PortNameInjective | backends/TLSG105E.py:66 | distinct ports have distinct `port` names |
| Backend.SanitizeVlanName | backends/TLSG105E.py:54 | the sent name is the prefix of the filtered name of length min(ten, filtered length): the whole filtered name when that fits in ten, else its first ten characters; it is alphanumeric |
| Backend.SanitizeVlanNameSpec | backends/TLSG105E.py:54 | sanitizing only deletes characters, in order. A clean name of at most ten characters is kept, and sanitizing twice equals sanitizing once |
| Backend.SelTypes | backends/TLSG105E.py:60-72 | the query holds one `selType_k` entry per port 1..n, in order, carrying that port's membership code |
| Backend.VlanParamsHead | backends/TLSG105E.py:55-59 | the query has 3 + n entries and opens with `vid` = the VLAN ID, `vname` = the sanitized name and `qvlan_add` = `Add%2FModify`, in that order |
| Backend.VlanParamsKey | backends/TLSG105E.py:55-62 | after the three fixed keys, none of which starts with `s`, the i-th key is `selType_(i-2)` |
| Backend.SelKeyAbsent | backends/TLSG105E.py:60 | no `selType_k` key exists for a k outside 1..n |
| Backend.VlanParamsUnique | backends/TLSG105E.py:55-62 | no query key occurs twice |
| Backend.VlanParamsFixed | backends/TLSG105E.py:55-59 | looking up `vid`, `vname` and `qvlan_add` in the query gives the VLAN's ID, its sanitized name and `Add%2FModify` |
| Backend.VlanParamsSelType | backends/TLSG105E.py:60-72 | `selType_k` is present exactly for ports 1..n, with the port's membership code: untagged if the port's untagged VLAN is this one, else tagged if the port tags it, else not a member |
| Backend.VlanParamsEntries | backends/TLSG105E.py:55-72 | the query has unique keys, the ID, name and add/modify entries, and one code per physical port |
| Backend.AddRequestsSpec | backends/TLSG105E.py:52-76 | exactly one add/modify request per declared VLAN, in declaration order |
| Backend.MembershipCodeStep | backends/TLSG105E.py:65-72 | scanning the ports in order, only the `port<k>` entry sets the code |
| Backend.PutPortSelType | backends/TLSG105E.py:60-72 | the inner port loop appends `selType_k` holding the port's membership code. The first assignment adds the key, and later ones overwrite it |
| Backend.BuildVlanParams | backends/TLSG105E.py:55-72 | the request dictionary built by the loops equals the query VlanParams |
| Backend.PvidRequestsSpec | backends/TLSG105E.py:79-97 | exactly one PVID request per physical port, ports 1..n in order |
| Backend.PvidMaskOneHot | backends/TLSG105E.py:90-94 | port k's PVID request carries a mask with exactly bit k-1 set, so no two ports share a mask |
| Backend.LookupPortPvid | backends/TLSG105E.py:79-88 | the PVID of physical port k is that of its `port<k>` entry, and 1 when there is none |
| Backend.PvidVlanIsMember | backends/TLSG105E.py:60-88 | for resolved ports, the VLAN whose ID is a port's PVID is sent with that port as untagged or tagged member, never as not a member |
| Backend.UnconfiguredPort | backends/TLSG105E.py:60-88 | a physical port without a `port<k>` entry is no VLAN's member and gets PVID 1 |
| Backend.StaleVidsSpec | backends/TLSG105E.py:104-112 | an ID is deleted exactly when it is live and no declared VLAN has it. The deletions keep device order |
| Backend.StaleVidsAppend | backends/TLSG105E.py:105-112 | one more live ID adds at most its own deletion, at the end |
| Backend.DeleteRequestsAppend | backends/TLSG105E.py:105-117 | one more live ID adds at most one delete request, for that ID, at the end |
| Backend.CleanupDeletesExactlyStale | backends/TLSG105E.py:105-117 | a declared VLAN is never deleted, and every live undeclared VLAN gets a delete request |
| Backend.VlanShouldExist | backends/TLSG105E.py:106-110 | the inner loop answers whether some declared VLAN has the ID |
| Backend.ExampleCleanup | backends/TLSG105E.py:105-117 | with live IDs 10, 20, 99 and declared 10, 20, only 99 is deleted |
| Backend.EnableRequestDistinct | backends/TLSG105E.py:46-49 | the 802.1Q enable request is none of the VLAN, PVID or cleanup requests |
| Backend.DeployOrder | backends/TLSG105E.py:42-76 | the overview page is read first. The enable request is sent exactly when the page shows 802.1Q disabled, and then directly after that read; when it is not sent, it appears nowhere in the log. The VLAN requests follow in declaration order, at the offset the optional enable request leaves |
| Backend.TLSG105E.constructor | backends/TLSG105E.py:19-33 | the driver keeps name, IP and credentials, and sends the login form post, then the system-information read; it is not yet marked connected |
| Backend.TLSG105E.Connect | backends/TLSG105E.py:15-35 | 32 or more VLANs are refused before any request. Otherwise the driver logs in, and is refused exactly when the system-information page lacks `info_ds`. A driver it returns is marked connected, which every deployment method requires |
| Backend.TLSG105E.SendVlanRequests | backends/TLSG105E.py:52-76 | the VLAN loop sends exactly the add/modify requests, in declaration order |
| Backend.TLSG105E.SendPvidRequests | backends/TLSG105E.py:79-97 | the PVID loop sends exactly one request per physical port |
| Backend.TLSG105E.SendDeleteRequests | backends/TLSG105E.py:105-117 | the cleanup loop sends exactly the delete requests for the stale IDs |
| Backend.TLSG105E.ConfigureVlans | backends/TLSG105E.py:42-97 | the configuration phase sends the overview read, the enable request if needed, the VLAN requests and the PVID requests |
| Backend.TLSG105E.RemoveUnusedVlans | backends/TLSG105E.py:99-120 | the cleanup phase reads the overview page and deletes the stale VLANs. When the page yields no VLAN list it fails with CleanupFailed |
| Backend.TLSG105E.DeployConfig | backends/TLSG105E.py:41-122 | a deployment sends exactly DeployRequests. It returns true, or CleanupFailed when the cleanup step fails |

## Left out

- HTTP, cookies and the session are not modelled. Each request is recorded in a `RequestLog`. The pages the switch returns are inputs: the system-information text, the overview text, and the parsed VLAN IDs. Network errors raised by `requests` are not modelled.
- `try_parse_html_json` is not modelled: its regular expression and the `hjson` parser. The model takes its outcome as an input, `Some(vids)` or `None`. `None` stands for every exception the `try` block turns into "Failed while removing old VLANs", including an unparsable page.
- `print` progress messages and the exception message texts are left out. Each error keeps only some of its message's data. `VlanNotFound` carries the VLAN name. `KeyMissing` carries the missing key. `PvidNotTagged` carries the port name and the PVID's ID, but not the switch default VLAN's name that the message at switchconf.py:50 also shows. `UnknownPortType` carries the port name and the lowered type. `TooManyVlans`, `LoginFailed` and `CleanupFailed` carry the switch name.
- The CLI in `main`, YAML loading, the dry-run flag, `load_switch_backends` and the top-level `deploy_config` of switchconf.py are outside this model. So are `visualize_ports.py` and the lookup of driver classes by the switch's `type` (switchconf.py:95-98).
- Strings.Lower: only ASCII letters are lowered. Python's `str.lower()` also lowers non-ASCII letters, which no port type in use contains.
- The other mandatory keys are always present in the model, so their `KeyError`s are not modelled. These are `vlans` and `switches` of the configuration (switchconf.py:85, 87), `ports` of a switch (switchconf.py:75), and the switch's `ip`, `username` and `password` read by the driver (backends/TLSG105E.py:20-22).
- Configuration values with the wrong YAML type are not modelled. Examples are a `vlan-id` that is not an integer, or a `type` that is not a string. A VLAN entry without `vlan-id` is not modelled either, because `Vlan` always carries one.
- Ports are declared with the keys the resolver reads: `type`, `vlan`, `vlans` and `pvid`. Other keys a user might write into a port are not carried through. This includes a hand-written `tagged-vlan-ids`, which the backend would read.
- The resolver edits the parsed dictionaries in place. The model returns the resolved structure instead. When an exception is raised part-way, Python leaves the earlier ports already overwritten; the model keeps no such partial state.
- Port entries shared through YAML anchors and aliases are not modelled: the model resolves every entry as an independent value. In the source such an entry is one dictionary, which the resolver overwrites and then resolves again from its resolved state (switchconf.py:75-79, 87-88). For a tagged port without `vlan`, the first pass stores the integer ID in `pvid` (switchconf.py:48); the second pass looks that integer up as a VLAN name and raises "VLAN ... not found!". An untagged entry shared by two switches ends up holding the last switch's resolution for both.
- Backend.TLSG105E.Connect: the constructor's refusal becomes a `Result` from a factory. The ghost flag `connected`, set only by the factory, stands for "the constructor returned"; the deployment methods require it. Python raises from `__init__` after the login requests, and the model sends the same requests before refusing.
- Backend.TLSG105E.DeployConfig: it requires unique port keys, the invariant of a Python dictionary. The driver's loops are split into the helper methods `SendVlanRequests`, `SendPvidRequests` and `SendDeleteRequests`, and the phase methods `ConfigureVlans` and `RemoveUnusedVlans`.
- The resolved `tagged-vlan-ids` is a list in declaration order, with duplicates when a name is listed twice, as the source builds it; the model keeps it as a list rather than a set.
