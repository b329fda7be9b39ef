/** The agent settings document and its JSON form (agent/settings.go). */
module Settings {
  import opened Basics

  datatype Json =
    | Null
    | Boolean(flag: bool)
    | Number(number: real)
    | Text(text: string)
    | Array(items: seq<Json>)
    | Object(fields: map<string, Json>)

  /** The text stored in a config map: a JSON document, or text no parser accepts. */
  datatype Document = Parsed(json: Json) | Malformed(text: string)

  /** `None` is Go's nil slice, `Some([])` an allocated empty one. */
  datatype Network = Network(kind: string, ip: string, netmask: string, gateway: string,
                             default: Option<seq<string>>, dns: Option<seq<string>>, preconfigured: bool)

  /** `None` is a nil map, slice or interface. `Some(Null)` in an interface field is an interface
      holding a nil map, which the encoder does not omit. */
  datatype Settings = Settings(
    agentId: string,
    persistent: Option<map<string, string>>,
    networks: Option<map<string, Network>>,
    mbus: string,
    ntp: Option<seq<string>>,
    vmName: string,
    blobstore: Option<Json>,
    env: Option<Json>)

  // ---- Encoding ----

  /** A struct as a list of keyed fields; an omitted value leaves its key out of the object. */
  function Struct(fields: seq<(string, Option<Json>)>): map<string, Json> {
    if fields == [] then map[]
    else
      var rest := Struct(fields[1..]);
      if fields[0].1.None? then rest else rest[fields[0].0 := fields[0].1.value]
  }

  function EncodeStrings(list: Option<seq<string>>): Option<Json> {
    if list.None? || list.value == [] then None
    else Some(Array(seq(|list.value|, i requires 0 <= i < |list.value| => Text(list.value[i]))))
  }

  function EncodeText(text: string): Option<Json> {
    if text == "" then None else Some(Text(text))
  }

  function EncodeFlag(flag: bool): Option<Json> {
    if flag then Some(Boolean(true)) else None
  }

  function NetworkFields(n: Network): seq<(string, Option<Json>)> {
    [("type", Some(Text(n.kind))), ("ip", EncodeText(n.ip)), ("netmask", EncodeText(n.netmask)),
     ("gateway", EncodeText(n.gateway)), ("default", EncodeStrings(n.default)),
     ("dns", EncodeStrings(n.dns)), ("preconfigured", EncodeFlag(n.preconfigured))]
  }

  function EncodeNetwork(n: Network): Json {
    Object(Struct(NetworkFields(n)))
  }

  function EncodeNetworks(networks: Option<map<string, Network>>): Option<Json> {
    if networks.None? || networks.value == map[] then None
    else Some(Object(map k | k in networks.value :: EncodeNetwork(networks.value[k])))
  }

  function EncodePersistent(disks: Option<map<string, string>>): Option<Json> {
    if disks.None? || disks.value == map[] then None
    else Some(Object(map k | k in disks.value :: Text(disks.value[k])))
  }

  function SettingsFields(s: Settings): seq<(string, Option<Json>)> {
    [("agent_id", Some(Text(s.agentId))),
     ("disks", Some(Object(Struct([("persistent", EncodePersistent(s.persistent))])))),
     ("networks", EncodeNetworks(s.networks)), ("mbus", Some(Text(s.mbus))),
     ("ntp", EncodeStrings(s.ntp)), ("vm", Some(Object(Struct([("name", Some(Text(s.vmName)))])))),
     ("blobstore", s.blobstore), ("env", s.env)]
  }

  function Encode(s: Settings): Json {
    Object(Struct(SettingsFields(s)))
  }

  // ---- Decoding: `None` is a type error; an absent or null field keeps the zero value ----

  function Lookup(fields: map<string, Json>, key: string): Json {
    if key in fields then fields[key] else Null
  }

  function DecodeText(j: Json): Option<string> {
    match j
    case Null => Some("")
    case Text(t) => Some(t)
    case _ => None
  }

  function DecodeFlag(j: Json): Option<bool> {
    match j
    case Null => Some(false)
    case Boolean(b) => Some(b)
    case _ => None
  }

  function DecodeFields(j: Json): Option<map<string, Json>> {
    match j
    case Null => Some(map[])
    case Object(fields) => Some(fields)
    case _ => None
  }

  function DecodeStrings(j: Json): Option<Option<seq<string>>> {
    match j
    case Null => Some(None)
    case Array(items) =>
      if forall i | 0 <= i < |items| :: DecodeText(items[i]).Some?
      then Some(Some(seq(|items|, i requires 0 <= i < |items| => DecodeText(items[i]).GetOr(""))))
      else None
    case _ => None
  }

  function DecodeNetwork(j: Json): Option<Network> {
    var fields := DecodeFields(j);
    if fields.None? then None else
    var f := fields.value;
    var kind, ip, netmask, gateway :=
      DecodeText(Lookup(f, "type")), DecodeText(Lookup(f, "ip")),
      DecodeText(Lookup(f, "netmask")), DecodeText(Lookup(f, "gateway"));
    var default, dns, flag :=
      DecodeStrings(Lookup(f, "default")), DecodeStrings(Lookup(f, "dns")), DecodeFlag(Lookup(f, "preconfigured"));
    if kind.Some? && ip.Some? && netmask.Some? && gateway.Some? && default.Some? && dns.Some? && flag.Some?
    then Some(Network(kind.value, ip.value, netmask.value, gateway.value, default.value, dns.value, flag.value))
    else None
  }

  const NO_NETWORK := Network("", "", "", "", None, None, false)

  function DecodeNetworks(j: Json): Option<Option<map<string, Network>>> {
    match j
    case Null => Some(None)
    case Object(fields) =>
      if forall k | k in fields :: DecodeNetwork(fields[k]).Some?
      then Some(Some(map k | k in fields :: DecodeNetwork(fields[k]).GetOr(NO_NETWORK)))
      else None
    case _ => None
  }

  function DecodePersistent(j: Json): Option<Option<map<string, string>>> {
    match j
    case Null => Some(None)
    case Object(fields) =>
      if forall k | k in fields :: DecodeText(fields[k]).Some?
      then Some(Some(map k | k in fields :: DecodeText(fields[k]).GetOr("")))
      else None
    case _ => None
  }

  function DecodeAny(j: Json): Option<Json> {
    if j.Null? then None else Some(j)
  }

  function Decode(d: Document): Option<Settings> {
    if d.Malformed? then None else
    var fields := DecodeFields(d.json);
    if fields.None? then None else
    var f := fields.value;
    var disks, vm := DecodeFields(Lookup(f, "disks")), DecodeFields(Lookup(f, "vm"));
    if disks.None? || vm.None? then None else
    var agentId, persistent, networks :=
      DecodeText(Lookup(f, "agent_id")), DecodePersistent(Lookup(disks.value, "persistent")),
      DecodeNetworks(Lookup(f, "networks"));
    var mbus, ntp, name :=
      DecodeText(Lookup(f, "mbus")), DecodeStrings(Lookup(f, "ntp")), DecodeText(Lookup(vm.value, "name"));
    if agentId.Some? && persistent.Some? && networks.Some? && mbus.Some? && ntp.Some? && name.Some?
    then Some(Settings(agentId.value, persistent.value, networks.value, mbus.value, ntp.value, name.value,
                       DecodeAny(Lookup(f, "blobstore")), DecodeAny(Lookup(f, "env"))))
    else None
  }

  // ---- Round trip ----

  function NormalStrings(list: Option<seq<string>>): Option<seq<string>> {
    if list == Some([]) then None else list
  }

  function NormalNetwork(n: Network): Network {
    n.(default := NormalStrings(n.default), dns := NormalStrings(n.dns))
  }

  function NormalNetworks(networks: Option<map<string, Network>>): Option<map<string, Network>> {
    if networks.None? || networks.value == map[] then None
    else Some(map k | k in networks.value :: NormalNetwork(networks.value[k]))
  }

  /** What the encoder cannot tell apart is made equal: an empty collection and a nil one,
      an interface holding a nil map and a nil interface. */
  function Normal(s: Settings): Settings {
    s.(persistent := if s.persistent == Some(map[]) then None else s.persistent,
       networks := NormalNetworks(s.networks),
       ntp := NormalStrings(s.ntp),
       blobstore := if s.blobstore == Some(Null) then None else s.blobstore,
       env := if s.env == Some(Null) then None else s.env)
  }

  ghost predicate DistinctKeys(fields: seq<(string, Option<Json>)>) {
    forall i, j | 0 <= i < j < |fields| :: fields[i].0 != fields[j].0
  }

  /** The key is there with this value, or left out of the object. */
  predicate HasAny(f: map<string, Json>, key: string, value: Option<Json>) {
    if value.None? then key !in f else key in f && f[key] == value.value
  }

  /** An encoded struct has the key exactly of a field that was not omitted, with its value. */
  lemma {:induction false} StructHas(fields: seq<(string, Option<Json>)>, i: nat)
    requires i < |fields| && DistinctKeys(fields)
    ensures HasAny(Struct(fields), fields[i].0, fields[i].1)
    decreases |fields|
  {
    if i == 0 {
      StructKeys(fields[1..]);
    } else {
      StructHas(fields[1..], i - 1);
    }
  }

  /** Looking a field up gives its value, null when it was omitted. */
  lemma StructLookup(fields: seq<(string, Option<Json>)>, i: nat)
    requires i < |fields| && DistinctKeys(fields)
    ensures Lookup(Struct(fields), fields[i].0) == fields[i].1.GetOr(Null)
  {
    StructHas(fields, i);
  }

  lemma {:induction false} StructKeys(fields: seq<(string, Option<Json>)>)
    ensures forall k | k in Struct(fields) :: exists i :: 0 <= i < |fields| && fields[i].0 == k
    decreases |fields|
  {
    if fields != [] {
      StructKeys(fields[1..]);
      forall k | k in Struct(fields) ensures exists i :: 0 <= i < |fields| && fields[i].0 == k {
        if k in Struct(fields[1..]) {
          var i :| 0 <= i < |fields[1..]| && fields[1..][i].0 == k;
          assert fields[i + 1].0 == k;
        } else {
          assert fields[0].0 == k;
        }
      }
    }
  }

  lemma StringsRoundTrip(list: Option<seq<string>>)
    ensures DecodeStrings(EncodeStrings(list).GetOr(Null)) == Some(NormalStrings(list))
  {
    if list.Some? && list.value != [] {
      var items := EncodeStrings(list).value.items;
      assert forall i | 0 <= i < |items| :: DecodeText(items[i]) == Some(list.value[i]);
      assert DecodeStrings(Array(items)).value.value == list.value;
    }
  }

  lemma NetworkLookups(n: Network)
    ensures var f := Struct(NetworkFields(n));
            && Lookup(f, "type") == Text(n.kind)
            && Lookup(f, "ip") == EncodeText(n.ip).GetOr(Null)
            && Lookup(f, "netmask") == EncodeText(n.netmask).GetOr(Null)
            && Lookup(f, "gateway") == EncodeText(n.gateway).GetOr(Null)
            && Lookup(f, "default") == EncodeStrings(n.default).GetOr(Null)
            && Lookup(f, "dns") == EncodeStrings(n.dns).GetOr(Null)
            && Lookup(f, "preconfigured") == EncodeFlag(n.preconfigured).GetOr(Null)
  {
    var fields := NetworkFields(n);
    forall i | 0 <= i < |fields|
      ensures Lookup(Struct(fields), fields[i].0) == fields[i].1.GetOr(Null)
    {
      StructLookup(fields, i);
    }
    assert fields[0].0 == "type" && fields[1].0 == "ip" && fields[2].0 == "netmask" && fields[3].0 == "gateway";
    assert fields[4].0 == "default" && fields[5].0 == "dns" && fields[6].0 == "preconfigured";
  }

  lemma NetworkRoundTrip(n: Network)
    ensures DecodeNetwork(EncodeNetwork(n)) == Some(NormalNetwork(n))
  {
    NetworkLookups(n);
    StringsRoundTrip(n.default);
    StringsRoundTrip(n.dns);
  }

  lemma DecodeNetworksIs(fields: map<string, Json>, networks: map<string, Network>)
    requires fields.Keys == networks.Keys
    requires forall k | k in fields :: DecodeNetwork(fields[k]) == Some(networks[k])
    ensures DecodeNetworks(Object(fields)) == Some(Some(networks))
  {
    assert DecodeNetworks(Object(fields)).value.value == networks;
  }

  lemma NetworksRoundTrip(networks: Option<map<string, Network>>)
    ensures DecodeNetworks(EncodeNetworks(networks).GetOr(Null)) == Some(NormalNetworks(networks))
  {
    if networks.Some? && networks.value != map[] {
      var fields := map k | k in networks.value :: EncodeNetwork(networks.value[k]);
      forall k | k in fields
        ensures DecodeNetwork(fields[k]) == Some(NormalNetwork(networks.value[k]))
      {
        NetworkRoundTrip(networks.value[k]);
      }
      DecodeNetworksIs(fields, NormalNetworks(networks).value);
    }
  }

  lemma PersistentRoundTrip(disks: Option<map<string, string>>)
    ensures DecodePersistent(EncodePersistent(disks).GetOr(Null))
         == Some(if disks == Some(map[]) then None else disks)
  {
    if disks.Some? && disks.value != map[] {
      assert DecodePersistent(EncodePersistent(disks).value).value.value == disks.value;
    }
  }

  lemma SettingsLookups(s: Settings)
    ensures var f := Struct(SettingsFields(s));
            && Lookup(f, "agent_id") == Text(s.agentId)
            && Lookup(f, "disks") == Object(Struct([("persistent", EncodePersistent(s.persistent))]))
            && Lookup(f, "networks") == EncodeNetworks(s.networks).GetOr(Null)
            && Lookup(f, "mbus") == Text(s.mbus)
            && Lookup(f, "ntp") == EncodeStrings(s.ntp).GetOr(Null)
            && Lookup(f, "vm") == Object(Struct([("name", Some(Text(s.vmName)))]))
            && Lookup(f, "blobstore") == s.blobstore.GetOr(Null)
            && Lookup(f, "env") == s.env.GetOr(Null)
  {
    var fields := SettingsFields(s);
    forall i | 0 <= i < |fields|
      ensures Lookup(Struct(fields), fields[i].0) == fields[i].1.GetOr(Null)
    {
      StructLookup(fields, i);
    }
    assert fields[0].0 == "agent_id" && fields[1].0 == "disks" && fields[2].0 == "networks" && fields[3].0 == "mbus";
    assert fields[4].0 == "ntp" && fields[5].0 == "vm" && fields[6].0 == "blobstore" && fields[7].0 == "env";
  }

  // ---- The encoded documents, by the tags of the struct fields ----

  /** The key is there with this text, or left out of the object if the text is empty. */
  predicate HasText(f: map<string, Json>, key: string, text: string) {
    if text == "" then key !in f else key in f && f[key] == Text(text)
  }

  predicate HasTexts(f: map<string, Json>, key: string, list: Option<seq<string>>) {
    var texts := list.GetOr([]);
    if texts == [] then key !in f
    else key in f && f[key].Array? && |f[key].items| == |texts|
         && forall i | 0 <= i < |texts| :: f[key].items[i] == Text(texts[i])
  }

  predicate IsNetworkJson(j: Json, n: Network) {
    && j.Object?
    && j.fields.Keys <= {"type", "ip", "netmask", "gateway", "default", "dns", "preconfigured"}
    && "type" in j.fields && j.fields["type"] == Text(n.kind)
    && HasText(j.fields, "ip", n.ip) && HasText(j.fields, "netmask", n.netmask)
    && HasText(j.fields, "gateway", n.gateway)
    && HasTexts(j.fields, "default", n.default) && HasTexts(j.fields, "dns", n.dns)
    && HasAny(j.fields, "preconfigured", if n.preconfigured then Some(Boolean(true)) else None)
  }

  predicate HasNetworks(f: map<string, Json>, networks: map<string, Network>) {
    if networks == map[] then "networks" !in f
    else "networks" in f && f["networks"].Object? && f["networks"].fields.Keys == networks.Keys
         && forall name | name in networks :: IsNetworkJson(f["networks"].fields[name], networks[name])
  }

  predicate HasDisks(f: map<string, Json>, disks: map<string, string>) {
    && "disks" in f && f["disks"].Object?
    && var d := f["disks"].fields;
       if disks == map[] then d == map[]
       else d.Keys == {"persistent"} && d["persistent"].Object? && d["persistent"].fields.Keys == disks.Keys
            && forall cid | cid in disks :: d["persistent"].fields[cid] == Text(disks[cid])
  }

  predicate IsSettingsJson(j: Json, s: Settings) {
    && j.Object?
    && j.fields.Keys <= {"agent_id", "disks", "networks", "mbus", "ntp", "vm", "blobstore", "env"}
    && "agent_id" in j.fields && j.fields["agent_id"] == Text(s.agentId)
    && "mbus" in j.fields && j.fields["mbus"] == Text(s.mbus)
    && "vm" in j.fields && j.fields["vm"] == Object(map["name" := Text(s.vmName)])
    && HasDisks(j.fields, s.persistent.GetOr(map[])) && HasNetworks(j.fields, s.networks.GetOr(map[]))
    && HasTexts(j.fields, "ntp", s.ntp) && HasAny(j.fields, "blobstore", s.blobstore) && HasAny(j.fields, "env", s.env)
  }

  lemma TextIsTagged(f: map<string, Json>, key: string, text: string)
    requires HasAny(f, key, EncodeText(text))
    ensures HasText(f, key, text)
  {
  }

  lemma TextsAreTagged(f: map<string, Json>, key: string, list: Option<seq<string>>)
    requires HasAny(f, key, EncodeStrings(list))
    ensures HasTexts(f, key, list)
  {
  }

  lemma NetworkIsTagged(n: Network)
    ensures IsNetworkJson(EncodeNetwork(n), n)
  {
    hide HasAny, HasText, HasTexts, Struct, EncodeText, EncodeStrings;
    var fields := NetworkFields(n);
    var f := Struct(fields);
    forall i | 0 <= i < |fields| ensures HasAny(f, fields[i].0, fields[i].1) { StructHas(fields, i); }
    StructKeys(fields);
    assert fields[0].0 == "type" && fields[1].0 == "ip" && fields[2].0 == "netmask" && fields[3].0 == "gateway";
    assert fields[4].0 == "default" && fields[5].0 == "dns" && fields[6].0 == "preconfigured";
    TextIsTagged(f, "ip", n.ip);
    TextIsTagged(f, "netmask", n.netmask);
    TextIsTagged(f, "gateway", n.gateway);
    TextsAreTagged(f, "default", n.default);
    TextsAreTagged(f, "dns", n.dns);
    AlwaysThere(f, "type", Text(n.kind));
  }

  lemma AlwaysThere(f: map<string, Json>, key: string, value: Json)
    requires HasAny(f, key, Some(value))
    ensures key in f && f[key] == value
  {
  }

  lemma NetworksAreTagged(f: map<string, Json>, networks: Option<map<string, Network>>)
    requires HasAny(f, "networks", EncodeNetworks(networks))
    ensures HasNetworks(f, networks.GetOr(map[]))
  {
    hide IsNetworkJson, EncodeNetwork;
    forall n { NetworkIsTagged(n); }
  }

  /** The encoder writes each field under its tag, leaves out what the tags say to leave out, and nothing else. */
  lemma SettingsAreTagged(s: Settings)
    ensures IsSettingsJson(Encode(s), s)
  {
    hide HasAny, HasText, HasTexts, HasDisks, HasNetworks, Struct, EncodeText, EncodeStrings, EncodeNetworks,
         EncodePersistent;
    var fields := SettingsFields(s);
    var f := Struct(fields);
    forall i | 0 <= i < |fields| ensures HasAny(f, fields[i].0, fields[i].1) { StructHas(fields, i); }
    StructKeys(fields);
    assert fields[0].0 == "agent_id" && fields[1].0 == "disks" && fields[2].0 == "networks" && fields[3].0 == "mbus";
    assert fields[4].0 == "ntp" && fields[5].0 == "vm" && fields[6].0 == "blobstore" && fields[7].0 == "env";
    AlwaysThere(f, "agent_id", Text(s.agentId));
    AlwaysThere(f, "mbus", Text(s.mbus));
    NameIsTagged(f, s.vmName);
    DisksAreTagged(f, s.persistent);
    NetworksAreTagged(f, s.networks);
    TextsAreTagged(f, "ntp", s.ntp);
  }

  lemma NameIsTagged(f: map<string, Json>, name: string)
    requires HasAny(f, "vm", Some(Object(Struct([("name", Some(Text(name)))]))))
    ensures "vm" in f && f["vm"] == Object(map["name" := Text(name)])
  {
    assert Struct([("name", Some(Text(name)))]) == map["name" := Text(name)];
  }

  lemma DisksAreTagged(f: map<string, Json>, disks: Option<map<string, string>>)
    requires HasAny(f, "disks", Some(Object(Struct([("persistent", EncodePersistent(disks))]))))
    ensures HasDisks(f, disks.GetOr(map[]))
  {
    var fields := [("persistent", EncodePersistent(disks))];
    StructHas(fields, 0);
    StructKeys(fields);
  }

  /** Decoding what was encoded loses exactly the distinctions `Normal` removes, and nothing else. */
  lemma RoundTrip(s: Settings)
    ensures Decode(Parsed(Encode(s))) == Some(Normal(s))
  {
    hide Struct, EncodeNetworks, EncodeStrings, EncodePersistent, DecodeNetworks, DecodeStrings, DecodePersistent,
         NormalNetworks, NormalStrings;
    SettingsLookups(s);
    NetworksRoundTrip(s.networks);
    StringsRoundTrip(s.ntp);
    PersistentRoundTrip(s.persistent);
    StructLookup([("persistent", EncodePersistent(s.persistent))], 0);
    StructLookup([("name", Some(Text(s.vmName)))], 0);
  }

  /** A second encode and decode changes nothing further. */
  lemma NormalIsStable(s: Settings)
    ensures Normal(Normal(s)) == Normal(s)
  {
    var n := Normal(s);
    if n.networks.Some? {
      assert Normal(n).networks.value == n.networks.value;
    }
  }

  // ---- What else the decoder accepts ----

  const TAGS := {"agent_id", "disks", "networks", "mbus", "ntp", "vm", "blobstore", "env"}

  const NO_SETTINGS := Settings("", None, None, "", None, "", None, None)

  /** Unknown keys are passed over, and a field that is null counts as absent. */
  lemma DecoderForgives(fields: map<string, Json>, key: string, value: Json)
    requires key !in TAGS || (value.Null? && key !in fields)
    ensures Decode(Parsed(Object(fields[key := value]))) == Decode(Parsed(Object(fields)))
  {
    hide Decode;
    SameLookups(fields[key := value], fields);
  }

  /** Absent fields keep their zero values; a document that is neither an object nor null is an error. */
  lemma BareDocuments(d: Document)
    ensures Decode(Parsed(Object(map[]))) == Some(NO_SETTINGS) && Decode(Parsed(Null)) == Some(NO_SETTINGS)
    ensures d.Malformed? || !(d.json.Object? || d.json.Null?) ==> Decode(d).None?
  {
  }

  lemma SameLookups(f: map<string, Json>, g: map<string, Json>)
    requires forall tag | tag in TAGS :: Lookup(f, tag) == Lookup(g, tag)
    ensures Decode(Parsed(Object(f))) == Decode(Parsed(Object(g)))
  {
    hide Lookup, DecodeText, DecodeNetworks, DecodeStrings, DecodePersistent, DecodeAny;
  }

  // ---- The persistent-disk edit of updateConfigMapDisks ----

  /** The disk map a program reads from settings: a nil map reads as empty. */
  function DisksOf(s: Settings): map<string, string> {
    s.persistent.GetOr(map[])
  }

  /** Everything in settings apart from the disk map, up to what the encoder preserves. */
  function RestOf(s: Settings): Settings {
    Normal(s).(persistent := None)
  }

  /** Writing a disk map into decoded settings and storing the result: the next decode reads exactly
      that map, and every other field as it was. */
  lemma EditSurvives(s: Settings, disks: map<string, string>)
    ensures var d := Decode(Parsed(Encode(s.(persistent := Some(disks)))));
            d.Some? && DisksOf(d.value) == disks && RestOf(d.value) == RestOf(s)
  {
    var edited := s.(persistent := Some(disks));
    RoundTrip(edited);
    NormalIsStable(edited);
  }
}
