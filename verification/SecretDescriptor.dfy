/** The default contents of a binding's secret, and the descriptor that lists them. */
module SecretDescriptor {
  import opened Options

  const METADATA := ".metadata"

  datatype Format = Text | Json

  datatype Property = Property(name: string, format: Format, container: bool)

  /** A credential as SM returned it: a string, or any other JSON value. */
  datatype Credential = String(text: string) | Other(json: string)

  datatype Content = Bytes(bytes: string) | Descriptor(credentials: seq<Property>, instance: seq<Property>)

  /** The credentials of a binding: none, one value under the configured key, or a JSON object. */
  datatype Credentials = NoCredentials | Single(key: string, json: string) | Object(values: map<string, Credential>)

  /** The tags are those of the offering and those of the instance itself. */
  datatype InstanceInfo =
    InstanceInfo(name: string, guid: string, plan: string, offering: string, tags: seq<string>, customTags: seq<string>)

  /** Every space becomes an underscore. */
  function Normalize(name: string): (r: string)
    ensures |r| == |name| && ' ' !in r
    ensures forall k :: 0 <= k < |name| && r[k] != name[k] ==> name[k] == ' ' && r[k] == '_'
  {
    seq(|name|, k requires 0 <= k < |name| => if name[k] == ' ' then '_' else name[k])
  }

  function Serialize(c: Credential): (string, Format) {
    match c case String(text) => (text, Text) case Other(json) => (json, Json)
  }

  function Names(properties: seq<Property>): set<string> {
    set k | 0 <= k < |properties| :: properties[k].name
  }

  function NormalizedKeys(values: map<string, Credential>): set<string> {
    set name | name in values :: Normalize(name)
  }

  /** The keys the credentials contribute. */
  function CredentialKeys(c: Credentials): set<string> {
    match c
    case NoCredentials => {}
    case Single(key, _) => {key}
    case Object(values) => NormalizedKeys(values)
  }

  lemma NamesAppend(properties: seq<Property>, p: Property)
    ensures Names(properties + [p]) == Names(properties) + {p.name}
  {
    forall n
      ensures n in Names(properties + [p]) <==> n in Names(properties) + {p.name}
    {
      if n in Names(properties) {
        var k :| 0 <= k < |properties| && properties[k].name == n;
        assert (properties + [p])[k].name == n;
      }
      if n == p.name {
        assert (properties + [p])[|properties|] == p;
      }
    }
  }

  /** No other credential takes the same key. */
  predicate Alone(values: map<string, Credential>, name: string) {
    forall other :: other in values && Normalize(other) == Normalize(name) ==> other == name
  }

  /** The key holds the text of a string, and the JSON of any other value. */
  predicate Shows(data: map<string, Content>, key: string, c: Credential) {
    key in data && data[key] == if c.String? then Bytes(c.text) else Bytes(c.json)
  }

  /** How the descriptor lists a credential. */
  function Entry(name: string, c: Credential): Property {
    Property(Normalize(name), if c.String? then Text else Json, false)
  }

  /** Every credential has its value under its key, unless another one takes that, and every value is that of a credential. */
  ghost predicate ValuesOf(values: map<string, Credential>, data: map<string, Content>) {
    && (forall name :: name in values && Alone(values, name) ==> Shows(data, Normalize(name), values[name]))
    && (forall key :: key in data ==> exists name :: name in values && Normalize(name) == key && Shows(data, key, values[name]))
  }

  /** The descriptor lists exactly the credentials, each with its format. */
  ghost predicate EntriesOf(values: map<string, Credential>, metadata: seq<Property>) {
    && (forall name :: name in values ==> Entry(name, values[name]) in metadata)
    && (forall p :: p in metadata ==> exists name :: name in values && p == Entry(name, values[name]))
    && |metadata| == |values|
  }

  lemma OneMoreValue(values: map<string, Credential>, data: map<string, Content>, name: string, c: Credential, text: string)
    requires ValuesOf(values, data) && name !in values && text == (if c.String? then c.text else c.json)
    ensures ValuesOf(values[name := c], data[Normalize(name) := Bytes(text)])
  {
    hide Normalize;
    var values1, data1 := values[name := c], data[Normalize(name) := Bytes(text)];
    forall key | key in data1
      ensures exists n :: n in values1 && Normalize(n) == key && Shows(data1, key, values1[n])
    {
      if key == Normalize(name) {
        assert Shows(data1, key, values1[name]);
      } else {
        var n :| n in values && Normalize(n) == key && Shows(data, key, values[n]);
        assert Shows(data1, key, values1[n]);
      }
    }
    forall n | n in values1 && Alone(values1, n)
      ensures Shows(data1, Normalize(n), values1[n])
    {
      if n != name {
        assert Alone(values, n) && Normalize(n) != Normalize(name);
      }
    }
  }

  lemma OneMoreEntry(values: map<string, Credential>, metadata: seq<Property>, name: string, c: Credential)
    requires EntriesOf(values, metadata) && name !in values
    ensures EntriesOf(values[name := c], metadata + [Entry(name, c)])
  {
    hide Entry;
    var values1, metadata1 := values[name := c], metadata + [Entry(name, c)];
    forall p | p in metadata1
      ensures exists n :: n in values1 && p == Entry(n, values1[n])
    {
      if p in metadata {
        var n :| n in values && p == Entry(n, values[n]);
        assert p == Entry(n, values1[n]);
      } else {
        assert p == Entry(name, values1[name]);
      }
    }
  }

  lemma OneMoreKey(values: map<string, Credential>, name: string, c: Credential)
    ensures NormalizedKeys(values[name := c]) == NormalizedKeys(values) + {Normalize(name)}
  {
    hide Normalize;
    var values1 := values[name := c];
    forall key
      ensures key in NormalizedKeys(values1) <==> key in NormalizedKeys(values) + {Normalize(name)}
    {
      if key in NormalizedKeys(values) {
        var n :| n in values && key == Normalize(n);
        assert n in values1;
      }
      assert name in values1;
    }
  }

  /** NormalizeCredentials; the credentials come in any order, and colliding names overwrite each other. */
  method NormalizeCredentials(values: map<string, Credential>) returns (normalized: map<string, Content>, metadata: seq<Property>)
    ensures normalized.Keys == NormalizedKeys(values) == Names(metadata)
    ensures ValuesOf(values, normalized) && EntriesOf(values, metadata)
  {
    hide Names, NormalizedKeys, ValuesOf, EntriesOf, Normalize;
    normalized, metadata := map[], [];
    ghost var done: map<string, Credential> := map[];
    NothingDone();
    var rest := values.Keys;
    while rest != {}
      invariant rest <= values.Keys && done == values - rest
      invariant normalized.Keys == Names(metadata) == NormalizedKeys(done)
      invariant ValuesOf(done, normalized) && EntriesOf(done, metadata)
      decreases |rest|
    {
      var name :| name in rest;
      var (text, format) := Serialize(values[name]);
      NamesAppend(metadata, Property(Normalize(name), format, false));
      OneMoreValue(done, normalized, name, values[name], text);
      OneMoreEntry(done, metadata, name, values[name]);
      OneMoreKey(done, name, values[name]);
      metadata := metadata + [Property(Normalize(name), format, false)];
      normalized := normalized[Normalize(name) := Bytes(text)];
      rest := rest - {name};
      done := done[name := values[name]];
    }
    assert done == values;
  }

  lemma NothingDone()
    ensures Names([]) == NormalizedKeys(map[]) == {} && ValuesOf(map[], map[]) && EntriesOf(map[], [])
  {
  }

  predicate Distinct(tags: seq<string>) {
    forall j, k :: 0 <= j < k < |tags| ==> tags[j] != tags[k]
  }

  /** mergeInstanceTags: every tag once, in the order of its first occurrence. */
  method MergeInstanceTags(offeringTags: seq<string>, customTags: seq<string>) returns (tags: seq<string>)
    ensures Distinct(tags) && forall t :: t in tags <==> t in offeringTags || t in customTags
    ensures tags == FirstOccurrences(offeringTags + customTags)
  {
    var all := offeringTags + customTags;
    tags := [];
    for k := 0 to |all|
      invariant tags == FirstOccurrences(all[..k])
    {
      assert all[..k + 1][..k] == all[..k];
      if all[k] !in tags {
        tags := tags + [all[k]];
      }
    }
    assert all[..|all|] == all;
    FirstOccurrencesOk(all);
  }

  function FirstOccurrences(tags: seq<string>): seq<string> {
    if tags == [] then []
    else
      var before := FirstOccurrences(tags[..|tags| - 1]);
      var last := tags[|tags| - 1];
      if last in before then before else before + [last]
  }

  lemma {:induction false} FirstOccurrencesOk(tags: seq<string>)
    ensures Distinct(FirstOccurrences(tags)) && forall t :: t in FirstOccurrences(tags) <==> t in tags
  {
    if tags != [] {
      FirstOccurrencesOk(tags[..|tags| - 1]);
      assert tags == tags[..|tags| - 1] + [tags[|tags| - 1]];
    }
  }

  const INSTANCE_KEYS := {"instance_name", "instance_guid", "plan", "label", "type"}

  /** The keys that the description of the instance takes. */
  function TakenKeys(info: Option<InstanceInfo>): set<string> {
    if info.None? then {}
    else INSTANCE_KEYS + (if info.value.tags != [] || info.value.customTags != [] then {"tags"} else {})
  }

  /** The keys of the instance hold its name, its id, its plan and twice its offering; its tags are there if it has any. */
  ghost predicate ShowsInstance(data: map<string, Content>, info: InstanceInfo, marshal: seq<string> -> string) {
    && "instance_name" in data && data["instance_name"] == Bytes(info.name)
    && "instance_guid" in data && data["instance_guid"] == Bytes(info.guid)
    && "plan" in data && data["plan"] == Bytes(info.plan)
    && "label" in data && data["label"] == Bytes(info.offering)
    && "type" in data && data["type"] == Bytes(info.offering)
    && (info.tags != [] || info.customTags != [] ==>
          "tags" in data && data["tags"] == Bytes(marshal(FirstOccurrences(info.tags + info.customTags))))
  }

  /** How the descriptor lists the instance. */
  predicate ListsInstance(metadata: seq<Property>, tagged: bool) {
    metadata ==
      [Property("instance_name", Text, false), Property("instance_guid", Text, false), Property("plan", Text, false),
       Property("label", Text, false), Property("type", Text, false)]
      + (if tagged then [Property("tags", Json, false)] else [])
  }

  /** addInstanceInfo, with the encoding of lists as JSON; without an instance to read, nothing is added. */
  method AddInstanceInfo(data: map<string, Content>, info: Option<InstanceInfo>, marshal: seq<string> -> string)
    returns (data1: map<string, Content>, metadata: seq<Property>)
    ensures info.None? ==> data1 == data && metadata == []
    ensures info.Some? ==> data1.Keys == data.Keys + TakenKeys(info) && ShowsInstance(data1, info.value, marshal)
    ensures info.Some? ==> ListsInstance(metadata, "tags" in data1)
    ensures data1.Keys == data.Keys + Names(metadata)
    ensures METADATA in data1 <==> METADATA in data
    ensures METADATA !in Names(metadata)
    ensures forall key :: key in data && key !in TakenKeys(info) ==> data1[key] == data[key]
  {
    data1, metadata := data, [];
    if info.Some? {
      data1 := data1["instance_name" := Bytes(info.value.name)]["instance_guid" := Bytes(info.value.guid)]
        ["plan" := Bytes(info.value.plan)]["label" := Bytes(info.value.offering)]["type" := Bytes(info.value.offering)];
      FiveKeys(data, data1, info.value);
      if |info.value.tags| > 0 || |info.value.customTags| > 0 {
        var tags := MergeInstanceTags(info.value.tags, info.value.customTags);
        data1 := data1["tags" := Bytes(marshal(tags))];
      }
      metadata := [Property("instance_name", Text, false), Property("instance_guid", Text, false), Property("plan", Text, false),
        Property("label", Text, false), Property("type", Text, false)];
      FiveNames(metadata);
      if "tags" in data1 {
        NamesAppend(metadata, Property("tags", Json, false));
        metadata := metadata + [Property("tags", Json, false)];
      }
    }
  }

  lemma FiveKeys(data: map<string, Content>, data1: map<string, Content>, info: InstanceInfo)
    requires data1 == data["instance_name" := Bytes(info.name)]["instance_guid" := Bytes(info.guid)]
      ["plan" := Bytes(info.plan)]["label" := Bytes(info.offering)]["type" := Bytes(info.offering)]
    ensures data1.Keys == data.Keys + INSTANCE_KEYS
    ensures data1["instance_name"] == Bytes(info.name) && data1["instance_guid"] == Bytes(info.guid) && data1["plan"] == Bytes(info.plan)
    ensures data1["label"] == data1["type"] == Bytes(info.offering)
    ensures METADATA in data1 <==> METADATA in data
    ensures "tags" in data1 <==> "tags" in data
    ensures forall key :: key in data && key !in INSTANCE_KEYS ==> data1[key] == data[key]
  {
  }

  lemma FiveNames(m: seq<Property>)
    requires |m| == 5
    ensures Names(m) == {m[0].name, m[1].name, m[2].name, m[3].name, m[4].name}
  {
    assert m[0].name in Names(m) && m[1].name in Names(m) && m[2].name in Names(m) && m[3].name in Names(m) && m[4].name in Names(m);
  }

  /** The descriptor lists every key but its own, unless that is taken by a credential. */
  lemma DescriptorComplete(data: map<string, Content>, content: Content)
    ensures data.Keys == data[METADATA := content].Keys - {METADATA} <==> METADATA !in data
  {
  }

  lemma OneName(p: Property)
    ensures Names([p]) == {p.name} && Names([]) == {}
  {
    NamesAppend([], p);
    assert [] + [p] == [p];
  }

  /** The descriptor's own key is none of the instance's. */
  lemma MetadataApart(info: Option<InstanceInfo>, data: map<string, Content>, content: Content, marshal: seq<string> -> string)
    ensures METADATA !in TakenKeys(info)
    ensures info.Some? && ShowsInstance(data, info.value, marshal) ==> ShowsInstance(data[METADATA := content], info.value, marshal)
    ensures "tags" in data[METADATA := content] <==> "tags" in data
  {
    hide FirstOccurrences;
  }

  /** What the secret shows of the credentials, where nothing else takes the key. */
  ghost predicate ShowsCredentials(data: map<string, Content>, c: Credentials, taken: set<string>) {
    match c
    case NoCredentials => true
    case Single(key, json) => key !in taken ==> key in data && data[key] == Bytes(json)
    case Object(values) =>
      forall name :: name in values && Alone(values, name) && Normalize(name) !in taken ==> Shows(data, Normalize(name), values[name])
  }

  /** How the descriptor lists the credentials. */
  ghost predicate ListsCredentials(metadata: seq<Property>, c: Credentials) {
    match c
    case NoCredentials => metadata == []
    case Single(key, _) => metadata == [Property(key, Json, true)]
    case Object(values) => EntriesOf(values, metadata)
  }

  /** The contents that the credentials give, and their part of the descriptor. */
  method FromCredentials(credentials: Credentials) returns (data: map<string, Content>, properties: seq<Property>)
    ensures data.Keys == CredentialKeys(credentials) == Names(properties)
    ensures ShowsCredentials(data, credentials, {}) && ListsCredentials(properties, credentials)
  {
    properties := [];
    data := map[];
    match credentials {
      case NoCredentials =>
      case Single(key, json) =>
        data := map[key := Bytes(json)];
        properties := [Property(key, Json, true)];
        OneName(properties[0]);
      case Object(values) =>
        data, properties := NormalizeCredentials(values);
    }
  }

  lemma StillShown(data: map<string, Content>, data1: map<string, Content>, c: Credentials, taken: set<string>)
    requires ShowsCredentials(data, c, {})
    requires forall key :: key in data && key !in taken ==> key in data1 && data1[key] == data[key]
    ensures ShowsCredentials(data1, c, taken)
  {
    hide Normalize, Alone;
  }

  /** getSecretDefaultData without a root key, with the names its descriptor lists. */
  method GetSecretDefaultData(credentials: Credentials, info: Option<InstanceInfo>, marshal: seq<string> -> string)
    returns (data: map<string, Content>, listed: set<string>)
    ensures METADATA in data && data[METADATA].Descriptor?
    ensures listed == Names(data[METADATA].credentials) + Names(data[METADATA].instance)
    ensures CredentialKeys(credentials) <= listed
    ensures listed == data.Keys - {METADATA} <==> METADATA !in CredentialKeys(credentials)
    ensures ShowsCredentials(data, credentials, TakenKeys(info) + {METADATA})
    ensures ListsCredentials(data[METADATA].credentials, credentials)
    ensures info.Some? ==> ShowsInstance(data, info.value, marshal)
    ensures if info.Some? then ListsInstance(data[METADATA].instance, "tags" in data) else data[METADATA].instance == []
  {
    hide Names, ShowsCredentials, ListsCredentials, ShowsInstance, ListsInstance, TakenKeys, CredentialKeys;
    var properties, instance;
    data, properties := FromCredentials(credentials);
    ghost var shown := data;
    data, instance := AddInstanceInfo(data, info, marshal);
    listed := Names(properties) + Names(instance);
    DescriptorComplete(data, Descriptor(properties, instance));
    MetadataApart(info, data, Descriptor(properties, instance), marshal);
    data := data[METADATA := Descriptor(properties, instance)];
    StillShown(shown, data, credentials, TakenKeys(info) + {METADATA});
  }
}
