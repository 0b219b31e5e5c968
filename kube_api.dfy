/** The parts of the Kubernetes API types (core/v1 and admission/v1) that the
    webhook reads or writes, and the JSON form of the Pod DNS configuration as
    its published struct tags give it (every field `omitempty`). */
module KubeApi {
  import opened Wrappers
  import opened Json

  /** core/v1 PodDNSConfigOption: `name` (string, omitempty), `value` (*string, omitempty). */
  datatype PodDNSConfigOption = PodDNSConfigOption(name: string, value: Option<string>)

  /** core/v1 PodDNSConfig. */
  datatype PodDNSConfig = PodDNSConfig(
    nameservers: seq<string>,
    searches: seq<string>,
    options: seq<PodDNSConfigOption>)

  /** A Pod as the mutator sees it: its `spec.dnsConfig` pointer (None for nil)
      and every other member of `spec`, kept as JSON so that a patch can be seen
      to leave them alone. */
  datatype PodSpec = PodSpec(dnsConfig: Option<PodDNSConfig>, otherMembers: seq<(string, Json)>)

  datatype Pod = Pod(name: string, namespace: string, spec: PodSpec)

  /** admission/v1 AdmissionRequest: the fields the webhook touches; `raw` is
      `Object.Raw`, the serialised Pod. */
  datatype AdmissionRequest = AdmissionRequest(uid: string, name: string, namespace: string, raw: Bytes)

  /** meta/v1 Status, of which only the message is set. */
  datatype Status = Status(message: string)

  datatype PatchType = JSONPatch

  /** admission/v1 AdmissionResponse. `patch` and `patchType` are None for a nil
      slice and a nil pointer; `result` is None for a nil Status pointer. */
  datatype AdmissionResponse = AdmissionResponse(
    uid: string,
    allowed: bool,
    result: Option<Status>,
    patch: Option<Bytes>,
    patchType: Option<PatchType>)

  /** admission/v1 AdmissionReview: the envelope read from and written back to
      the API server. */
  datatype AdmissionReview = AdmissionReview(
    apiVersion: string,
    kind: string,
    request: Option<AdmissionRequest>,
    response: Option<AdmissionResponse>)

  /** encoding/json as the webhook calls it: decoding the envelope, decoding the
      Pod, rendering a JSON tree to bytes, and marshalling the envelope. Each may
      fail with the library's error text. */
  datatype JsonCodec = JsonCodec(
    decodeReview: Bytes -> Result<AdmissionReview>,
    decodePod: Bytes -> Result<Pod>,
    writeJson: Json -> Result<Bytes>,
    marshalReview: AdmissionReview -> Result<Bytes>)

  // ----- JSON form of the DNS configuration -----

  /** The members of an object for one `omitempty` slice field. */
  function OmitEmptyArray(key: string, items: seq<Json>): seq<(string, Json)>
  {
    if items == [] then [] else [(key, JArray(items))]
  }

  function EncodeOption(o: PodDNSConfigOption): (r: Json)
    ensures r.JObject?
    ensures Lookup(r.members, "name").Some? <==> o.name != ""
    ensures Lookup(r.members, "value").Some? <==> o.value.Some?
  {
    JObject(
      (if o.name == "" then [] else [("name", JString(o.name))]) +
      (match o.value
       case None => []
       case Some(v) => [("value", JString(v))]))
  }

  function DecodeOption(j: Json): Option<PodDNSConfigOption>
  {
    match j
    case JObject(members) =>
      var name :- StringMember(members, "name");
      var value :- StringPointerMember(members, "value");
      Some(PodDNSConfigOption(name, value))
    case _ => None
  }

  lemma OptionRoundTrip(o: PodDNSConfigOption)
    ensures DecodeOption(EncodeOption(o)) == Some(o)
  {
  }

  function EncodeOptions(os: seq<PodDNSConfigOption>): (r: seq<Json>)
    ensures |r| == |os|
  {
    if os == [] then [] else [EncodeOption(os[0])] + EncodeOptions(os[1..])
  }

  function DecodeOptions(items: seq<Json>): Option<seq<PodDNSConfigOption>>
  {
    if items == [] then Some([])
    else
      var first :- DecodeOption(items[0]);
      var rest :- DecodeOptions(items[1..]);
      Some([first] + rest)
  }

  lemma {:induction false} OptionsRoundTrip(os: seq<PodDNSConfigOption>)
    ensures DecodeOptions(EncodeOptions(os)) == Some(os)
  {
    if os != [] {
      OptionRoundTrip(os[0]);
      OptionsRoundTrip(os[1..]);
      var items := EncodeOptions(os);
      assert items[0] == EncodeOption(os[0]) && items[1..] == EncodeOptions(os[1..]);
      assert [os[0]] + os[1..] == os;
    }
  }

  function EncodeDNSConfig(c: PodDNSConfig): (r: Json)
    ensures r.JObject?
  {
    JObject(
      OmitEmptyArray("nameservers", EncodeStrings(c.nameservers)) +
      OmitEmptyArray("searches", EncodeStrings(c.searches)) +
      OmitEmptyArray("options", EncodeOptions(c.options)))
  }

  /** The `[]PodDNSConfigOption` field (omitempty): absent or `null` is nil. */
  function OptionsMember(members: seq<(string, Json)>, key: string): Option<seq<PodDNSConfigOption>>
  {
    match Lookup(members, key)
    case None => Some([])
    case Some(JNull) => Some([])
    case Some(JArray(items)) => DecodeOptions(items)
    case Some(_) => None
  }

  function DecodeDNSConfig(j: Json): Option<PodDNSConfig>
  {
    match j
    case JObject(members) =>
      var nameservers :- StringsMember(members, "nameservers");
      var searches :- StringsMember(members, "searches");
      var options :- OptionsMember(members, "options");
      Some(PodDNSConfig(nameservers, searches, options))
    case _ => None
  }

  /** The JSON form of one `omitempty` slice field holds no member but its own. */
  lemma LookupOmitEmpty(key: string, items: seq<Json>, k: string)
    ensures Lookup(OmitEmptyArray(key, items), k) ==
      if k == key && items != [] then Some(JArray(items)) else None
  {
  }

  /** Where each of the three members of an encoded DNS configuration is found. */
  lemma LookupEncodedDNSConfig(c: PodDNSConfig, k: string)
    requires k == "nameservers" || k == "searches" || k == "options"
    ensures Lookup(EncodeDNSConfig(c).members, k) ==
      if k == "nameservers" then OmitEmptyLookup(EncodeStrings(c.nameservers))
      else if k == "searches" then OmitEmptyLookup(EncodeStrings(c.searches))
      else OmitEmptyLookup(EncodeOptions(c.options))
  {
    var ns := OmitEmptyArray("nameservers", EncodeStrings(c.nameservers));
    var ss := OmitEmptyArray("searches", EncodeStrings(c.searches));
    var os := OmitEmptyArray("options", EncodeOptions(c.options));
    assert EncodeDNSConfig(c).members == (ns + ss) + os;
    LookupAppend(ns + ss, os, k);
    LookupAppend(ns, ss, k);
    LookupOmitEmpty("nameservers", EncodeStrings(c.nameservers), k);
    LookupOmitEmpty("searches", EncodeStrings(c.searches), k);
    LookupOmitEmpty("options", EncodeOptions(c.options), k);
  }

  /** What looking up an `omitempty` slice member finds when it holds `items`. */
  function OmitEmptyLookup(items: seq<Json>): Option<Json>
  {
    if items == [] then None else Some(JArray(items))
  }

  lemma StringsMemberOfEncoded(members: seq<(string, Json)>, k: string, xs: seq<string>)
    requires Lookup(members, k) == OmitEmptyLookup(EncodeStrings(xs))
    ensures StringsMember(members, k) == Some(xs)
  {
    StringsRoundTrip(xs);
  }

  lemma OptionsMemberOfEncoded(members: seq<(string, Json)>, k: string, os: seq<PodDNSConfigOption>)
    requires Lookup(members, k) == OmitEmptyLookup(EncodeOptions(os))
    ensures OptionsMember(members, k) == Some(os)
  {
    OptionsRoundTrip(os);
  }

  /** Decoding the JSON form of a DNS configuration gives that configuration
      back: the `omitempty` members that the encoder drops are exactly the ones
      the decoder restores as empty. */
  lemma DNSConfigRoundTrip(c: PodDNSConfig)
    ensures DecodeDNSConfig(EncodeDNSConfig(c)) == Some(c)
  {
    var m := EncodeDNSConfig(c).members;
    LookupEncodedDNSConfig(c, "nameservers");
    StringsMemberOfEncoded(m, "nameservers", c.nameservers);
    LookupEncodedDNSConfig(c, "searches");
    StringsMemberOfEncoded(m, "searches", c.searches);
    LookupEncodedDNSConfig(c, "options");
    OptionsMemberOfEncoded(m, "options", c.options);
  }
}
