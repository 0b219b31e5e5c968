/** internal/admission/mutator.go: the stored DNS configuration, the add-or-
    replace decision, and the whole-value configuration swap. */
module AdmissionMutator {
  import opened Wrappers
  import opened Json
  import opened KubeApi
  import opened AdmissionTypes
  import opened JsonPatch

  /** `DNSConfig`: the configuration document, whose `dnsConfig` member is the
      Pod DNS configuration every admitted Pod receives. */
  datatype DNSConfig = DNSConfig(dnsConfig: PodDNSConfig)

  /** `yaml.Unmarshal(data, &DNSConfig{})`, foreign: the document it reads or
      the library's error text. */
  type YamlDecoder = Bytes -> Result<DNSConfig>

  const UnmarshalConfigPrefix := "failed to unmarshal DNS config: "
  const UnmarshalPodPrefix := "could not unmarshal pod object: "

  /** The single operation emitted for a decoded Pod: `add` when its
      `spec.dnsConfig` is nil, `replace` when it is present whatever it holds,
      always at `/spec/dnsConfig` with the desired configuration. `replace` is
      only chosen when its target exists, so the operation always applies and
      leaves the Pod holding exactly the desired configuration. */
  function DecidePatch(pod: Pod, desired: PodDNSConfig): (p: PatchOperation)
    ensures p.path == DnsConfigPath && p.value == Some(desired)
    ensures p.op == OpAdd <==> pod.spec.dnsConfig.None?
    ensures p.op == OpReplace <==> pod.spec.dnsConfig.Some?
    ensures ApplyOperation(pod, p) == Success(WithDNSConfig(pod, desired))
  {
    PatchOperation(if pod.spec.dnsConfig == None then OpAdd else OpReplace, DnsConfigPath, Some(desired))
  }

  class DNSConfigMutator {
    /** `m.config`, swapped whole by UpdateConfig. */
    var config: DNSConfig

    constructor (config: DNSConfig)
      ensures this.config == config
    {
      this.config := config;
    }

    /** `Mutate(ar)`. A Pod that does not decode is answered by AdmissionError
        with the decode error behind the fixed prefix; a Pod that decodes is
        answered by AdmissionSuccess with the one decided operation, carrying
        the configuration stored now. Being a function, it cannot change
        `config`. */
    function Mutate(ar: AdmissionRequest, codec: JsonCodec): (r: Reply)
      reads this
      ensures codec.decodePod(ar.raw).Failure? ==>
                r == AdmissionError(UnmarshalPodPrefix + codec.decodePod(ar.raw).error)
      ensures codec.decodePod(ar.raw).Success? ==>
                r == AdmissionSuccess([DecidePatch(codec.decodePod(ar.raw).value, config.dnsConfig)], codec.writeJson)
      ensures r.err.None? <==> r.response.Some? && r.response.value.allowed
      ensures r.response.Some? ==> r.response.value.uid == ""
    {
      match codec.decodePod(ar.raw)
      case Failure(e) => AdmissionError(UnmarshalPodPrefix + e)
      case Success(pod) => AdmissionSuccess([DecidePatch(pod, config.dnsConfig)], codec.writeJson)
    }

    /** `UpdateConfig(data)`: an unparsable document is refused with an error
        and the stored configuration stays as it was; a parsable one replaces
        it wholesale. */
    method UpdateConfig(data: Bytes, yaml: YamlDecoder) returns (err: Option<string>)
      modifies this
      ensures yaml(data).Failure? ==>
                err == Some(UnmarshalConfigPrefix + yaml(data).error) && config == old(config)
      ensures yaml(data).Success? ==> err.None? && config == yaml(data).value
    {
      match yaml(data)
      case Failure(e) =>
        err := Some(UnmarshalConfigPrefix + e);
      case Success(parsed) =>
        config := parsed;
        err := None;
    }
  }

  /** `NewDNSConfigMutator(data)`: no mutator and an error exactly when the
      document does not parse; otherwise a new mutator holding it. */
  method NewDNSConfigMutator(data: Bytes, yaml: YamlDecoder) returns (m: DNSConfigMutator?, err: Option<string>)
    ensures m == null <==> err.Some?
    ensures yaml(data).Failure? ==> m == null && err == Some(UnmarshalConfigPrefix + yaml(data).error)
    ensures yaml(data).Success? ==> m != null && fresh(m) && m.config == yaml(data).value
  {
    match yaml(data)
    case Failure(e) =>
      m, err := null, Some(UnmarshalConfigPrefix + e);
    case Success(parsed) =>
      m := new DNSConfigMutator(parsed);
      err := None;
  }

  /** What reaches the API server when a Pod is admitted: bytes written from a
      JSON document that reads back as exactly one operation at
      `/spec/dnsConfig` carrying the stored configuration, `add` exactly when
      the Pod had no DNS configuration, and whose application succeeds and
      installs the stored configuration. */
  lemma AdmittedPatchAppliesStoredConfig(m: DNSConfigMutator, ar: AdmissionRequest, codec: JsonCodec)
    requires codec.decodePod(ar.raw).Success?
    requires m.Mutate(ar, codec).err.None?
    ensures var pod := codec.decodePod(ar.raw).value;
            exists doc ::
              && codec.writeJson(doc).Success?
              && m.Mutate(ar, codec).response.value.patch == Some(codec.writeJson(doc).value)
              && DecodePatches(doc).Some?
              && |DecodePatches(doc).value| == 1
              && DecodePatches(doc).value[0].path == DnsConfigPath
              && DecodePatches(doc).value[0].value == Some(m.config.dnsConfig)
              && (DecodePatches(doc).value[0].op == OpAdd <==> pod.spec.dnsConfig.None?)
              && ApplyPatch(pod, DecodePatches(doc).value) == Success(WithDNSConfig(pod, m.config.dnsConfig))
  {
    var pod := codec.decodePod(ar.raw).value;
    var p := DecidePatch(pod, m.config.dnsConfig);
    var doc := EncodePatches([p]);
    PatchesRoundTrip([p]);
    assert ApplyPatch(pod, [p]) == Success(WithDNSConfig(pod, m.config.dnsConfig)) by {
      assert [p][1..] == [];
    }
  }

  /** The emitted patch does not depend on what DNS configuration a Pod
      already has: two Pods that both carry one, of any contents, get the same
      answer. */
  lemma ExistingConfigIsIrrelevant(m: DNSConfigMutator, ar1: AdmissionRequest, ar2: AdmissionRequest, codec: JsonCodec)
    requires codec.decodePod(ar1.raw).Success? && codec.decodePod(ar2.raw).Success?
    requires codec.decodePod(ar1.raw).value.spec.dnsConfig.Some?
    requires codec.decodePod(ar2.raw).value.spec.dnsConfig.Some?
    ensures m.Mutate(ar1, codec) == m.Mutate(ar2, codec)
  {
  }

  /** Re-admitting a Pod that already carries the patch yields `replace` with
      the identical value, and applying it changes nothing: the effect of
      admission is idempotent. */
  lemma ReadmissionIsIdempotent(pod: Pod, desired: PodDNSConfig)
    ensures var once := WithDNSConfig(pod, desired);
            && DecidePatch(once, desired).op == OpReplace
            && DecidePatch(once, desired).value == DecidePatch(pod, desired).value
            && DecidePatch(once, desired).path == DecidePatch(pod, desired).path
            && ApplyPatch(once, [DecidePatch(once, desired)]) == Success(once)
  {
  }

  /** The configuration `ndots: "5"` admitted for a Pod without DNS
      configuration gives the document
      `[{"op":"add","path":"/spec/dnsConfig","value":{"options":[{"name":"ndots","value":"5"}]}}]`. */
  lemma NdotsFivePatchDocument(pod: Pod)
    requires pod.spec.dnsConfig.None?
    ensures EncodePatches([DecidePatch(pod, PodDNSConfig([], [], [PodDNSConfigOption("ndots", Some("5"))]))]) ==
      JArray([JObject([
        ("op", JString("add")),
        ("path", JString("/spec/dnsConfig")),
        ("value", JObject([("options", JArray([JObject([("name", JString("ndots")), ("value", JString("5"))])]))]))])])
  {
    var c := PodDNSConfig([], [], [PodDNSConfigOption("ndots", Some("5"))]);
    var option := JObject([("name", JString("ndots")), ("value", JString("5"))]);
    assert EncodeOption(c.options[0]) == option;
    assert EncodeOptions(c.options) == [option];
    assert EncodeDNSConfig(c) == JObject([("options", JArray([option]))]) by {
      assert EncodeStrings([]) == [];
    }
    var p := DecidePatch(pod, c);
    assert EncodePatchOperation(p) == JObject([
      ("op", JString("add")),
      ("path", JString("/spec/dnsConfig")),
      ("value", JObject([("options", JArray([option]))]))]);
    assert EncodeOperations([p]) == [EncodePatchOperation(p)];
  }
}
