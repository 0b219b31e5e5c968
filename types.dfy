/** internal/admission/types.go: one JSON Patch operation, its JSON form, and
    the two constructors that wrap a patch list into an allowed response or an
    error into a denial. */
module AdmissionTypes {
  import opened Wrappers
  import opened Json
  import opened KubeApi

  /** `PatchOperation{Op, Path, Value}`. `Value` is an `interface{}` that the
      mutator only ever fills with a PodDNSConfig; None is the nil interface. */
  datatype PatchOperation = PatchOperation(op: string, path: string, value: Option<PodDNSConfig>)

  /** `Reply(response, err)` is Go's `(*AdmissionResponse, error)` pair; None is nil. */
  datatype Reply = Reply(response: Option<AdmissionResponse>, err: Option<string>)

  /** The JSON form of one operation: `op` and `path` always, in that order,
      then `value` unless the interface is nil (`omitempty`). */
  function EncodePatchOperation(p: PatchOperation): (r: Json)
    ensures r.JObject? && 2 <= |r.members| <= 3
    ensures r.members[0] == ("op", JString(p.op)) && r.members[1] == ("path", JString(p.path))
    ensures |r.members| == 3 <==> p.value.Some?
    ensures p.value.Some? ==> r.members[2] == ("value", EncodeDNSConfig(p.value.value))
  {
    JObject(
      [("op", JString(p.op)), ("path", JString(p.path))] +
      match p.value
      case None => []
      case Some(v) => [("value", EncodeDNSConfig(v))])
  }

  /** Reading an operation back as a JSON Patch consumer does, with the value
      read as a DNS configuration; an absent or `null` value is nil. */
  function DecodePatchOperation(j: Json): Option<PatchOperation>
  {
    match j
    case JObject(members) =>
      var op :- StringMember(members, "op");
      var path :- StringMember(members, "path");
      var value :- match Lookup(members, "value")
        case None => Some(None)
        case Some(JNull) => Some(None)
        case Some(v) =>
          var c :- DecodeDNSConfig(v);
          Some(Some(c));
      Some(PatchOperation(op, path, value))
    case _ => None
  }

  lemma PatchOperationRoundTrip(p: PatchOperation)
    ensures DecodePatchOperation(EncodePatchOperation(p)) == Some(p)
  {
    var m := EncodePatchOperation(p).members;
    assert Lookup(m, "op") == Some(JString(p.op));
    assert Lookup(m, "path") == Some(JString(p.path));
    if p.value.Some? {
      DNSConfigRoundTrip(p.value.value);
      assert Lookup(m, "value") == Some(EncodeDNSConfig(p.value.value));
    } else {
      assert Lookup(m, "value") == None;
    }
  }

  function EncodeOperations(ps: seq<PatchOperation>): (r: seq<Json>)
    ensures |r| == |ps|
    ensures forall i :: 0 <= i < |ps| ==> r[i] == EncodePatchOperation(ps[i])
  {
    if ps == [] then [] else [EncodePatchOperation(ps[0])] + EncodeOperations(ps[1..])
  }

  function DecodeOperations(items: seq<Json>): Option<seq<PatchOperation>>
  {
    if items == [] then Some([])
    else
      var first :- DecodePatchOperation(items[0]);
      var rest :- DecodeOperations(items[1..]);
      Some([first] + rest)
  }

  /** `json.Marshal(patches)` as a tree: a JSON array of operations, or `null`
      for the nil slice (a patch list in this program is empty only when no
      operation was ever appended to it). */
  function EncodePatches(ps: seq<PatchOperation>): Json
  {
    if ps == [] then JNull else JArray(EncodeOperations(ps))
  }

  function DecodePatches(j: Json): Option<seq<PatchOperation>>
  {
    match j
    case JNull => Some([])
    case JArray(items) => DecodeOperations(items)
    case _ => None
  }

  lemma {:induction false} OperationsRoundTrip(ps: seq<PatchOperation>)
    ensures DecodeOperations(EncodeOperations(ps)) == Some(ps)
  {
    if ps != [] {
      PatchOperationRoundTrip(ps[0]);
      OperationsRoundTrip(ps[1..]);
      var items := EncodeOperations(ps);
      assert items[1..] == EncodeOperations(ps[1..]);
      assert [ps[0]] + ps[1..] == ps;
    }
  }

  /** The serialised patch list reads back as the very list serialised. */
  lemma PatchesRoundTrip(ps: seq<PatchOperation>)
    ensures DecodePatches(EncodePatches(ps)) == Some(ps)
  {
    OperationsRoundTrip(ps);
  }

  /** `AdmissionError(err)`: a denial (Allowed left false) whose Status message
      is the error text, no patch, no patch type, no UID, returned with the
      same error. */
  function AdmissionError(err: string): (r: Reply)
    ensures r.err == Some(err)
    ensures r.response.Some?
    ensures !r.response.value.allowed
    ensures r.response.value.result == Some(Status(err))
    ensures r.response.value.patch.None? && r.response.value.patchType.None?
    ensures r.response.value.uid == ""
  {
    Reply(Some(AdmissionResponse("", false, Some(Status(err)), None, None)), Some(err))
  }

  const MarshalPatchesPrefix := "failed to marshal patches: "

  /** `AdmissionSuccess(patches)`: when writing the patch list succeeds, an
      allowed response carrying the written bytes and patch type JSONPatch, no
      Status, no UID, and a nil error; when it fails, a nil response and an
      error. `writeJson` is encoding/json's writer. */
  function AdmissionSuccess(ps: seq<PatchOperation>, writeJson: Json -> Result<Bytes>): (r: Reply)
    ensures r.err.None? <==> writeJson(EncodePatches(ps)).Success?
    ensures r.err.Some? ==>
              && r.response.None?
              && r.err == Some(MarshalPatchesPrefix + writeJson(EncodePatches(ps)).error)
    ensures r.err.None? ==>
              && r.response.Some?
              && r.response.value.allowed
              && r.response.value.patch == Some(writeJson(EncodePatches(ps)).value)
              && r.response.value.patchType == Some(JSONPatch)
              && r.response.value.result.None?
              && r.response.value.uid == ""
  {
    match writeJson(EncodePatches(ps))
    case Failure(e) => Reply(None, Some(MarshalPatchesPrefix + e))
    case Success(bytes) => Reply(Some(AdmissionResponse("", true, None, Some(bytes), Some(JSONPatch))), None)
  }
}
