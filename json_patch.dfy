/** What the API server does with the webhook's patch: JSON Patch (RFC 6902)
    applied to a Pod, for the `add` (section 4.1) and `replace` (section 4.3)
    operations at the one location this webhook targets, the JSON Pointer
    (RFC 6901) `/spec/dnsConfig`. It is the reference the mutator's decision is
    checked against; operations and paths the webhook never emits are errors
    here rather than modelled. Two further simplifications, neither of which
    the webhook exercises: an operation whose `value` is JSON `null` counts as
    having no value (RFC 6902 allows `null`), and a `dnsConfig` member that is
    present but `null` counts as absent (for RFC 6902 it is an existing target
    of `replace`), because the Pod model has no way to hold a `null` member. */
module JsonPatch {
  import opened Wrappers
  import opened KubeApi
  import opened AdmissionTypes

  const DnsConfigPath := "/spec/dnsConfig"
  const OpAdd := "add"
  const OpReplace := "replace"

  /** The Pod with its `spec.dnsConfig` member set to `c`, all else as it was. */
  function WithDNSConfig(pod: Pod, c: PodDNSConfig): Pod
  {
    pod.(spec := pod.spec.(dnsConfig := Some(c)))
  }

  /** One operation. Both operations must carry a value (sections 4.1 and 4.3).
      `add` on an existing object member replaces it, on a missing one creates
      it (section 4.1); `replace` requires the target to exist (section 4.3). */
  function ApplyOperation(pod: Pod, p: PatchOperation): (r: Result<Pod>)
    ensures r.Success? ==> p.path == DnsConfigPath && p.value.Some? && r.value == WithDNSConfig(pod, p.value.value)
    ensures p.op == OpReplace && pod.spec.dnsConfig.None? ==> r.Failure?
    ensures p.path == DnsConfigPath && p.value.Some? && p.op == OpAdd ==> r.Success?
  {
    if p.path != DnsConfigPath then Failure("path not modelled: " + p.path)
    else if p.value.None? then Failure("operation has no value")
    else if p.op == OpAdd then Success(WithDNSConfig(pod, p.value.value))
    else if p.op == OpReplace then
      if pod.spec.dnsConfig.None? then Failure("replace target does not exist")
      else Success(WithDNSConfig(pod, p.value.value))
    else Failure("operation not modelled: " + p.op)
  }

  /** A patch document is applied operation by operation; if one fails the
      whole patch fails (section 5). */
  function ApplyPatch(pod: Pod, ps: seq<PatchOperation>): Result<Pod>
    decreases |ps|
  {
    if ps == [] then Success(pod)
    else
      var next :- ApplyOperation(pod, ps[0]);
      ApplyPatch(next, ps[1..])
  }
}
