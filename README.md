# A verified model of the DNS-config mutating admission webhook

The webhook answers Kubernetes Pod admission requests with a JSON Patch that
sets the Pod's `spec.dnsConfig` to a configured value. It can also reload that
value from a mounted configuration file while it runs. This project models the
core of that program in Dafny and proves properties of the model:

- **Mutation engine** (`AdmissionMutator`). `DNSConfigMutator` is a class with
  one field, `config`.
  - `Mutate` decodes the Pod. It then emits exactly one operation: `add` when
    `spec.dnsConfig` is nil, `replace` when it is present.
  - `UpdateConfig` swaps the whole stored configuration, but only when the new
    document parses.
- **Patch model and response constructors** (`AdmissionTypes`):
  - `PatchOperation` and its JSON form, where `value` is `omitempty`;
  - `AdmissionError`, which builds a denial and also returns the error;
  - `AdmissionSuccess`, which builds an allowed response with the serialised
    patch and patch type JSONPatch.
- **Request adapter** (`AdmissionHandler`). `ServeHTTP` is an early-return
  chain, modelled as a function from the request to an outcome: an HTTP
  error, a written envelope, or a panic.
- **Start-up and reload** (`Server`):
  - `LoadDNSConfig` falls back to a built-in `ndots: "1"` document;
  - `New` aborts when the loaded document does not parse;
  - the `watchConfigMap` loop is a step function `Step` over the state
    `(lastMod, config)`, plus an imperative `WatchConfigMap` method. The
    method drives the real mutator and is proved equal to the step function
    folded over its ticks.
- Supporting modules:
  - `Wrappers` (Option/Result);
  - `Json` (bytes and the JSON document tree);
  - `KubeApi` (the Kubernetes types the webhook touches, and the JSON form of
    `PodDNSConfig` as its published `omitempty` tags give it);
  - `JsonPatch` (how `add` and `replace` apply to the Pod under RFC 6902,
    sections 4.1 and 4.3). `JsonPatch` is the independent reference that the
    mutator's add/replace choice is checked against.

Foreign code becomes parameters:

- `encoding/json` is a `JsonCodec` made of four functions: decode the
  envelope, decode the Pod, write a JSON tree to bytes, and marshal the
  envelope.
- `yaml.Unmarshal` into `DNSConfig` is a `YamlDecoder`.
- A file read is its outcome (`Option<Bytes>`). A stat is the modification
  time it reports, or its failure.
- The clock is an integer start time. A `time.Sleep` tick is one element of a
  finite sequence of ticks.

A Pod that fails to decode never receives a denial envelope. `AdmissionError`
returns its error together with the denial response
(internal/admission/types.go:24). The handler turns any mutator error into HTTP
500 "mutation failed" (internal/admission/handler.go:66-71), so no envelope is
written. Lemma `AdmissionHandler.PodDecodeFailureIsInternalError` states this.

## Model

| member | source | states |
|---|---|---|
| `AdmissionMutator.DecidePatch` | internal/admission/mutator.go:64-79 | The one operation for a decoded Pod is `add` exactly when `spec.dnsConfig` is nil and `replace` exactly when it is present, always at `/spec/dnsConfig` with the desired configuration; applied under RFC 6902 it always succeeds (replace only when its target exists) and leaves the Pod holding exactly the desired configuration |
| `AdmissionMutator.DNSConfigMutator.Mutate` | internal/admission/mutator.go:37-88 | A Pod that fails to decode gets `AdmissionError` with the message "could not unmarshal pod object: " + the decode error; a decoded Pod gets `AdmissionSuccess` of the single decided operation carrying the stored config; no error exactly when the response is allowed; UID never set; being a function it cannot modify `config` |
| `AdmissionMutator.AdmittedPatchAppliesStoredConfig` | internal/admission/mutator.go:53-87 | When admission succeeds, the patch bytes are the writing of a JSON document that reads back as exactly one operation at `/spec/dnsConfig` with the stored config, `add` iff the Pod had none, and whose application installs the stored config |
| `AdmissionMutator.ExistingConfigIsIrrelevant` | internal/admission/mutator.go:65-78 | Two Pods that both carry some DNS config, whatever its contents, get the identical answer |
| `AdmissionMutator.ReadmissionIsIdempotent` | internal/admission/mutator.go:65-78 | Re-admitting an already-patched Pod yields `replace` with the identical path and value, and applying it leaves the Pod unchanged |
| `AdmissionMutator.NdotsFivePatchDocument` | internal/admission/mutator.go:65-71 | With config `ndots: "5"` and a Pod without DNS config the patch document is `[{"op":"add","path":"/spec/dnsConfig","value":{"options":[{"name":"ndots","value":"5"}]}}]` |
| `AdmissionMutator.DNSConfigMutator.UpdateConfig` | internal/admission/mutator.go:91-98 | Unparsable data: error "failed to unmarshal DNS config: " + reason and `config` unchanged; parsable data: no error and `config` replaced wholesale by the parsed document |
| `AdmissionMutator.NewDNSConfigMutator` | internal/admission/mutator.go:25-34 | No mutator and an error exactly when the data fails to parse; otherwise a fresh mutator holding the parsed document |
| `AdmissionMutator.DNSConfigMutator.constructor` | internal/admission/mutator.go:31-33 | The new mutator stores the given config |
| `AdmissionTypes.EncodePatchOperation` | internal/admission/types.go:12-16 | A serialised operation always has `op` then `path`, and has a third member `value` exactly when the value is non-nil |
| `AdmissionTypes.PatchesRoundTrip` | internal/admission/types.go:12-16 | Reading back the serialised patch list gives the very list serialised, values included |
| `AdmissionTypes.AdmissionError` | internal/admission/types.go:19-25 | Allowed false, Status message equal to the error text, no Patch, no PatchType, no UID, returned with the same error |
| `AdmissionTypes.AdmissionSuccess` | internal/admission/types.go:28-42 | No error exactly when the patch list can be written; then Allowed true, Patch the written bytes of the serialised list, PatchType JSONPatch, no Status, no UID; otherwise a nil response and the error "failed to marshal patches: " + reason |
| `KubeApi.DNSConfigRoundTrip` | internal/admission/mutator.go:69 | Reading back the JSON form of the DNS config value carried by the patch gives that config: members dropped by `omitempty` are restored as empty |
| `JsonPatch.ApplyOperation` | internal/admission/mutator.go:65-78 | RFC 6902 reference for the two operations: success only at `/spec/dnsConfig` with a value and then the Pod with that config; `replace` of a missing target fails; `add` with a value always succeeds |
| `AdmissionHandler.Answered` | internal/admission/handler.go:74-75 | The written envelope keeps the request, kind and version as decoded; its response is the mutator's response with only the UID changed, to the request UID |
| `AdmissionHandler.Handler.constructor` | internal/admission/handler.go:17-23 | `NewHandler` keeps the given mutator |
| `AdmissionHandler.Handler.ServeHTTP` | internal/admission/handler.go:26-105 | 400 exactly for a Content-Type other than `application/json`, a body read failure or an envelope decode failure, each with its own message; a panic exactly when the decoded envelope has no Request; 500 "mutation failed" exactly when the mutator returns an error; 500 "failed to marshal response" exactly when the answered envelope cannot be marshalled; the outcome is written exactly when every step succeeds, and a written outcome is the decoded envelope answered with the mutator's response and the echoed UID, marshalled, with Content-Type `application/json` |
| `AdmissionHandler.GuardsDoNotConsultMutator` | internal/admission/handler.go:31-52 | A request rejected by the content-type, body-read or envelope-decode guard gets 400 and the same outcome whatever the mutator holds |
| `AdmissionHandler.PodDecodeFailureIsInternalError` | internal/admission/handler.go:66-71 | A Pod that fails to decode ends as HTTP 500 "mutation failed", not as a denial envelope |
| `AdmissionHandler.WrittenEnvelopeEchoesUid` | internal/admission/handler.go:74-104 | Every written envelope has Response.UID equal to Request.UID, Allowed true, a patch and patch type JSONPatch |
| `Server.LoadDNSConfig` | internal/server/server.go:102-120 | Never an error; a successful read gives the file bytes unchanged; a failed read gives the built-in document |
| `Server.New` | internal/server/server.go:32-62 | Start-up aborts exactly when the loaded document fails to parse; otherwise the handler holds the fresh mutator with the parsed config; with the built-in document readable, a missing file never aborts and leaves `ndots` = "1" in force |
| `Server.Server.constructor` | internal/server/server.go:35-57 | The server keeps the mutator and handler it is given: the `mutator` field stands for the mutator the watcher goroutine is started on (line 54), the `handler` field for the handler routed at `/mutate` (line 57) |
| `Server.Step` | internal/server/server.go:139-166 | A stat failure, a modtime not strictly after `lastMod`, a read failure or a parse failure leaves `lastMod` and the config unchanged; otherwise the config becomes the parsed file and `lastMod` the modtime; `lastMod` never decreases and stays put only when nothing changed |
| `Server.RunNeverGoesBack` | internal/server/server.go:149-163 | Over any run `lastMod` never decreases, and when it ends where it started the config is also unchanged, so successful reloads strictly increase `lastMod` |
| `Server.NoReloadWithoutNewerFile` | internal/server/server.go:137-149 | If no observed modtime is after the starting `lastMod` (the watcher's start time) nothing is ever reloaded |
| `Server.StateComesFromOneReload` | internal/server/server.go:152-163 | After any run the state is the initial one or exactly the document one tick read and parsed, with that tick's modtime: never a mix |
| `Server.FailedReadIsRetried` | internal/server/server.go:152-156 | A failed read of a changed file leaves state unchanged and the next tick, seeing the same modtime, reloads it |
| `Server.WatchConfigMap` | internal/server/server.go:135-167 | The loop, run on the mutator over a sequence of ticks from start time `now`, ends with `lastMod` and the mutator's config equal to the step function folded over those ticks |

## Left out

- `cmd/webhook/main.go` and internal/config/config.go are not part of this model. They are process wiring, environment variables, `os.Stat` and `strconv.Atoi`.
- Server `init`, `Start`, `healthCheck`, `logRequests` and route registration (internal/server/server.go): these are flag, klog, TLS, health and HTTP plumbing.
- All klog logging is left out. This includes the `"<generating>"` Pod-name substitution and the pretty-printed configs in `Mutate`, which only feed log lines.
- Concurrency is left out. In the source, the watcher goroutine swaps `m.config` without synchronisation while handlers read it. Here the watcher and admissions interleave only between whole calls. `Mutate` reads `config` once, as a function of the current state.
- The byte level of `encoding/json` and `yaml.v2` is foreign and is passed in as functions. The JSON tree of the patch list is modelled, following the struct tags. The typed YAML decoding is not.
- `Server.New`: "the built-in document always parses" holds only under the assumption `ReadsDefaultDocument(yaml)`. That assumption says the YAML library reads the built-in text as the single option `ndots` = "1". It is a hypothesis, not a proof, because the parser is foreign.
- `AdmissionTypes.EncodePatches`: an empty list is written as `null`, which is Go's nil slice. In this program an empty patch list is always nil, because `Mutate` only ever appends to a nil slice.
- `PatchOperation.Value` holds only a `PodDNSConfig` or nil. That is all the mutator ever puts there, so other `interface{}` contents are not modelled.
- `JsonPatch.ApplyOperation` models only `add` and `replace`, and only at `/spec/dnsConfig`. Any other operation or path is an error in the model. The webhook emits nothing else.
- The watcher's infinite loop runs over a finite sequence of ticks. `time.Now()` and `time.Sleep` become an integer start time and one tick per element.
- `Server.Server.constructor`: the Go struct's `cfg` and `mux` fields are not modelled. The server instead keeps the mutator handed to `watchConfigMap` and the handler registered on the mux at `/mutate`.
- The handler's HTTP side is abstracted. `http.Error` becomes a status and a message. Its `text/plain` header, the trailing newline and the success status 200 are not modelled.
