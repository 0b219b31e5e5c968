/** internal/admission/handler.go: the HTTP entry point, an early-return chain
    from the raw request to one of three outcomes. */
module AdmissionHandler {
  import opened Wrappers
  import opened Json
  import opened KubeApi
  import opened AdmissionTypes
  import opened AdmissionMutator

  const JsonContentType := "application/json"
  const StatusBadRequest := 400
  const StatusInternalServerError := 500

  const BadContentTypeMessage := "invalid Content-Type, want application/json"
  const ReadBodyMessage := "failed to read request body"
  const UnmarshalRequestMessage := "failed to unmarshal request"
  const MutationFailedMessage := "mutation failed"
  const MarshalResponseMessage := "failed to marshal response"

  /** The request as the handler consumes it: the value `Header.Get` returns
      for Content-Type ("" when there is none), and the outcome of reading the
      whole body (None when the read fails). */
  datatype HttpRequest = HttpRequest(contentType: string, body: Option<Bytes>)

  /** What the handler leaves on the connection: an `http.Error` reply, the
      written envelope with its Content-Type, or a panic (a nil pointer
      dereference, which net/http recovers by dropping the connection). */
  datatype Outcome =
    | HttpError(status: int, message: string)
    | Written(contentType: string, envelope: AdmissionReview, body: Bytes)
    | Panicked

  /** The envelope the handler writes for a decoded review: the mutator's
      response with the request UID copied into it; everything else as read. */
  function Answered(review: AdmissionReview, response: AdmissionResponse): (e: AdmissionReview)
    requires review.request.Some?
    ensures e.request == review.request
    ensures e.apiVersion == review.apiVersion && e.kind == review.kind
    ensures e.response.Some? && e.response.value.uid == review.request.value.uid
    ensures e.response.value.(uid := response.uid) == response
  {
    review.(response := Some(response.(uid := review.request.value.uid)))
  }

  class Handler {
    const mutator: DNSConfigMutator

    /** `NewHandler(mutator)`. */
    constructor (mutator: DNSConfigMutator)
      ensures this.mutator == mutator
    {
      this.mutator := mutator;
    }

    /** `ServeHTTP(w, r)`. */
    function ServeHTTP(req: HttpRequest, codec: JsonCodec): (o: Outcome)
      reads mutator
      // The three guards before the mutator answer 400, and only they do.
      ensures o.HttpError? && o.status == StatusBadRequest <==>
                req.contentType != JsonContentType || req.body.None? ||
                codec.decodeReview(req.body.value).Failure?
      ensures req.contentType != JsonContentType ==> o == HttpError(StatusBadRequest, BadContentTypeMessage)
      ensures req.contentType == JsonContentType && req.body.None? ==> o == HttpError(StatusBadRequest, ReadBodyMessage)
      ensures req.contentType == JsonContentType && req.body.Some? && codec.decodeReview(req.body.value).Failure? ==>
                o == HttpError(StatusBadRequest, UnmarshalRequestMessage)
      // A decoded envelope without a Request is dereferenced and panics.
      ensures o.Panicked? <==>
                && req.contentType == JsonContentType && req.body.Some?
                && codec.decodeReview(req.body.value).Success?
                && codec.decodeReview(req.body.value).value.request.None?
      // Any mutator error, a Pod that does not decode included, is a 500.
      ensures o == HttpError(StatusInternalServerError, MutationFailedMessage) <==>
                && req.contentType == JsonContentType && req.body.Some?
                && codec.decodeReview(req.body.value).Success?
                && codec.decodeReview(req.body.value).value.request.Some?
                && mutator.Mutate(codec.decodeReview(req.body.value).value.request.value, codec).err.Some?
      // A response that cannot be marshalled is a 500 of its own.
      ensures o == HttpError(StatusInternalServerError, MarshalResponseMessage) <==>
                && req.contentType == JsonContentType && req.body.Some?
                && codec.decodeReview(req.body.value).Success?
                && var review := codec.decodeReview(req.body.value).value;
                && review.request.Some?
                && var reply := mutator.Mutate(review.request.value, codec);
                && reply.err.None?
                && codec.marshalReview(Answered(review, reply.response.value)).Failure?
      // What is written is the decoded envelope answered with the mutator's
      // response, the UID echoed, marshalled, as JSON.
      ensures o.Written? ==>
                && req.body.Some?
                && codec.decodeReview(req.body.value).Success?
                && var review := codec.decodeReview(req.body.value).value;
                && review.request.Some?
                && var reply := mutator.Mutate(review.request.value, codec);
                && reply.err.None?
                && o.envelope == Answered(review, reply.response.value)
                && o.contentType == JsonContentType
                && codec.marshalReview(o.envelope) == Success(o.body)
      // ... and a request that passes every step is written, exactly so.
      ensures (&& req.contentType == JsonContentType && req.body.Some?
               && codec.decodeReview(req.body.value).Success?
               && var review := codec.decodeReview(req.body.value).value;
               && review.request.Some?
               && var reply := mutator.Mutate(review.request.value, codec);
               && reply.err.None?
               && codec.marshalReview(Answered(review, reply.response.value)).Success?) ==>
                var review := codec.decodeReview(req.body.value).value;
                var envelope := Answered(review, mutator.Mutate(review.request.value, codec).response.value);
                o == Written(JsonContentType, envelope, codec.marshalReview(envelope).value)
    {
      if req.contentType != JsonContentType then HttpError(StatusBadRequest, BadContentTypeMessage)
      else match req.body
        case None => HttpError(StatusBadRequest, ReadBodyMessage)
        case Some(body) =>
          match codec.decodeReview(body)
          case Failure(_) => HttpError(StatusBadRequest, UnmarshalRequestMessage)
          case Success(review) =>
            match review.request
            case None => Panicked
            case Some(request) =>
              var reply := mutator.Mutate(request, codec);
              if reply.err.Some? then HttpError(StatusInternalServerError, MutationFailedMessage)
              else
                // Mutate never returns a nil response with a nil error, so the
                // UID assignment (internal/admission/handler.go:75) always has a
                // response to write to.
                var envelope := Answered(review, reply.response.value);
                match codec.marshalReview(envelope)
                case Failure(_) => HttpError(StatusInternalServerError, MarshalResponseMessage)
                case Success(bytes) => Written(JsonContentType, envelope, bytes)
    }
  }

  /** A request refused by one of the three guards gets the same answer
      whatever the mutator holds: the mutator is never consulted. */
  lemma GuardsDoNotConsultMutator(h1: Handler, h2: Handler, req: HttpRequest, codec: JsonCodec)
    requires req.contentType != JsonContentType || req.body.None? || codec.decodeReview(req.body.value).Failure?
    ensures h1.ServeHTTP(req, codec) == h2.ServeHTTP(req, codec)
    ensures h1.ServeHTTP(req, codec).HttpError? && h1.ServeHTTP(req, codec).status == StatusBadRequest
  {
  }

  /** A Pod that does not decode ends as a 500 with no envelope written: the
      denial AdmissionError builds is discarded, because it comes with an error. */
  lemma PodDecodeFailureIsInternalError(h: Handler, req: HttpRequest, codec: JsonCodec)
    requires req.contentType == JsonContentType && req.body.Some?
    requires codec.decodeReview(req.body.value).Success?
    requires codec.decodeReview(req.body.value).value.request.Some?
    requires codec.decodePod(codec.decodeReview(req.body.value).value.request.value.raw).Failure?
    ensures h.ServeHTTP(req, codec) == HttpError(StatusInternalServerError, MutationFailedMessage)
  {
  }

  /** Every written envelope answers the request it came with: same UID, and
      a response that allows the Pod and carries a JSON Patch. */
  lemma WrittenEnvelopeEchoesUid(h: Handler, req: HttpRequest, codec: JsonCodec)
    requires h.ServeHTTP(req, codec).Written?
    ensures var e := h.ServeHTTP(req, codec).envelope;
            && e.request.Some? && e.response.Some?
            && e.response.value.uid == e.request.value.uid
            && e.response.value.allowed
            && e.response.value.patchType == Some(JSONPatch)
            && e.response.value.patch.Some?
  {
  }
}
