/** The signed RFQ/Quote exchange between the buyer agent A1 and the supplier agents A2: both
    programs, and their runs over a network that can replay, drop, reorder and inject messages. */
module QuoteExchange {
  import opened Wrappers
  import opened Domain
  import opened Envelopes

  /******* What travels inside A2A messages *******/

  /** The `signed_envelope_json` field of a data part. */
  datatype EnvelopeField = Missing | Malformed | Parsed(envelope: Envelope)

  /** A data part of an artifact: its status and its envelope field. */
  datatype ArtifactData = ArtifactData(noQuote: bool, field: EnvelopeField)

  datatype ExchangeError =
    | NoMessage
    | NoDataPart
    | EnvelopeRequired
    | MalformedEnvelope
    | EnvelopeRefused(error: EnvelopeError)
    | UnsupportedOperation
    | InvalidPayload
    | NoQuoteArtifact
    | CorrelationMismatch
    | TransportFailed
    | OtherFailure
    | AttemptsExhausted

  /******* A2: the supplier side *******/

  datatype CatalogItem = CatalogItem(
    unitPrice: real, deliveryFee: real, currency: string, deliveryDays: nat, warrantyMonths: nat,
    supplierRisk: real, paymentDelayDays: nat)

  datatype Supplier = Supplier(
    id: AgentId, name: string, catalog: map<string, CatalogItem>, keys: KeyStore, audience: string, ttl: int)

  /** A quote stands for thirty minutes, counted in seconds like the lifetime of an envelope. */
  const QUOTE_VALIDITY := 30 * 60

  /** The catalog's answer to an intent, if it lists the requested SKU. */
  function CatalogQuote(supplier: Supplier, intent: Intent, quoteId: Id, now: Time): Option<Quote> {
    var sku := intent.product.sku;
    if sku !in supplier.catalog then None
    else
      var item := supplier.catalog[sku];
      Some(Quote(quoteId, supplier.id, supplier.name, sku, intent.product.quantity, item.unitPrice, item.deliveryFee,
                 item.currency, item.deliveryDays, item.warrantyMonths, item.supplierRisk, item.paymentDelayDays,
                 now + QUOTE_VALIDITY))
  }

  /** The checks A2 makes before it answers; the intent to answer when they all pass. */
  function AcceptRfq(supplier: Supplier, envelope: Envelope, now: Time, payloadHash: Payload -> Digest)
    : Result<Intent, ExchangeError>
  {
    match Provider(supplier.keys, envelope.body.sender)
    case Err(e) => Err(EnvelopeRefused(e))
    case Ok(verifier) =>
      match VerifyEnvelope(envelope, verifier, supplier.id, supplier.audience, now, payloadHash)
      case Some(e) => Err(EnvelopeRefused(e))
      case None =>
        if envelope.body.operation != SendRfqOperation then Err(UnsupportedOperation)
        else if !envelope.body.payload.IntentPayload? then Err(InvalidPayload)
        else Ok(envelope.body.payload.intent)
  }

  /** A2 answers exactly the unexpired RFQs that a registered agent signed, under its registered key, to this
      supplier in this audience, and that carry an intent. */
  lemma RfqAcceptedIff(supplier: Supplier, envelope: Envelope, now: Time, payloadHash: Payload -> Digest,
      intent: Intent)
    ensures AcceptRfq(supplier, envelope, now, payloadHash) == Ok(intent)
        <==> var body := envelope.body;
             && body.sender in supplier.keys
             && now < body.expiresAt
             && body.recipient == supplier.id && body.audience == supplier.audience
             && body.payloadHash == payloadHash(body.payload)
             && body.keyId == supplier.keys[body.sender].keyId
             && envelope.signature == SignedBy(supplier.keys[body.sender].key, body)
             && body.operation == SendRfqOperation
             && body.payload == IntentPayload(intent)
  {
  }

  /** The body of A2's answer: bound to the RFQ's sender, deal, mandate and correlation id. */
  function AnswerBody(supplier: Supplier, rfq: Body, quote: Quote, now: Time, messageId: Id, nonce: Id): Body {
    Body("a2a.procurement.quote", messageId, rfq.correlationId, Some(rfq.messageId), rfq.dealId, supplier.id,
         rfq.sender, rfq.mandateId, "", ReturnQuoteOperation, "supplier_quote_response", supplier.audience, now, now,
         nonce, AnswerKey(rfq.idempotencyKey), "", QuotePayload(quote))
  }

  /** Ids drawn while answering. */
  datatype Draws = Draws(quoteId: Id, messageId: Id, nonce: Id)

  /** A2's answer to an accepted intent: no quote, or a signed quote. */
  function Answer(supplier: Supplier, rfq: Envelope, intent: Intent, now: Time, ids: Draws,
      payloadHash: Payload -> Digest)
    : Result<Option<Envelope>, ExchangeError>
  {
    match CatalogQuote(supplier, intent, ids.quoteId, now)
    case None => Ok(None)
    case Some(quote) =>
      match Provider(supplier.keys, supplier.id)
      case Err(e) => Err(EnvelopeRefused(e))
      case Ok(signer) =>
        match CreateEnvelope(AnswerBody(supplier, rfq.body, quote, now, ids.messageId, ids.nonce), supplier.ttl,
            signer, payloadHash)
        case Err(e) => Err(EnvelopeRefused(e))
        case Ok(reply) => Ok(Some(reply))
  }

  datatype QueueEvent = Working | QuoteArtifact(data: ArtifactData) | TaskCompleted

  function AnswerArtifact(reply: Option<Envelope>): ArtifactData {
    match reply
    case None => ArtifactData(true, Missing)
    case Some(envelope) => ArtifactData(false, Parsed(envelope))
  }

  function FirstData(parts: seq<Option<EnvelopeField>>): Option<EnvelopeField> {
    if parts == [] then None else if parts[0].Some? then parts[0] else FirstData(parts[1..])
  }

  /** A2 reads the first data part of a message, whatever follows it. */
  lemma {:induction false} FirstDataIff(parts: seq<Option<EnvelopeField>>, field: EnvelopeField)
    ensures FirstData(parts) == Some(field)
        <==> exists i :: 0 <= i < |parts| && parts[i] == Some(field) && forall j :: 0 <= j < i ==> parts[j].None?
    ensures FirstData(parts) == None <==> forall j :: 0 <= j < |parts| ==> parts[j].None?
  {
    if parts != [] && parts[0].None? {
      FirstDataIff(parts[1..], field);
      assert forall i :: 0 < i < |parts| ==> parts[i] == parts[1..][i - 1];
      if FirstData(parts) == Some(field) {
        var i :| 0 <= i < |parts[1..]| && parts[1..][i] == Some(field)
                 && forall j :: 0 <= j < i ==> parts[1..][j].None?;
        assert parts[i + 1] == Some(field);
      }
      if i :| 0 <= i < |parts| && parts[i] == Some(field) && forall j :: 0 <= j < i ==> parts[j].None? {
        assert parts[1..][i - 1] == Some(field);
        assert forall j :: 0 <= j < i - 1 ==> parts[1..][j] == parts[j + 1];
      }
    }
  }

  /** The RFQ envelope of an incoming message. */
  function MessageEnvelope(message: Option<seq<Option<EnvelopeField>>>): Result<Envelope, ExchangeError> {
    if message.None? then Err(NoMessage)
    else
      match FirstData(message.value)
      case None => Err(NoDataPart)
      case Some(Missing) => Err(EnvelopeRequired)
      case Some(Malformed) => Err(MalformedEnvelope)
      case Some(Parsed(envelope)) => Ok(envelope)
  }

  /** `SupplierQuoteExecutor`: pushes task, artifact and status events onto a queue. */
  class SupplierQuoteExecutor {
    const supplier: Supplier
    const payloadHash: Payload -> Digest
    var queue: seq<QueueEvent>

    constructor (supplier: Supplier, payloadHash: Payload -> Digest)
      ensures this.supplier == supplier && this.payloadHash == payloadHash && queue == []
    {
      this.supplier, this.payloadHash, this.queue := supplier, payloadHash, [];
    }

    /** A refused RFQ leaves the queue alone; an accepted one is announced before it is answered, and
        completed only with its artifact. */
    method Execute(message: Option<seq<Option<EnvelopeField>>>, now: Time, ids: Draws)
        returns (error: Option<ExchangeError>)
      modifies this`queue
      ensures match MessageEnvelope(message)
              case Err(e) => error == Some(e) && queue == old(queue)
              case Ok(rfq) =>
                match AcceptRfq(supplier, rfq, now, payloadHash)
                case Err(e) => error == Some(e) && queue == old(queue)
                case Ok(intent) =>
                  match Answer(supplier, rfq, intent, now, ids, payloadHash)
                  case Err(e) => error == Some(e) && queue == old(queue) + [Working]
                  case Ok(reply) =>
                    error == None && queue == old(queue) + [Working, QuoteArtifact(AnswerArtifact(reply)),
                        TaskCompleted]
    {
      if message.None? { return Some(NoMessage); }
      var field := FirstData(message.value);
      if field.None? { return Some(NoDataPart); }
      if field.value.Missing? { return Some(EnvelopeRequired); }
      if field.value.Malformed? { return Some(MalformedEnvelope); }
      var rfq := field.value.envelope;
      if rfq.body.sender !in supplier.keys { return Some(EnvelopeRefused(UnknownAgent)); }
      var refused := VerifyEnvelope(rfq, supplier.keys[rfq.body.sender], supplier.id, supplier.audience, now,
          payloadHash);
      if refused.Some? { return Some(EnvelopeRefused(refused.value)); }
      if rfq.body.operation != SendRfqOperation { return Some(UnsupportedOperation); }
      if !rfq.body.payload.IntentPayload? { return Some(InvalidPayload); }
      queue := queue + [Working];
      var quote := CatalogQuote(supplier, rfq.body.payload.intent, ids.quoteId, now);
      var artifact := ArtifactData(true, Missing);
      if quote.Some? {
        if supplier.id !in supplier.keys { return Some(EnvelopeRefused(UnknownAgent)); }
        var body := AnswerBody(supplier, rfq.body, quote.value, now, ids.messageId, ids.nonce);
        var reply := CreateEnvelope(body, supplier.ttl, supplier.keys[supplier.id], payloadHash);
        if reply.Err? { return Some(EnvelopeRefused(reply.error)); }
        artifact := ArtifactData(false, Parsed(reply.value));
      }
      queue := queue + [QuoteArtifact(artifact)];
      queue := queue + [TaskCompleted];
      error := None;
    }
  }

  /******* A1: the buyer side *******/

  datatype Buyer = Buyer(id: AgentId, keys: KeyStore, audience: string, ttl: int)

  function RfqBody(
    buyer: Buyer, supplierId: AgentId, intent: Intent, dealId: Id, mandateId: Id, now: Time,
    correlationId: Id, messageId: Id, nonce: Id): Body
  {
    Body("a2a.procurement.rfq", messageId, correlationId, None, dealId, buyer.id, supplierId, mandateId, "",
         SendRfqOperation, "request_supplier_quote", buyer.audience, now, now, nonce, RfqKey(dealId, supplierId), "",
         IntentPayload(intent))
  }

  /** A1's checks on the artifact it got back for the RFQ with this correlation id. */
  function AcceptReply(
    buyer: Buyer, supplierId: AgentId, correlationId: Id, data: Option<ArtifactData>, now: Time,
        payloadHash: Payload -> Digest)
    : Result<Option<Quote>, ExchangeError>
  {
    if data.None? then Err(NoQuoteArtifact)
    else if data.value.noQuote then Ok(None)
    else
      match data.value.field
      case Missing => Err(EnvelopeRequired)
      case Malformed => Err(MalformedEnvelope)
      case Parsed(envelope) =>
        match Provider(buyer.keys, supplierId)
        case Err(e) => Err(EnvelopeRefused(e))
        case Ok(verifier) =>
          match VerifyEnvelope(envelope, verifier, buyer.id, buyer.audience, now, payloadHash)
          case Some(e) => Err(EnvelopeRefused(e))
          case None =>
            if envelope.body.correlationId != correlationId then Err(CorrelationMismatch)
            else if !envelope.body.payload.QuotePayload? then Err(InvalidPayload)
            else Ok(Some(envelope.body.payload.quote))
  }

  /** A response is either something else than a task or a task with artifacts made of parts. */
  type Response = Option<seq<seq<Option<ArtifactData>>>>

  function PartsData(parts: seq<Option<ArtifactData>>): seq<ArtifactData> {
    if parts == [] then []
    else PartsData(parts[..|parts| - 1]) + (if parts[|parts| - 1].Some? then [parts[|parts| - 1].value] else [])
  }

  function ArtifactsData(artifacts: seq<seq<Option<ArtifactData>>>): seq<ArtifactData> {
    if artifacts == [] then [] else ArtifactsData(artifacts[..|artifacts| - 1]) + PartsData(artifacts[|artifacts| - 1])
  }

  /** Every data part of every artifact of every task response, in order of arrival. */
  function AllData(responses: seq<Response>): seq<ArtifactData> {
    if responses == [] then []
    else AllData(responses[..|responses| - 1])
         + (if responses[|responses| - 1].Some? then ArtifactsData(responses[|responses| - 1].value) else [])
  }

  function Last(data: seq<ArtifactData>): Option<ArtifactData> {
    if data == [] then None else Some(data[|data| - 1])
  }

  function OrElse(found: Option<ArtifactData>, earlier: Option<ArtifactData>): Option<ArtifactData> {
    if found.Some? then found else earlier
  }

  /** The data part that no other data part follows, by position. */
  ghost predicate IsLastPart(responses: seq<Response>, data: ArtifactData) {
    exists i, j, k :: IsLastAt(responses, data, i, j, k)
  }

  ghost predicate HoldsPart(responses: seq<Response>, i: int, j: int, k: int) {
    && 0 <= i < |responses| && responses[i].Some?
    && 0 <= j < |responses[i].value| && 0 <= k < |responses[i].value[j]|
    && responses[i].value[j][k].Some?
  }

  ghost predicate IsLastAt(responses: seq<Response>, data: ArtifactData, i: int, j: int, k: int) {
    && HoldsPart(responses, i, j, k) && responses[i].value[j][k] == Some(data)
    && (forall x, y, z :: HoldsPart(responses, x, y, z) ==> x < i || (x == i && (y < j || (y == j && z <= k))))
  }

  lemma LastConcat(s: seq<ArtifactData>, t: seq<ArtifactData>)
    ensures Last(s + t) == OrElse(Last(t), Last(s))
  {
    assert t == [] ==> s + t == s;
  }

  lemma {:induction false} PartsLast(parts: seq<Option<ArtifactData>>) returns (k: int)
    ensures match Last(PartsData(parts))
            case None => forall z :: 0 <= z < |parts| ==> parts[z].None?
            case Some(data) =>
              && 0 <= k < |parts| && parts[k] == Some(data) && (forall z :: k < z < |parts| ==> parts[z].None?)
  {
    k := |parts| - 1;
    if k >= 0 {
      LastConcat(PartsData(parts[..k]), if parts[k].Some? then [parts[k].value] else []);
      if parts[k].None? { k := PartsLast(parts[..k]); }
    }
  }

  lemma {:induction false} ArtifactsLast(artifacts: seq<seq<Option<ArtifactData>>>) returns (j: int, k: int)
    ensures match Last(ArtifactsData(artifacts))
            case None =>
              forall y, z :: 0 <= y < |artifacts| && 0 <= z < |artifacts[y]| ==> artifacts[y][z].None?
            case Some(data) =>
              && 0 <= j < |artifacts| && 0 <= k < |artifacts[j]| && artifacts[j][k] == Some(data)
              && (forall y, z :: 0 <= y < |artifacts| && 0 <= z < |artifacts[y]| && (j < y || (j == y && k < z)) ==>
                    artifacts[y][z].None?)
  {
    j, k := |artifacts| - 1, 0;
    if j >= 0 {
      LastConcat(ArtifactsData(artifacts[..j]), PartsData(artifacts[j]));
      k := PartsLast(artifacts[j]);
      if Last(PartsData(artifacts[j])).None? {
        j, k := ArtifactsLast(artifacts[..j]);
        assert forall y :: 0 <= y < |artifacts| - 1 ==> artifacts[..|artifacts| - 1][y] == artifacts[y];
      }
    }
  }

  /** The last part of the last response is the last part of all; if it holds none, it changes nothing. */
  lemma AppendedResponse(init: seq<Response>, last: Response, data: ArtifactData, i: int, j: int, k: int)
    requires (IsLastAt([last], data, 0, j, k) && i == |init|)
          || ((forall x, y, z :: !HoldsPart([last], x, y, z)) && IsLastAt(init, data, i, j, k))
    ensures IsLastAt(init + [last], data, i, j, k)
  {
    forall x, y, z | HoldsPart(init + [last], x, y, z)
      ensures x < i || (x == i && (y < j || (y == j && z <= k)))
    {
      if x == |init| { assert HoldsPart([last], 0, y, z); } else { assert HoldsPart(init, x, y, z); }
    }
  }

  lemma LastOfOne(response: Response) returns (j: int, k: int)
    ensures match Last(if response.Some? then ArtifactsData(response.value) else [])
            case None => forall x, y, z :: !HoldsPart([response], x, y, z)
            case Some(data) => IsLastAt([response], data, 0, j, k)
  {
    j, k := 0, 0;
    if response.Some? { j, k := ArtifactsLast(response.value); }
  }

  lemma {:induction false} ResponsesLast(responses: seq<Response>) returns (i: int, j: int, k: int)
    ensures match Last(AllData(responses))
            case None => forall x, y, z :: !HoldsPart(responses, x, y, z)
            case Some(data) => IsLastAt(responses, data, i, j, k)
  {
    i, j, k := |responses| - 1, 0, 0;
    if i >= 0 {
      hide HoldsPart, IsLastAt, Last;
      var init, last := responses[..i], responses[i];
      var data := if last.Some? then ArtifactsData(last.value) else [];
      LastConcat(AllData(init), data);
      assert responses == init + [last];
      j, k := LastOfOne(last);
      if Last(data).Some? {
        AppendedResponse(init, last, Last(data).value, i, j, k);
      } else {
        i, j, k := ResponsesLast(init);
        if Last(AllData(init)).Some? {
          AppendedResponse(init, last, Last(AllData(init)).value, i, j, k);
        } else {
          forall x, y, z ensures !HoldsPart(responses, x, y, z) { NoPartIn(init, last, x, y, z); }
        }
      }
    }
  }

  lemma NoPartIn(init: seq<Response>, last: Response, x: int, y: int, z: int)
    requires (forall x, y, z :: !HoldsPart([last], x, y, z)) && (forall x, y, z :: !HoldsPart(init, x, y, z))
    ensures !HoldsPart(init + [last], x, y, z)
  {
    assert !HoldsPart(init, x, y, z) && !HoldsPart([last], 0, y, z);
  }

  /** The data A1 reads is the last data part it was sent, or none was. */
  lemma LastPartIff(responses: seq<Response>, data: ArtifactData)
    ensures Last(AllData(responses)) == Some(data) <==> IsLastPart(responses, data)
    ensures Last(AllData(responses)).None? <==> forall x, y, z :: !HoldsPart(responses, x, y, z)
  {
    var i, j, k := ResponsesLast(responses);
    if IsLastPart(responses, data) {
      var x, y, z :| IsLastAt(responses, data, x, y, z);
      assert HoldsPart(responses, x, y, z);
      assert IsLastAt(responses, Last(AllData(responses)).value, i, j, k);
    }
  }

  /** The nested loops of `_request_quote`: the last data part wins. */
  method CollectArtifact(responses: seq<Response>) returns (payload: Option<ArtifactData>)
    ensures payload == Last(AllData(responses))
  {
    payload := None;
    for i := 0 to |responses|
      invariant payload == Last(AllData(responses[..i]))
    {
      assert responses[..i + 1][..i] == responses[..i];
      ghost var before := payload;
      if responses[i].Some? {
        var artifacts := responses[i].value;
        for j := 0 to |artifacts|
          invariant payload == OrElse(Last(ArtifactsData(artifacts[..j])), before)
        {
          assert artifacts[..j + 1][..j] == artifacts[..j];
          ghost var earlier := payload;
          var parts := artifacts[j];
          for k := 0 to |parts|
            invariant payload == OrElse(Last(PartsData(parts[..k])), earlier)
          {
            assert parts[..k + 1][..k] == parts[..k];
            if parts[k].Some? {
              payload := parts[k];
            }
          }
          assert parts[..|parts|] == parts;
          LastConcat(ArtifactsData(artifacts[..j]), PartsData(parts));
        }
        assert artifacts[..|artifacts|] == artifacts;
        LastConcat(AllData(responses[..i]), ArtifactsData(artifacts));
      }
    }
    assert responses[..|responses|] == responses;
  }

  /** What one attempt meets: a transport error, another exception, or the supplier's responses. */
  datatype Delivery = Failed(error: ExchangeError) | Delivered(responses: seq<Response>, now: Time)

  /** The correlation id each attempt draws and what the network does to it. */
  datatype Attempt = Attempt(correlationId: Id, delivery: Delivery)

  function AttemptResult(buyer: Buyer, supplierId: AgentId, attempt: Attempt, payloadHash: Payload -> Digest)
    : Result<Option<Quote>, ExchangeError>
  {
    match attempt.delivery
    case Failed(e) => Err(e)
    case Delivered(responses, now) =>
      AcceptReply(buyer, supplierId, attempt.correlationId, Last(AllData(responses)), now, payloadHash)
  }

  /** A1 accepts exactly the quotes in unexpired envelopes signed with the key it has registered for the supplier,
      addressed to it in its audience, under the correlation id of this attempt's RFQ. */
  lemma QuoteAcceptedIff(buyer: Buyer, supplierId: AgentId, attempt: Attempt, payloadHash: Payload -> Digest,
      quote: Quote)
    ensures AttemptResult(buyer, supplierId, attempt, payloadHash) == Ok(Some(quote))
        <==> && attempt.delivery.Delivered?
             && var last := Last(AllData(attempt.delivery.responses));
             && last.Some? && !last.value.noQuote && last.value.field.Parsed?
             && var envelope := last.value.field.envelope;
             && supplierId in buyer.keys
             && attempt.delivery.now < envelope.body.expiresAt
             && envelope.body.recipient == buyer.id && envelope.body.audience == buyer.audience
             && envelope.body.payloadHash == payloadHash(envelope.body.payload)
             && envelope.body.keyId == buyer.keys[supplierId].keyId
             && envelope.signature == SignedBy(buyer.keys[supplierId].key, envelope.body)
             && envelope.body.correlationId == attempt.correlationId
             && envelope.body.payload == QuotePayload(quote)
    ensures AttemptResult(buyer, supplierId, attempt, payloadHash) == Ok(None)
        <==> && attempt.delivery.Delivered?
             && var last := Last(AllData(attempt.delivery.responses));
             && last.Some? && last.value.noQuote
  {
    hide AllData, Last;
  }

  /** The bounded retry of `create_quote`. HTTP errors, timeouts and every `ValueError` are retried, other
      exceptions are not. The first attempt that is not retried decides; when all are, the error of the last
      one is raised; without attempts there is no error to raise. */
  method CreateQuote(buyer: Buyer, supplierId: AgentId, attempts: seq<Attempt>, payloadHash: Payload -> Digest)
    returns (result: Result<Option<Quote>, ExchangeError>, used: nat)
    ensures used <= |attempts|
    ensures forall i :: 0 <= i < used - 1 ==>
              var r := AttemptResult(buyer, supplierId, attempts[i], payloadHash);
              r.Err? && r.error != OtherFailure
    ensures attempts == [] ==> used == 0 && result == Err(AttemptsExhausted)
    ensures attempts != [] ==> used > 0 && result == AttemptResult(buyer, supplierId, attempts[used - 1], payloadHash)
    ensures result.Err? && result.error != OtherFailure ==> used == |attempts|
  {
    var lastError: Option<ExchangeError> := None;
    used := 0;
    while used < |attempts|
      invariant used <= |attempts|
      invariant forall i :: 0 <= i < used ==>
                  var r := AttemptResult(buyer, supplierId, attempts[i], payloadHash);
                  r.Err? && r.error != OtherFailure
      invariant used == 0 ==> lastError == None
      invariant used > 0 ==> lastError.Some?
                             && AttemptResult(buyer, supplierId, attempts[used - 1], payloadHash)
                                 == Err(lastError.value)
    {
      var attempt := attempts[used];
      used := used + 1;
      match attempt.delivery {
        case Failed(e) =>
          if e == OtherFailure { return Err(e), used; }
          lastError := Some(e);
        case Delivered(responses, now) =>
          var payload := CollectArtifact(responses);
          var reply := AcceptReply(buyer, supplierId, attempt.correlationId, payload, now, payloadHash);
          if reply.Ok? { return reply, used; }
          lastError := Some(reply.error);
      }
    }
    if lastError.None? { return Err(AttemptsExhausted), used; }
    result := Err(lastError.value);
  }

  /******* One request, end to end *******/

  /** Both sides hold the same registry entries for the two of them and serve the same audience. */
  ghost predicate Paired(buyer: Buyer, supplier: Supplier) {
    && buyer.id in buyer.keys && buyer.id in supplier.keys && supplier.keys[buyer.id] == buyer.keys[buyer.id]
    && supplier.id in supplier.keys && supplier.id in buyer.keys
    && buyer.keys[supplier.id] == supplier.keys[supplier.id]
    && supplier.audience == buyer.audience && buyer.ttl > 0 && supplier.ttl > 0
  }

  /** What the supplier signs for the RFQ with these ids, field by field. */
  ghost predicate IsSignedQuote(envelope: Envelope, buyer: Buyer, supplier: Supplier, dealId: Id, mandateId: Id,
      rfq: Draws, correlationId: Id, ids: Draws, readAt: Time, quote: Quote, payloadHash: Payload -> Digest)
  {
    && var body := envelope.body;
    && supplier.id in supplier.keys
    && envelope.signature == SignedBy(supplier.keys[supplier.id].key, body)
    && body.keyId == supplier.keys[supplier.id].keyId
    && body.sender == supplier.id && body.recipient == buyer.id && body.audience == buyer.audience
    && body.correlationId == correlationId && body.causationId == Some(rfq.messageId)
    && body.dealId == dealId && body.mandateId == mandateId
    && body.messageId == ids.messageId && body.nonce == ids.nonce
    && body.schemaName == "a2a.procurement.quote" && body.purpose == "supplier_quote_response"
    && body.operation == ReturnQuoteOperation && body.idempotencyKey == AnswerKey(RfqKey(dealId, supplier.id))
    && body.createdAt == readAt && body.expiresAt == readAt + supplier.ttl
    && body.payloadHash == payloadHash(QuotePayload(quote)) && body.payload == QuotePayload(quote)
  }

  lemma LastIs(before: seq<Response>, artifact: ArtifactData)
    ensures Last(AllData(before + [Some([[Some(artifact)]])])) == Some(artifact)
  {
    assert (before + [Some([[Some(artifact)]])])[..|before|] == before;
    assert IsLastAt(before + [Some([[Some(artifact)]])], artifact, |before|, 0, 0);
    LastPartIff(before + [Some([[Some(artifact)]])], artifact);
  }

  /** `create_quote` against a live supplier: after any number of transport failures one RFQ gets through before
      its expiry, the supplier serves it, and its artifact is the last data part to come back before the expiry
      of the answer. Then the buyer gets the catalog's quote for what it asked, or learns that there is none, at
      that attempt. */
  method RequestQuote(executor: SupplierQuoteExecutor, buyer: Buyer, intent: Intent, dealId: Id, mandateId: Id,
      correlationId: Id, rfqIds: Draws, ids: Draws, sentAt: Time, readAt: Time, receivedAt: Time,
      failed: seq<Attempt>, before: seq<Response>, later: seq<Attempt>)
    returns (result: Result<Option<Quote>, ExchangeError>, used: nat, artifact: ArtifactData)
    requires Paired(buyer, executor.supplier)
    requires readAt < sentAt + buyer.ttl && receivedAt < readAt + executor.supplier.ttl
    requires forall i :: 0 <= i < |failed| ==> failed[i].delivery.Failed? && failed[i].delivery.error != OtherFailure
    modifies executor`queue
    ensures used == |failed| + 1
    ensures executor.queue == old(executor.queue) + [Working, QuoteArtifact(artifact), TaskCompleted]
    ensures intent.product.sku !in executor.supplier.catalog ==>
              result == Ok(None) && artifact == ArtifactData(true, Missing)
    ensures intent.product.sku in executor.supplier.catalog ==>
              && var supplier, item := executor.supplier, executor.supplier.catalog[intent.product.sku];
              && result == Ok(Some(Quote(
                   ids.quoteId, supplier.id, supplier.name, intent.product.sku, intent.product.quantity, item.unitPrice,
                   item.deliveryFee, item.currency, item.deliveryDays, item.warrantyMonths, item.supplierRisk,
                   item.paymentDelayDays, readAt + 1800)))
              && !artifact.noQuote && artifact.field.Parsed?
              && IsSignedQuote(artifact.field.envelope, buyer, supplier, dealId, mandateId, rfqIds, correlationId, ids,
                   readAt, result.value.value, executor.payloadHash)
  {
    var supplier := executor.supplier;
    var body := RfqBody(buyer, supplier.id, intent, dealId, mandateId, sentAt, correlationId, rfqIds.messageId,
        rfqIds.nonce);
    var rfq := CreateEnvelope(body, buyer.ttl, buyer.keys[buyer.id], executor.payloadHash);
    RfqAcceptedIff(supplier, rfq.value, readAt, executor.payloadHash, intent);
    var error := executor.Execute(Some([Some(Parsed(rfq.value))]), readAt, ids);
    artifact := executor.queue[|executor.queue| - 2].data;
    var responses := before + [Some([[Some(artifact)]])];
    var attempt := Attempt(correlationId, Delivered(responses, receivedAt));
    LastIs(before, artifact);
    var attempts := failed + [attempt] + later;
    assert attempts[|failed|] == attempt;
    forall i | 0 <= i < |failed| ensures attempts[i] == failed[i] {
    }
    result, used := CreateQuote(buyer, supplier.id, attempts, executor.payloadHash);
  }
}
