/** Signed envelopes with symbolic signatures: a signature is a term that names the key that made it
    and the exact body it was made over. */
module Envelopes {
  import opened Wrappers
  import opened Domain

  type Key = nat

  datatype KeyEntry = KeyEntry(keyId: string, key: Key)

  type KeyStore = map<AgentId, KeyEntry>

  datatype Payload = IntentPayload(intent: Intent) | QuotePayload(quote: Quote) | OtherPayload(content: nat)

  datatype Operation = SendRfqOperation | ReturnQuoteOperation | OtherOperation(name: string)

  datatype IdempotencyKey =
    | RfqKey(dealId: Id, supplierId: AgentId)
    | AnswerKey(request: IdempotencyKey)
    | OtherKey(name: string)

  /** Everything except the signature. */
  datatype Body = Body(
    schemaName: string, messageId: Id, correlationId: Id, causationId: Option<Id>, dealId: Id,
    sender: AgentId, recipient: AgentId, mandateId: Id, keyId: string, operation: Operation,
    purpose: string, audience: string, createdAt: Time, expiresAt: Time, nonce: Id,
    idempotencyKey: IdempotencyKey, payloadHash: Digest, payload: Payload)

  datatype Signature = SignedBy(key: Key, body: Body) | Forged(content: nat)

  datatype Envelope = Envelope(body: Body, signature: Signature)

  datatype EnvelopeError =
    | UnknownAgent
    | ExpiryNotAfterCreation
    | Expired
    | WrongRecipient
    | WrongAudience
    | PayloadHashMismatch
    | WrongKeyId
    | BadSignature

  function Provider(keys: KeyStore, agentId: AgentId): Result<KeyEntry, EnvelopeError> {
    if agentId in keys then Ok(keys[agentId]) else Err(UnknownAgent)
  }

  /** `create_envelope`: the body as given except for the fields the signer fills in. */
  function CreateEnvelope(draft: Body, ttl: int, signer: KeyEntry, payloadHash: Payload -> Digest)
    : Result<Envelope, EnvelopeError>
  {
    if ttl <= 0 then Err(ExpiryNotAfterCreation)
    else
      var body := draft.(keyId := signer.keyId, expiresAt := draft.createdAt + ttl,
          payloadHash := payloadHash(draft.payload));
      Ok(Envelope(body, SignedBy(signer.key, body)))
  }

  /** `verify_envelope`: the first check that fails. */
  function VerifyEnvelope(
    envelope: Envelope, verifier: KeyEntry, recipient: AgentId, audience: string, now: Time,
        payloadHash: Payload -> Digest)
    : Option<EnvelopeError>
  {
    var body := envelope.body;
    if body.expiresAt <= now then Some(Expired)
    else if body.recipient != recipient then Some(WrongRecipient)
    else if body.audience != audience then Some(WrongAudience)
    else if body.payloadHash != payloadHash(body.payload) then Some(PayloadHashMismatch)
    else if body.keyId != verifier.keyId then Some(WrongKeyId)
    else if envelope.signature != SignedBy(verifier.key, body) then Some(BadSignature)
    else None
  }

  /** Round trip: what an agent creates, its registered key verifies, exactly for the addressed
      recipient and audience and until the expiry. */
  lemma CreatedVerifies(
    draft: Body, ttl: int, signer: KeyEntry, recipient: AgentId, audience: string, now: Time,
        payloadHash: Payload -> Digest)
    requires ttl > 0
    ensures CreateEnvelope(draft, ttl, signer, payloadHash).Ok?
    ensures VerifyEnvelope(CreateEnvelope(draft, ttl, signer, payloadHash).value, signer, recipient, audience, now,
        payloadHash).None?
            <==> now < draft.createdAt + ttl && recipient == draft.recipient && audience == draft.audience
  {
  }

  /** Any change to a signed body, or to its signature, is rejected. */
  lemma AlteredRejected(
    original: Envelope, altered: Envelope, verifier: KeyEntry, recipient: AgentId, audience: string, now: Time,
    payloadHash: Payload -> Digest)
    requires original.signature == SignedBy(verifier.key, original.body)
    requires altered != original
    requires altered.body == original.body || altered.signature == original.signature
    ensures VerifyEnvelope(altered, verifier, recipient, audience, now, payloadHash).Some?
  {
  }
}
