/** Runs of the RFQ/Quote exchange over an adversarial network, and the agreement they keep. */
module ExchangeRuns {
  import opened Wrappers
  import opened Domain
  import opened Envelopes
  import opened QuoteExchange

  /** One buyer, any number of suppliers running the A2 program, one registry of keys. Agents outside
      `honest` may sign whatever they like. */
  datatype Setup = Setup(
    buyer: Buyer, suppliers: map<AgentId, Supplier>, honest: set<AgentId>, keys: KeyStore,
        payloadHash: Payload -> Digest)
  {
    /** Everyone uses the registry, programs run under their own id, and no other agent is registered
        with the key of an honest one. */
    ghost predicate Valid() {
      && buyer.id in honest && buyer.id in keys && buyer.keys == keys && buyer.id !in suppliers
      && (forall s :: s in suppliers ==> suppliers[s].id == s && suppliers[s].keys == keys)
      && (forall a, b :: a in honest && a in keys && b in keys && keys[a].key == keys[b].key ==> a == b)
    }

    ghost predicate HonestKey(key: Key) {
      exists a :: a in honest && a in keys && keys[a].key == key
    }
  }

  /** An RFQ the buyer sent under a correlation id it drew. */
  datatype Session = Session(supplierId: AgentId, intent: Intent, rfq: Envelope)

  /** A supplier's answer and the RFQ it verified before answering. */
  datatype AnswerRecord = AnswerRecord(supplierId: AgentId, rfq: Envelope, intent: Intent, reply: Envelope)

  datatype AcceptRecord = AcceptRecord(correlationId: Id, supplierId: AgentId, reply: Envelope, quote: Quote)

  /** `signed` is every signature an honest agent has made so far. */
  datatype State = State(
    signed: set<(Key, Body)>, sessions: map<Id, Session>, answers: seq<AnswerRecord>, accepted: seq<AcceptRecord>,
        nextId: Id)

  const INITIAL := State({}, map[], [], [], 0)

  /** The network hands any envelope to anyone, at any time; it only cannot forge the signature of
      an honest agent. */
  ghost predicate Deliverable(setup: Setup, st: State, envelope: Envelope) {
    envelope.signature.SignedBy? && setup.HonestKey(envelope.signature.key)
    ==> (envelope.signature.key, envelope.signature.body) in st.signed
  }

  datatype Step =
    | BuyerSends(supplierId: AgentId, intent: Intent, dealId: Id, mandateId: Id, now: Time)
    | SupplierReceives(supplierId: AgentId, envelope: Envelope, now: Time)
    | BuyerReceives(correlationId: Id, envelope: Envelope, now: Time)

  function SendRfq(setup: Setup, st: State, step: Step): State
    requires step.BuyerSends?
  {
    var c := st.nextId;
    var body := RfqBody(setup.buyer, step.supplierId, step.intent, step.dealId, step.mandateId, step.now, c, c + 1,
        c + 2);
    match Provider(setup.buyer.keys, setup.buyer.id)
    case Err(_) => st
    case Ok(signer) =>
      match CreateEnvelope(body, setup.buyer.ttl, signer, setup.payloadHash)
      case Err(_) => st
      case Ok(rfq) =>
        st.(signed := st.signed + {(signer.key, rfq.body)},
            sessions := st.sessions[c := Session(step.supplierId, step.intent, rfq)],
            nextId := c + 3)
  }

  function AnswerRfq(setup: Setup, st: State, supplier: Supplier, envelope: Envelope, now: Time): State {
    match AcceptRfq(supplier, envelope, now, setup.payloadHash)
    case Err(_) => st
    case Ok(intent) =>
      var c := st.nextId;
      match Answer(supplier, envelope, intent, now, Draws(c, c + 1, c + 2), setup.payloadHash)
      case Err(_) => st
      case Ok(None) => st
      case Ok(Some(reply)) =>
        st.(signed := st.signed + {(reply.signature.key, reply.body)},
            answers := st.answers + [AnswerRecord(supplier.id, envelope, intent, reply)],
            nextId := c + 3)
  }

  function TakeReply(setup: Setup, st: State, correlationId: Id, envelope: Envelope, now: Time): State {
    if correlationId !in st.sessions then st
    else
      var session := st.sessions[correlationId];
      var data := Some(ArtifactData(false, Parsed(envelope)));
      match AcceptReply(setup.buyer, session.supplierId, correlationId, data, now, setup.payloadHash)
      case Ok(Some(quote)) =>
        st.(accepted := st.accepted + [AcceptRecord(correlationId, session.supplierId, envelope, quote)])
      case _ => st
  }

  ghost function Next(setup: Setup, st: State, step: Step): State {
    match step
    case BuyerSends(_, _, _, _, _) => SendRfq(setup, st, step)
    case SupplierReceives(s, envelope, now) =>
      if s in setup.suppliers && Deliverable(setup, st, envelope)
      then AnswerRfq(setup, st, setup.suppliers[s], envelope, now) else st
    case BuyerReceives(c, envelope, now) =>
      if Deliverable(setup, st, envelope) then TakeReply(setup, st, c, envelope, now) else st
  }

  ghost function Run(setup: Setup, st: State, steps: seq<Step>): State
    decreases |steps|
  {
    if steps == [] then st else Run(setup, Next(setup, st, steps[0]), steps[1..])
  }

  /******* The invariant *******/

  ghost predicate KeyOf(setup: Setup, agent: AgentId, key: Key) {
    agent in setup.keys && setup.keys[agent].key == key
  }

  /** Whatever carries the buyer's key is the RFQ of the session with its correlation id. */
  ghost predicate IsSentRfq(setup: Setup, st: State, body: Body) {
    body.correlationId in st.sessions && st.sessions[body.correlationId].rfq.body == body
  }

  /** The session stores what the buyer sent under that id. */
  ghost predicate SessionOk(setup: Setup, st: State, c: Id) {
    c in st.sessions ==>
      var s := st.sessions[c];
      && c < st.nextId
      && s.rfq.body.correlationId == c
      && s.rfq.body.sender == setup.buyer.id && s.rfq.body.recipient == s.supplierId
      && s.rfq.body.payload == IntentPayload(s.intent)
      && setup.buyer.id in setup.keys
      && s.rfq.signature == SignedBy(setup.keys[setup.buyer.id].key, s.rfq.body)
  }

  /** The supplier verified exactly this RFQ, addressed to it, and signed this reply for its sender. */
  ghost predicate AnswerOk(setup: Setup, st: State, a: AnswerRecord) {
    && a.supplierId in setup.keys && a.supplierId in setup.suppliers
    && a.rfq.body.sender in setup.keys
    && a.rfq.body.recipient == a.supplierId
    && a.rfq.body.operation == SendRfqOperation
    && a.rfq.body.payload == IntentPayload(a.intent)
    && a.rfq.signature == SignedBy(setup.keys[a.rfq.body.sender].key, a.rfq.body)
    && (a.rfq.body.sender in setup.honest ==> (setup.keys[a.rfq.body.sender].key, a.rfq.body) in st.signed)
    && a.reply.signature == SignedBy(setup.keys[a.supplierId].key, a.reply.body)
    && a.reply.body.sender == a.supplierId && a.reply.body.recipient == a.rfq.body.sender
    && a.reply.body.correlationId == a.rfq.body.correlationId
    && a.reply.body.causationId == Some(a.rfq.body.messageId)
    && a.reply.body.operation == ReturnQuoteOperation
    && a.reply.body.payload.QuotePayload?
    && var quote := a.reply.body.payload.quote;
    && CatalogQuote(setup.suppliers[a.supplierId], a.intent, quote.quoteId, a.reply.body.createdAt) == Some(quote)
  }

  ghost predicate IsAnswer(st: State, key: Key, body: Body, setup: Setup) {
    exists i :: 0 <= i < |st.answers| && KeyOf(setup, st.answers[i].supplierId, key) && st.answers[i].reply.body == body
  }

  /** The agreement: an accepted quote of an honest supplier answers exactly the RFQ that was sent. */
  ghost predicate Agreement(setup: Setup, st: State, r: AcceptRecord) {
    && r.correlationId in st.sessions
    && st.sessions[r.correlationId].supplierId == r.supplierId
    && (r.supplierId in setup.honest ==>
          exists i :: 0 <= i < |st.answers|
                      && st.answers[i].supplierId == r.supplierId
                      && st.answers[i].rfq == st.sessions[r.correlationId].rfq
                      && st.answers[i].intent == st.sessions[r.correlationId].intent
                      && st.answers[i].reply == r.reply
                      && r.reply.body.payload == QuotePayload(r.quote))
  }

  ghost predicate Invariant(setup: Setup, st: State) {
    && (forall c :: SessionOk(setup, st, c))
    && (forall key, body :: (key, body) in st.signed ==>
          (KeyOf(setup, setup.buyer.id, key) && IsSentRfq(setup, st, body)) || IsAnswer(st, key, body, setup))
    && (forall i :: 0 <= i < |st.answers| ==> AnswerOk(setup, st, st.answers[i]))
    && (forall i :: 0 <= i < |st.accepted| ==> Agreement(setup, st, st.accepted[i]))
  }

  lemma SendKeeps(setup: Setup, st: State, step: Step)
    requires setup.Valid() && Invariant(setup, st) && step.BuyerSends?
    ensures Invariant(setup, SendRfq(setup, st, step))
  {
    var st' := SendRfq(setup, st, step);
    var c := st.nextId;
    if st' != st {
      assert c !in st.sessions by { assert SessionOk(setup, st, c); }
      forall d ensures SessionOk(setup, st', d) {
        assert SessionOk(setup, st, d);
      }
      forall key, body | (key, body) in st'.signed
        ensures (KeyOf(setup, setup.buyer.id, key) && IsSentRfq(setup, st', body)) || IsAnswer(st', key, body, setup)
      {
        if (key, body) in st.signed && IsAnswer(st, key, body, setup) {
          assert IsAnswer(st', key, body, setup);
        }
      }
      forall i | 0 <= i < |st'.answers| ensures AnswerOk(setup, st', st'.answers[i]) {
        assert AnswerOk(setup, st, st.answers[i]);
      }
      forall i | 0 <= i < |st'.accepted| ensures Agreement(setup, st', st'.accepted[i]) {
        assert Agreement(setup, st, st.accepted[i]);
      }
    }
  }

  lemma NewAnswerOk(setup: Setup, st: State, s: AgentId, envelope: Envelope, now: Time, a: AnswerRecord, st': State)
    requires setup.Valid() && s in setup.suppliers && Deliverable(setup, st, envelope)
    requires st' == AnswerRfq(setup, st, setup.suppliers[s], envelope, now) && |st'.answers| == |st.answers| + 1
    requires a == st'.answers[|st.answers|]
    ensures AnswerOk(setup, st', a)
  {
    var supplier := setup.suppliers[s];
    var intent := AcceptRfq(supplier, envelope, now, setup.payloadHash).value;
    assert CatalogQuote(supplier, intent, st.nextId, now).Some?;
    if envelope.body.sender in setup.honest {
      assert setup.HonestKey(setup.keys[envelope.body.sender].key);
    }
  }

  lemma AnswerKeeps(setup: Setup, st: State, s: AgentId, envelope: Envelope, now: Time)
    requires setup.Valid() && Invariant(setup, st) && s in setup.suppliers && Deliverable(setup, st, envelope)
    ensures Invariant(setup, AnswerRfq(setup, st, setup.suppliers[s], envelope, now))
  {
    var st' := AnswerRfq(setup, st, setup.suppliers[s], envelope, now);
    var n := |st.answers|;
    if st' != st {
      var a := st'.answers[n];
      NewAnswerOk(setup, st, s, envelope, now, a, st');
      forall d ensures SessionOk(setup, st', d) {
        assert SessionOk(setup, st, d);
      }
      forall key, body | (key, body) in st'.signed
        ensures (KeyOf(setup, setup.buyer.id, key) && IsSentRfq(setup, st', body)) || IsAnswer(st', key, body, setup)
      {
        if (key, body) in st.signed {
          if IsAnswer(st, key, body, setup) {
            var i :| 0 <= i < n && KeyOf(setup, st.answers[i].supplierId, key) && st.answers[i].reply.body == body;
            assert st'.answers[i] == st.answers[i];
          }
        } else {
          assert KeyOf(setup, st'.answers[n].supplierId, key) && st'.answers[n].reply.body == body;
        }
      }
      forall i | 0 <= i < |st'.answers| ensures AnswerOk(setup, st', st'.answers[i]) {
        if i < n { assert AnswerOk(setup, st, st.answers[i]); }
      }
      forall i | 0 <= i < |st'.accepted| ensures Agreement(setup, st', st'.accepted[i]) {
        assert Agreement(setup, st, st.accepted[i]);
        AgreementGrows(setup, st, st', st.accepted[i]);
      }
    }
  }

  lemma AgreementGrows(setup: Setup, st: State, st': State, r: AcceptRecord)
    requires Agreement(setup, st, r) && st'.sessions == st.sessions && st.answers <= st'.answers
    ensures Agreement(setup, st', r)
  {
    if r.supplierId in setup.honest {
      var i :| 0 <= i < |st.answers|
               && st.answers[i].supplierId == r.supplierId
               && st.answers[i].rfq == st.sessions[r.correlationId].rfq
               && st.answers[i].intent == st.sessions[r.correlationId].intent
               && st.answers[i].reply == r.reply
               && r.reply.body.payload == QuotePayload(r.quote);
      assert st'.answers[i] == st.answers[i];
    }
  }

  /** What the buyer accepts was signed with the supplier's key over exactly this body. */
  lemma AcceptedIsSigned(setup: Setup, st: State, c: Id, envelope: Envelope, now: Time, quote: Quote)
    requires setup.Valid() && Deliverable(setup, st, envelope) && c in st.sessions
        && st.sessions[c].supplierId in setup.honest
    requires AcceptReply(
               setup.buyer, st.sessions[c].supplierId, c, Some(ArtifactData(false, Parsed(envelope))), now,
               setup.payloadHash)
          == Ok(Some(quote))
    ensures var s := st.sessions[c].supplierId;
            && s in setup.keys && envelope.signature == SignedBy(setup.keys[s].key, envelope.body)
            && (setup.keys[s].key, envelope.body) in st.signed
            && envelope.body.correlationId == c && envelope.body.recipient == setup.buyer.id
            && envelope.body.payload == QuotePayload(quote)
  {
    assert setup.HonestKey(setup.keys[st.sessions[c].supplierId].key);
  }

  /** An answer to the buyer under a session's correlation id answers the session's own RFQ. */
  lemma AnswersOwnRfq(setup: Setup, st: State, c: Id, a: AnswerRecord)
    requires setup.Valid() && Invariant(setup, st) && c in st.sessions && a in st.answers
    requires a.reply.body.correlationId == c && a.reply.body.recipient == setup.buyer.id
    ensures a.rfq == st.sessions[c].rfq && a.intent == st.sessions[c].intent
  {
    hide IsAnswer, IsSentRfq, Agreement;
    assert AnswerOk(setup, st, a) && SessionOk(setup, st, c);
    BuyerSigned(setup, st, a.rfq.body);
    SentIsSession(st, setup, a.rfq.body);
  }

  lemma SentIsSession(st: State, setup: Setup, body: Body)
    requires IsSentRfq(setup, st, body)
    ensures body.correlationId in st.sessions && st.sessions[body.correlationId].rfq.body == body
  {
  }

  lemma AnswerOfKey(setup: Setup, st: State, s: AgentId, body: Body) returns (a: AnswerRecord)
    requires setup.Valid() && Invariant(setup, st) && s in setup.honest && s in setup.keys
    requires IsAnswer(st, setup.keys[s].key, body, setup)
    ensures a in st.answers && a.supplierId == s && a.reply == Envelope(body, SignedBy(setup.keys[s].key, body))
  {
    hide SessionOk, IsSentRfq, Agreement;
    var key := setup.keys[s].key;
    var i :| 0 <= i < |st.answers| && KeyOf(setup, st.answers[i].supplierId, key) && st.answers[i].reply.body == body;
    a := st.answers[i];
    assert AnswerOk(setup, st, a);
  }

  /** The heart of the argument: what the buyer accepts was signed by that supplier as the answer to
      the session's own RFQ. */
  lemma AcceptedAgrees(setup: Setup, st: State, c: Id, envelope: Envelope, now: Time, quote: Quote)
    requires setup.Valid() && Invariant(setup, st) && Deliverable(setup, st, envelope) && c in st.sessions
    requires AcceptReply(
               setup.buyer, st.sessions[c].supplierId, c, Some(ArtifactData(false, Parsed(envelope))), now,
               setup.payloadHash)
          == Ok(Some(quote))
    ensures Agreement(setup, st, AcceptRecord(c, st.sessions[c].supplierId, envelope, quote))
  {
    hide Invariant, Deliverable, AcceptReply, Setup.Valid, IsAnswer;
    var s := st.sessions[c].supplierId;
    if s in setup.honest {
      AcceptedIsSigned(setup, st, c, envelope, now, quote);
      SignedIsAnswer(setup, st, setup.keys[s].key, envelope.body);
      var a := AnswerOfKey(setup, st, s, envelope.body);
      AnswersOwnRfq(setup, st, c, a);
      var i :| 0 <= i < |st.answers| && st.answers[i] == a;
    }
  }

  /** A signed body that carries a quote is no RFQ of the buyer's. */
  lemma SignedIsAnswer(setup: Setup, st: State, key: Key, body: Body)
    requires Invariant(setup, st) && (key, body) in st.signed && body.payload.QuotePayload?
    ensures IsAnswer(st, key, body, setup)
  {
    assert SessionOk(setup, st, body.correlationId);
  }

  lemma BuyerSigned(setup: Setup, st: State, body: Body)
    requires setup.Valid() && Invariant(setup, st) && (setup.keys[setup.buyer.id].key, body) in st.signed
    ensures IsSentRfq(setup, st, body)
  {
    var key := setup.keys[setup.buyer.id].key;
    forall i | 0 <= i < |st.answers| ensures !KeyOf(setup, st.answers[i].supplierId, key) {
      assert AnswerOk(setup, st, st.answers[i]);
    }
  }

  lemma ReceiveKeeps(setup: Setup, st: State, c: Id, envelope: Envelope, now: Time)
    requires setup.Valid() && Invariant(setup, st) && Deliverable(setup, st, envelope)
    ensures Invariant(setup, TakeReply(setup, st, c, envelope, now))
  {
    var st' := TakeReply(setup, st, c, envelope, now);
    if st' != st {
      var n := |st.accepted|;
      AcceptedAgrees(setup, st, c, envelope, now, st'.accepted[n].quote);
      forall d ensures SessionOk(setup, st', d) {
        assert SessionOk(setup, st, d);
      }
      forall key, body | (key, body) in st'.signed
        ensures (KeyOf(setup, setup.buyer.id, key) && IsSentRfq(setup, st', body)) || IsAnswer(st', key, body, setup)
      {
        assert IsAnswer(st, key, body, setup) ==> IsAnswer(st', key, body, setup);
      }
      forall i | 0 <= i < |st'.answers| ensures AnswerOk(setup, st', st'.answers[i]) {
        assert AnswerOk(setup, st, st.answers[i]);
      }
      forall i | 0 <= i < |st'.accepted| ensures Agreement(setup, st', st'.accepted[i]) {
        assert i < n ==> Agreement(setup, st, st.accepted[i]);
        AgreementGrows(setup, st, st', st'.accepted[i]);
      }
    }
  }

  lemma {:induction false} RunKeeps(setup: Setup, st: State, steps: seq<Step>)
    requires setup.Valid() && Invariant(setup, st)
    ensures Invariant(setup, Run(setup, st, steps))
    decreases |steps|
  {
    if steps != [] {
      match steps[0] {
        case BuyerSends(_, _, _, _, _) => SendKeeps(setup, st, steps[0]);
        case SupplierReceives(s, envelope, now) =>
          if s in setup.suppliers && Deliverable(setup, st, envelope) {
            AnswerKeeps(setup, st, s, envelope, now);
          }
        case BuyerReceives(c, envelope, now) =>
          if Deliverable(setup, st, envelope) {
            ReceiveKeeps(setup, st, c, envelope, now);
          }
      }
      RunKeeps(setup, Next(setup, st, steps[0]), steps[1..]);
    }
  }

  /** Agreement over every run: if A1 accepts a quote in answer to its RFQ `e` to an honest supplier
      `s`, then `s` verified exactly `e` — sent by the buyer, addressed to `s` — and signed that quote,
      out of its catalog, as its answer to the intent of `e`. */
  lemma AcceptedQuoteAnswersItsRfq(setup: Setup, steps: seq<Step>, r: AcceptRecord)
    returns (e: Envelope, a: AnswerRecord)
    requires setup.Valid() && r in Run(setup, INITIAL, steps).accepted && r.supplierId in setup.honest
    ensures var st := Run(setup, INITIAL, steps);
            && r.correlationId in st.sessions && e == st.sessions[r.correlationId].rfq
            && a in st.answers && a.supplierId == r.supplierId && a.rfq == e && a.reply == r.reply
    ensures e.body.sender == setup.buyer.id && e.body.recipient == r.supplierId
        && e.body.correlationId == r.correlationId
    ensures e.body.payload == IntentPayload(a.intent)
    ensures r.supplierId in setup.suppliers
    ensures a.intent.product.sku in setup.suppliers[r.supplierId].catalog
    ensures var s, item := setup.suppliers[r.supplierId], setup.suppliers[r.supplierId].catalog[a.intent.product.sku];
            r.quote == Quote(
              r.quote.quoteId, r.supplierId, s.name, a.intent.product.sku, a.intent.product.quantity, item.unitPrice,
              item.deliveryFee, item.currency, item.deliveryDays, item.warrantyMonths, item.supplierRisk,
              item.paymentDelayDays, r.reply.body.createdAt + 1800)
  {
    assert Invariant(setup, INITIAL);
    RunKeeps(setup, INITIAL, steps);
    var st := Run(setup, INITIAL, steps);
    var k :| 0 <= k < |st.accepted| && st.accepted[k] == r;
    assert Agreement(setup, st, r);
    assert SessionOk(setup, st, r.correlationId);
    e := st.sessions[r.correlationId].rfq;
    var i :| 0 <= i < |st.answers|
             && st.answers[i].supplierId == r.supplierId
             && st.answers[i].rfq == e
             && st.answers[i].intent == st.sessions[r.correlationId].intent
             && st.answers[i].reply == r.reply
             && r.reply.body.payload == QuotePayload(r.quote);
    a := st.answers[i];
    assert AnswerOk(setup, st, a);
  }

  /******* Progress *******/

  /** The supplier's catalog lists what the buyer asks for, and both sign for the same audience. */
  ghost predicate CanServe(setup: Setup, s: AgentId, intent: Intent) {
    && s in setup.suppliers && s in setup.keys && setup.suppliers[s].audience == setup.buyer.audience
    && setup.buyer.ttl > 0 && setup.suppliers[s].ttl > 0 && intent.product.sku in setup.suppliers[s].catalog
  }

  lemma RunOfThree(setup: Setup, st: State, a: Step, b: Step, c: Step)
    ensures Run(setup, st, [a, b, c]) == Next(setup, Next(setup, Next(setup, st, a), b), c)
  {
    hide Next;
    assert [a, b, c][1..] == [b, c] && [b, c][1..] == [c];
    assert Run(setup, Next(setup, st, a), [b, c]) == Run(setup, Next(setup, Next(setup, st, a), b), [c]);
  }

  lemma RfqIsSent(setup: Setup, st: State, s: AgentId, intent: Intent, dealId: Id, mandateId: Id, sentAt: Time)
    returns (rfq: Envelope)
    requires setup.Valid() && CanServe(setup, s, intent)
    ensures var c := st.nextId;
            && rfq.body == Body(
                 "a2a.procurement.rfq", c + 1, c, None, dealId, setup.buyer.id, s, mandateId,
                 setup.keys[setup.buyer.id].keyId, SendRfqOperation, "request_supplier_quote", setup.buyer.audience,
                 sentAt, sentAt + setup.buyer.ttl, c + 2, RfqKey(dealId, s), setup.payloadHash(IntentPayload(intent)),
                 IntentPayload(intent))
            && rfq.signature == SignedBy(setup.keys[setup.buyer.id].key, rfq.body)
            && var sent := Next(setup, st, BuyerSends(s, intent, dealId, mandateId, sentAt));
            && sent.accepted == st.accepted && sent.answers == st.answers && sent.nextId == c + 3
            && c in sent.sessions && sent.sessions[c] == Session(s, intent, rfq)
            && (rfq.signature.key, rfq.body) in sent.signed
  {
    rfq := Next(setup, st, BuyerSends(s, intent, dealId, mandateId, sentAt)).sessions[st.nextId].rfq;
  }

  /** From every state an exchange can still succeed: an RFQ to a supplier that lists the SKU, delivered before its
      expiry, is answered, and the answer, delivered before its own, is accepted for exactly the catalog's quote. */
  lemma ExchangeSucceeds(setup: Setup, st: State, s: AgentId, intent: Intent, dealId: Id, mandateId: Id, sentAt: Time,
      readAt: Time, receivedAt: Time)
    returns (rfq: Envelope, reply: Envelope)
    requires setup.Valid() && CanServe(setup, s, intent)
    requires readAt < sentAt + setup.buyer.ttl && receivedAt < readAt + setup.suppliers[s].ttl
    ensures var c, item := st.nextId, setup.suppliers[s].catalog[intent.product.sku];
            var quote := Quote(
              c + 3, s, setup.suppliers[s].name, intent.product.sku, intent.product.quantity, item.unitPrice,
              item.deliveryFee, item.currency, item.deliveryDays, item.warrantyMonths, item.supplierRisk,
              item.paymentDelayDays, readAt + 1800);
            var steps := [
              BuyerSends(s, intent, dealId, mandateId, sentAt), SupplierReceives(s, rfq, readAt),
              BuyerReceives(c, reply, receivedAt)];
            && Run(setup, st, steps).accepted == st.accepted + [AcceptRecord(c, s, reply, quote)]
            && rfq.body == Body(
                 "a2a.procurement.rfq", c + 1, c, None, dealId, setup.buyer.id, s, mandateId,
                 setup.keys[setup.buyer.id].keyId, SendRfqOperation, "request_supplier_quote", setup.buyer.audience,
                 sentAt, sentAt + setup.buyer.ttl, c + 2, RfqKey(dealId, s), setup.payloadHash(IntentPayload(intent)),
                 IntentPayload(intent))
  {
    var send := BuyerSends(s, intent, dealId, mandateId, sentAt);
    rfq := RfqIsSent(setup, st, s, intent, dealId, mandateId, sentAt);
    hide SendRfq, RfqBody, AcceptRfq;
    var sent := Next(setup, st, send);
    RfqAcceptedIff(setup.suppliers[s], rfq, readAt, setup.payloadHash, intent);
    var serve := SupplierReceives(s, rfq, readAt);
    var served := Next(setup, sent, serve);
    reply := served.answers[|st.answers|].reply;
    var take := BuyerReceives(st.nextId, reply, receivedAt);
    RunOfThree(setup, st, send, serve, take);
  }
}
