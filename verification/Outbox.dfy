/** The transactional outbox: idempotent appends, publication, and the messages of a signed deal. */
module Outbox {
  import opened Domain

  datatype MessageType = AwardMessage | RejectionMessage | PaymentDraftMessage | DocumentMessage

  /** `deal:{id}:award:{supplier}` and its siblings. */
  datatype OutboxKey =
    | AwardKey(dealId: Id, supplierId: AgentId)
    | RejectionKey(dealId: Id, supplierId: AgentId)
    | PaymentDraftKey(dealId: Id)
    | DocumentKey(dealId: Id, documentId: Id)

  datatype OutboxStatus = Pending | Published

  datatype Message = Message(
    aggregateId: Id, recipient: AgentId, messageType: MessageType, key: OutboxKey, status: OutboxStatus, attempts: nat)

  /******* Appending *******/

  predicate HasKey(rows: seq<Message>, key: OutboxKey) {
    exists i :: 0 <= i < |rows| && rows[i].key == key
  }

  function AppendOne(rows: seq<Message>, message: Message): seq<Message> {
    if HasKey(rows, message.key) then rows else rows + [message]
  }

  function AppendAll(rows: seq<Message>, messages: seq<Message>): seq<Message> {
    if messages == [] then rows
    else AppendOne(AppendAll(rows, messages[..|messages| - 1]), messages[|messages| - 1])
  }

  ghost predicate UniqueKeys(rows: seq<Message>) {
    forall i, j :: 0 <= i < j < |rows| ==> rows[i].key != rows[j].key
  }

  /** Appending keeps keys unique, never touches stored rows, and stores every key of the batch. */
  lemma {:induction false} AppendConserves(rows: seq<Message>, messages: seq<Message>)
    requires UniqueKeys(rows)
    ensures UniqueKeys(AppendAll(rows, messages))
    ensures rows <= AppendAll(rows, messages)
    ensures forall k :: HasKey(AppendAll(rows, messages), k) <==> HasKey(rows, k) || HasKey(messages, k)
    ensures forall m :: m in AppendAll(rows, messages) ==> m in rows || m in messages
  {
    if messages != [] {
      var init, last := messages[..|messages| - 1], messages[|messages| - 1];
      AppendConserves(rows, init);
      assert messages == init + [last];
      HasKeyAppend(init, last);
      HasKeyAppend(AppendAll(rows, init), last);
    }
  }

  lemma HasKeyAppend(rows: seq<Message>, m: Message)
    ensures forall k :: HasKey(rows + [m], k) <==> HasKey(rows, k) || k == m.key
  {
    forall k ensures HasKey(rows + [m], k) <==> HasKey(rows, k) || k == m.key {
      if HasKey(rows, k) {
        var i :| 0 <= i < |rows| && rows[i].key == k;
        assert (rows + [m])[i].key == k;
      }
      assert (rows + [m])[|rows|] == m;
    }
  }

  lemma {:induction false} AppendStored(rows: seq<Message>, messages: seq<Message>)
    requires forall i :: 0 <= i < |messages| ==> HasKey(rows, messages[i].key)
    ensures AppendAll(rows, messages) == rows
  {
    if messages != [] {
      AppendStored(rows, messages[..|messages| - 1]);
    }
  }

  /** Appending a batch twice is appending it once, whatever duplicates the batch holds. */
  lemma AppendIdempotent(rows: seq<Message>, messages: seq<Message>)
    requires UniqueKeys(rows)
    ensures AppendAll(AppendAll(rows, messages), messages) == AppendAll(rows, messages)
  {
    AppendConserves(rows, messages);
    forall i | 0 <= i < |messages| ensures HasKey(AppendAll(rows, messages), messages[i].key) {
      assert HasKey(messages, messages[i].key);
    }
    AppendStored(AppendAll(rows, messages), messages);
  }

  /******* Publishing *******/

  function PublishOne(m: Message, aggregateId: Id): Message {
    if m.aggregateId == aggregateId && m.status == Pending
    then m.(status := Published, attempts := m.attempts + 1)
    else m
  }

  function Publish(rows: seq<Message>, aggregateId: Id): seq<Message> {
    seq(|rows|, i requires 0 <= i < |rows| => PublishOne(rows[i], aggregateId))
  }

  /** Rows are published once: no attempt while pending, one attempt when published. */
  ghost predicate AttemptsMatch(rows: seq<Message>) {
    forall i :: 0 <= i < |rows| ==> rows[i].attempts == if rows[i].status == Published then 1 else 0
  }

  ghost predicate Unsent(messages: seq<Message>) {
    forall i :: 0 <= i < |messages| ==> messages[i].status == Pending && messages[i].attempts == 0
  }

  lemma AppendKeepsAttempts(rows: seq<Message>, messages: seq<Message>)
    requires UniqueKeys(rows) && AttemptsMatch(rows) && Unsent(messages)
    ensures AttemptsMatch(AppendAll(rows, messages))
  {
    var after := AppendAll(rows, messages);
    AppendConserves(rows, messages);
    forall i | 0 <= i < |after| ensures after[i].attempts == if after[i].status == Published then 1 else 0 {
      assert after[i] in after;
    }
  }

  /** Publishing leaves other aggregates alone, publishes everything of its own, keeps the keys, and
      counts exactly one attempt per published message. */
  lemma PublishConserves(rows: seq<Message>, aggregateId: Id)
    requires UniqueKeys(rows) && AttemptsMatch(rows)
    ensures UniqueKeys(Publish(rows, aggregateId)) && AttemptsMatch(Publish(rows, aggregateId))
    ensures |Publish(rows, aggregateId)| == |rows|
    ensures forall i :: 0 <= i < |rows| ==>
              && (rows[i].aggregateId != aggregateId ==> Publish(rows, aggregateId)[i] == rows[i])
              && (rows[i].aggregateId == aggregateId ==>
                    Publish(rows, aggregateId)[i] == rows[i].(status := Published, attempts := 1))
    ensures Publish(Publish(rows, aggregateId), aggregateId) == Publish(rows, aggregateId)
  {
  }

  /******* The messages of a signed deal *******/

  function Rejections(dealId: Id, suppliers: seq<AgentId>, winner: AgentId): seq<Message> {
    if suppliers == [] then []
    else
      (if suppliers[0] == winner then []
       else [Message(dealId, suppliers[0], RejectionMessage, RejectionKey(dealId, suppliers[0]), Pending, 0)])
      + Rejections(dealId, suppliers[1..], winner)
  }

  function DocumentMessages(dealId: Id, documents: seq<Document>): seq<Message> {
    seq(|documents|, i requires 0 <= i < |documents| =>
      Message(dealId, documents[i].source, DocumentMessage, DocumentKey(dealId, documents[i].documentId), Pending, 0))
  }

  const PAYMENT_ADAPTER: AgentId := "payment-adapter"

  /** What `_append_and_publish_outbox` writes for a deal whose order and draft exist. */
  function DealMessages(dealId: Id, suppliers: seq<AgentId>, winner: AgentId, documents: seq<Document>): seq<Message> {
    [Message(dealId, winner, AwardMessage, AwardKey(dealId, winner), Pending, 0)]
    + Rejections(dealId, suppliers, winner)
    + [Message(dealId, PAYMENT_ADAPTER, PaymentDraftMessage, PaymentDraftKey(dealId), Pending, 0)]
    + DocumentMessages(dealId, documents)
  }

  predicate IsVerdict(m: Message, dealId: Id, supplierId: AgentId) {
    m.aggregateId == dealId && m.recipient == supplierId &&
        (m.messageType == AwardMessage || m.messageType == RejectionMessage)
  }

  /** How many awards and rejections of the deal went to the supplier. */
  function Verdicts(rows: seq<Message>, dealId: Id, supplierId: AgentId): nat {
    if rows == [] then 0
    else
      var here := if IsVerdict(rows[|rows| - 1], dealId, supplierId) then 1 else 0;
      Verdicts(rows[..|rows| - 1], dealId, supplierId) + here
  }

  /** A message carries the key built from its deal and recipient; payment drafts go to the adapter. */
  predicate KeyMatches(m: Message) {
    match m.messageType
    case AwardMessage => m.key == AwardKey(m.aggregateId, m.recipient)
    case RejectionMessage => m.key == RejectionKey(m.aggregateId, m.recipient)
    case PaymentDraftMessage => m.key == PaymentDraftKey(m.aggregateId) && m.recipient == "payment-adapter"
    case DocumentMessage => m.key.DocumentKey? && m.key.dealId == m.aggregateId
  }

  ghost predicate KeysMatch(rows: seq<Message>) {
    forall i :: 0 <= i < |rows| ==> KeyMatches(rows[i])
  }

  /** What a signed deal owes: an award to the winner, a rejection to every other contacted supplier, its payment
      draft to the payment adapter, and each document to its source. */
  ghost predicate Owed(m: Message, dealId: Id, suppliers: seq<AgentId>, winner: AgentId, documents: seq<Document>) {
    && m.aggregateId == dealId
    && match m.messageType
       case AwardMessage => m.recipient == winner && m.key == AwardKey(dealId, winner)
       case RejectionMessage =>
         m.recipient in suppliers && m.recipient != winner && m.key == RejectionKey(dealId, m.recipient)
       case PaymentDraftMessage => m.recipient == "payment-adapter" && m.key == PaymentDraftKey(dealId)
       case DocumentMessage =>
         exists d :: d in documents && m.recipient == d.source && m.key == DocumentKey(dealId, d.documentId)
  }

  lemma {:induction false} RejectionsAre(dealId: Id, suppliers: seq<AgentId>, winner: AgentId, m: Message)
    ensures m in Rejections(dealId, suppliers, winner)
        <==> && m == Message(dealId, m.recipient, RejectionMessage, RejectionKey(dealId, m.recipient), Pending, 0)
             && m.recipient in suppliers && m.recipient != winner
  {
    if suppliers != [] {
      RejectionsAre(dealId, suppliers[1..], winner, m);
      assert suppliers == [suppliers[0]] + suppliers[1..];
    }
  }

  /** A signed deal sends exactly what it owes, each message unsent so far. */
  lemma DealMessagesExact(dealId: Id, suppliers: seq<AgentId>, winner: AgentId, documents: seq<Document>, m: Message)
    ensures m in DealMessages(dealId, suppliers, winner, documents)
        <==> Owed(m, dealId, suppliers, winner, documents) && m.status == Pending && m.attempts == 0
  {
    RejectionsAre(dealId, suppliers, winner, m);
    var files := DocumentMessages(dealId, documents);
    if m.messageType.DocumentMessage? && Owed(m, dealId, suppliers, winner, documents) && m.status == Pending
        && m.attempts == 0 {
      var d :| d in documents && m.recipient == d.source && m.key == DocumentKey(dealId, d.documentId);
      var i :| 0 <= i < |documents| && documents[i] == d;
      assert files[i] == m;
    }
    if m in files {
      var i :| 0 <= i < |files| && files[i] == m;
      assert documents[i] in documents;
    }
  }

  lemma HasKeyIff(rows: seq<Message>, k: OutboxKey)
    ensures HasKey(rows, k) <==> exists m :: m in rows && m.key == k
  {
    if HasKey(rows, k) {
      var i :| 0 <= i < |rows| && rows[i].key == k;
      assert rows[i] in rows;
    }
  }

  lemma DealMessagesMatch(dealId: Id, suppliers: seq<AgentId>, winner: AgentId, documents: seq<Document>)
    ensures KeysMatch(DealMessages(dealId, suppliers, winner, documents))
    ensures Unsent(DealMessages(dealId, suppliers, winner, documents))
  {
    hide DealMessages;
    var messages := DealMessages(dealId, suppliers, winner, documents);
    forall i | 0 <= i < |messages|
      ensures KeyMatches(messages[i]) && messages[i].status == Pending && messages[i].attempts == 0
    {
      DealMessagesExact(dealId, suppliers, winner, documents, messages[i]);
    }
  }

  /** The keys a deal writes. */
  lemma DealMessageKeys(dealId: Id, suppliers: seq<AgentId>, winner: AgentId, documents: seq<Document>, k: OutboxKey)
    ensures HasKey(DealMessages(dealId, suppliers, winner, documents), k)
        <==> match k
             case AwardKey(d, s) => d == dealId && s == winner
             case RejectionKey(d, s) => d == dealId && s in suppliers && s != winner
             case PaymentDraftKey(d) => d == dealId
             case DocumentKey(d, n) => d == dealId && exists x :: x in documents && x.documentId == n
  {
    hide DealMessages;
    var messages := DealMessages(dealId, suppliers, winner, documents);
    HasKeyIff(messages, k);
    forall m ensures m in messages <==> Owed(m, dealId, suppliers, winner, documents) && m.status == Pending
                                        && m.attempts == 0
    {
      DealMessagesExact(dealId, suppliers, winner, documents, m);
    }
    match k {
      case AwardKey(_, s) => assert Message(dealId, s, AwardMessage, k, Pending, 0).key == k;
      case RejectionKey(_, s) => assert Message(dealId, s, RejectionMessage, k, Pending, 0).key == k;
      case PaymentDraftKey(_) =>
        assert Message(dealId, "payment-adapter", PaymentDraftMessage, k, Pending, 0).key == k;
      case DocumentKey(_, n) =>
        if exists x :: x in documents && x.documentId == n {
          var x :| x in documents && x.documentId == n;
          assert Message(dealId, x.source, DocumentMessage, k, Pending, 0).key == k;
        }
    }
  }

  lemma {:induction false} NoVerdicts(rows: seq<Message>, dealId: Id, s: AgentId)
    requires forall i :: 0 <= i < |rows| ==> !IsVerdict(rows[i], dealId, s)
    ensures Verdicts(rows, dealId, s) == 0
  {
    if rows != [] {
      NoVerdicts(rows[..|rows| - 1], dealId, s);
    }
  }

  lemma {:induction false} OneVerdict(rows: seq<Message>, dealId: Id, s: AgentId, k: nat)
    requires k < |rows| && IsVerdict(rows[k], dealId, s)
    requires forall i :: 0 <= i < |rows| && i != k ==> !IsVerdict(rows[i], dealId, s)
    ensures Verdicts(rows, dealId, s) == 1
  {
    var n := |rows| - 1;
    if k == n {
      NoVerdicts(rows[..n], dealId, s);
    } else {
      OneVerdict(rows[..n], dealId, s, k);
    }
  }

  /** No verdict of the deal is in the outbox yet. */
  ghost predicate NoneYet(rows: seq<Message>, dealId: Id) {
    forall s :: !HasKey(rows, AwardKey(dealId, s)) && !HasKey(rows, RejectionKey(dealId, s))
  }

  /** In a table with unique, matching keys a supplier has one verdict if exactly one of its two keys is
      there, and none if neither is. */
  lemma VerdictsByKeys(rows: seq<Message>, dealId: Id, s: AgentId)
    requires UniqueKeys(rows) && KeysMatch(rows)
    requires !(HasKey(rows, AwardKey(dealId, s)) && HasKey(rows, RejectionKey(dealId, s)))
    ensures Verdicts(rows, dealId, s)
         == if HasKey(rows, AwardKey(dealId, s)) || HasKey(rows, RejectionKey(dealId, s)) then 1 else 0
  {
    forall i | 0 <= i < |rows|
      ensures IsVerdict(rows[i], dealId, s) <==>
          rows[i].key == AwardKey(dealId, s) || rows[i].key == RejectionKey(dealId, s)
    {
      assert KeyMatches(rows[i]);
    }
    if HasKey(rows, AwardKey(dealId, s)) {
      var k: nat :| k < |rows| && rows[k].key == AwardKey(dealId, s);
      OneVerdict(rows, dealId, s, k);
    } else if HasKey(rows, RejectionKey(dealId, s)) {
      var k: nat :| k < |rows| && rows[k].key == RejectionKey(dealId, s);
      OneVerdict(rows, dealId, s, k);
    } else {
      NoVerdicts(rows, dealId, s);
    }
  }

  /** Every contacted supplier gets exactly one verdict, the winner its award and every other one a
      rejection, even when the list of contacted suppliers repeats itself; nobody else gets any. */
  lemma ExactlyOneVerdict(rows: seq<Message>, dealId: Id, suppliers: seq<AgentId>, winner: AgentId,
      documents: seq<Document>, s: AgentId)
    requires UniqueKeys(rows) && KeysMatch(rows) && NoneYet(rows, dealId)
    ensures Verdicts(AppendAll(rows, DealMessages(dealId, suppliers, winner, documents)), dealId, s)
         == if s in suppliers || s == winner then 1 else 0
    ensures HasKey(AppendAll(rows, DealMessages(dealId, suppliers, winner, documents)), AwardKey(dealId, s))
        <==> s == winner
  {
    var messages := DealMessages(dealId, suppliers, winner, documents);
    DealMessagesMatch(dealId, suppliers, winner, documents);
    DealMessageKeys(dealId, suppliers, winner, documents, AwardKey(dealId, s));
    DealMessageKeys(dealId, suppliers, winner, documents, RejectionKey(dealId, s));
    AppendConserves(rows, messages);
    KeysMatchAppend(rows, messages);
    VerdictsByKeys(AppendAll(rows, messages), dealId, s);
  }

  lemma KeysMatchAppend(rows: seq<Message>, messages: seq<Message>)
    requires UniqueKeys(rows) && KeysMatch(rows) && KeysMatch(messages)
    ensures KeysMatch(AppendAll(rows, messages))
  {
    var after := AppendAll(rows, messages);
    AppendConserves(rows, messages);
    forall i | 0 <= i < |after| ensures KeyMatches(after[i]) {
      assert after[i] in after;
    }
  }

  /******* The program *******/

  class OutboxTable {
    var rows: seq<Message>

    constructor ()
      ensures rows == []
    {
      rows := [];
    }

    method AppendOutbox(messages: seq<Message>)
      modifies this
      ensures rows == AppendAll(old(rows), messages)
    {
      for i := 0 to |messages|
        invariant rows == AppendAll(old(rows), messages[..i])
      {
        assert messages[..i + 1][..i] == messages[..i];
        if !HasKey(rows, messages[i].key) {
          rows := rows + [messages[i]];
        }
      }
      assert messages[..|messages|] == messages;
    }

    method MarkOutboxPublished(aggregateId: Id)
      modifies this
      ensures rows == Publish(old(rows), aggregateId)
    {
      for i := 0 to |rows|
        invariant |rows| == |old(rows)|
        invariant forall k :: 0 <= k < i ==> rows[k] == PublishOne(old(rows)[k], aggregateId)
        invariant forall k :: i <= k < |rows| ==> rows[k] == old(rows)[k]
      {
        if rows[i].aggregateId == aggregateId && rows[i].status == Pending {
          rows := rows[i := rows[i].(status := Published, attempts := rows[i].attempts + 1)];
        }
      }
    }
  }
}
