/** The per-deal hash chain kept in one append-only table. The hash is an arbitrary function of the
    four hashed fields: nothing below assumes that it is injective. */
module Ledger {
  import opened Wrappers
  import opened Domain
  import opened StableSorting

  /** What `current_hash` covers. */
  datatype Preimage = Preimage(dealId: Id, sequenceNumber: nat, previousHash: Digest, payloadHash: Digest)

  datatype LedgerError = HashConflict

  const GENESIS_HASH: Digest := "0000000000000000000000000000000000000000000000000000000000000000"

  /******* One chain *******/

  function LastHash(chain: seq<Anchor>): Digest {
    if chain == [] then GENESIS_HASH else chain[|chain| - 1].currentHash
  }

  function PreviousHash(chain: seq<Anchor>, i: nat): Digest
    requires i <= |chain|
  {
    if i == 0 then GENESIS_HASH else chain[i - 1].currentHash
  }

  /** The anchor at `i` is numbered by its position, points at its predecessor and hashes its own fields. */
  predicate LinkAt(hash: Preimage -> Digest, dealId: Id, chain: seq<Anchor>, i: nat)
    requires i < |chain|
  {
    && chain[i].sequenceNumber == i + 1
    && chain[i].previousHash == PreviousHash(chain, i)
    && chain[i].currentHash == hash(Preimage(dealId, i + 1, PreviousHash(chain, i), chain[i].payloadHash))
  }

  ghost predicate Verifies(hash: Preimage -> Digest, dealId: Id, chain: seq<Anchor>) {
    forall i :: 0 <= i < |chain| ==> LinkAt(hash, dealId, chain, i)
  }

  /** The anchor that `append` adds to a chain. */
  function NextAnchor(hash: Preimage -> Digest, dealId: Id, chain: seq<Anchor>, payloadHash: Digest): Anchor {
    var number := if chain == [] then 1 else chain[|chain| - 1].sequenceNumber + 1;
    var previous := LastHash(chain);
    Anchor(dealId, number, previous, hash(Preimage(dealId, number, previous, payloadHash)), payloadHash)
  }

  /** What appending a list of payload hashes builds from nothing. */
  function Build(hash: Preimage -> Digest, dealId: Id, payloads: seq<Digest>): seq<Anchor> {
    if payloads == [] then []
    else
      var chain := Build(hash, dealId, payloads[..|payloads| - 1]);
      chain + [NextAnchor(hash, dealId, chain, payloads[|payloads| - 1])]
  }

  function PayloadHashes(chain: seq<Anchor>): seq<Digest> {
    seq(|chain|, i requires 0 <= i < |chain| => chain[i].payloadHash)
  }

  lemma VerifiesPrefix(hash: Preimage -> Digest, dealId: Id, chain: seq<Anchor>, n: nat)
    requires Verifies(hash, dealId, chain) && n <= |chain|
    ensures Verifies(hash, dealId, chain[..n])
  {
    forall i | 0 <= i < n ensures LinkAt(hash, dealId, chain[..n], i) {
      assert LinkAt(hash, dealId, chain, i);
    }
  }

  lemma VerifiesExtended(hash: Preimage -> Digest, dealId: Id, chain: seq<Anchor>, anchor: Anchor)
    requires Verifies(hash, dealId, chain)
    ensures Verifies(hash, dealId, chain + [anchor]) <==> LinkAt(hash, dealId, chain + [anchor], |chain|)
  {
    var longer := chain + [anchor];
    forall i | 0 <= i < |chain| ensures LinkAt(hash, dealId, longer, i) {
      assert LinkAt(hash, dealId, chain, i);
    }
  }

  /** On a verifying chain the next anchor is the one that links. */
  lemma NextAnchorLinks(hash: Preimage -> Digest, dealId: Id, chain: seq<Anchor>, anchor: Anchor)
    requires Verifies(hash, dealId, chain) && anchor.dealId == dealId
    ensures LinkAt(hash, dealId, chain + [anchor], |chain|)
            <==> anchor == NextAnchor(hash, dealId, chain, anchor.payloadHash)
  {
    if chain != [] {
      assert LinkAt(hash, dealId, chain, |chain| - 1);
    }
  }

  /** `verify` accepts a deal's list exactly when it is what `append` builds from its payload hashes. */
  lemma {:induction false} VerifiesIffBuilt(hash: Preimage -> Digest, dealId: Id, chain: seq<Anchor>)
    requires forall i :: 0 <= i < |chain| ==> chain[i].dealId == dealId
    ensures Verifies(hash, dealId, chain) <==> chain == Build(hash, dealId, PayloadHashes(chain))
  {
    if chain != [] {
      var n := |chain| - 1;
      var init, last := chain[..n], chain[n];
      VerifiesIffBuilt(hash, dealId, init);
      assert chain == init + [last];
      assert PayloadHashes(chain)[..n] == PayloadHashes(init);
      var built := Build(hash, dealId, PayloadHashes(init));
      assert Build(hash, dealId, PayloadHashes(chain)) == built + [NextAnchor(hash, dealId, built, last.payloadHash)];
      if Verifies(hash, dealId, chain) {
        VerifiesPrefix(hash, dealId, chain, n);
      }
      if Verifies(hash, dealId, init) {
        VerifiesExtended(hash, dealId, init, last);
        NextAnchorLinks(hash, dealId, init, last);
      } else {
        assert |init| == |built| ==> init != built;
        BuildLength(hash, dealId, PayloadHashes(init));
        assert (built + [NextAnchor(hash, dealId, built, last.payloadHash)])[..n] == built;
      }
    }
  }

  lemma {:induction false} BuildLength(hash: Preimage -> Digest, dealId: Id, payloads: seq<Digest>)
    ensures |Build(hash, dealId, payloads)| == |payloads|
  {
    if payloads != [] {
      BuildLength(hash, dealId, payloads[..|payloads| - 1]);
    }
  }

  /******* Tamper evidence *******/

  function LastPreimage(dealId: Id, chain: seq<Anchor>): Preimage
    requires chain != []
  {
    var last := chain[|chain| - 1];
    Preimage(dealId, last.sequenceNumber, last.previousHash, last.payloadHash)
  }

  /** Walks two chains back from their ends to the first place where they hash different fields. */
  function ExtractCollision(d: Id, left: seq<Anchor>, e: Id, right: seq<Anchor>): Option<(Preimage, Preimage)> {
    if left == [] || right == [] then None
    else if LastPreimage(d, left) != LastPreimage(e, right) then Some((LastPreimage(d, left), LastPreimage(e, right)))
    else ExtractCollision(d, left[..|left| - 1], e, right[..|right| - 1])
  }

  ghost predicate IsCollision(hash: Preimage -> Digest, c: (Preimage, Preimage)) {
    c.0 != c.1 && hash(c.0) == hash(c.1)
  }

  ghost predicate SameLinks(left: seq<Anchor>, right: seq<Anchor>) {
    && |left| == |right|
    && forall i :: 0 <= i < |left| ==>
         && left[i].sequenceNumber == right[i].sequenceNumber
         && left[i].previousHash == right[i].previousHash
         && left[i].currentHash == right[i].currentHash
         && left[i].payloadHash == right[i].payloadHash
  }

  /** Tamper evidence by reduction: two verifying chains that end in the same hash are the same
      chain of the same deal, or a collision of the hash can be computed from them. */
  lemma {:induction false} TamperEvidence(hash: Preimage -> Digest, d: Id, left: seq<Anchor>, e: Id, right: seq<Anchor>)
    requires left != [] && right != []
    requires Verifies(hash, d, left) && Verifies(hash, e, right)
    requires LastHash(left) == LastHash(right)
    ensures ExtractCollision(d, left, e, right).Some? ==> IsCollision(hash, ExtractCollision(d, left, e, right).value)
    ensures ExtractCollision(d, left, e, right).None? ==> d == e && SameLinks(left, right)
  {
    var m, n := |left| - 1, |right| - 1;
    assert LinkAt(hash, d, left, m) && LinkAt(hash, e, right, n);
    if LastPreimage(d, left) == LastPreimage(e, right) {
      var l, r := left[..m], right[..n];
      assert left == l + [left[m]] && right == r + [right[n]];
      if m > 0 {
        VerifiesPrefix(hash, d, left, m);
        VerifiesPrefix(hash, e, right, n);
        TamperEvidence(hash, d, l, e, r);
      }
      if ExtractCollision(d, l, e, r).None? {
        SameLinksExtended(l, left[m], r, right[n]);
      }
    }
  }

  lemma SameLinksExtended(left: seq<Anchor>, a: Anchor, right: seq<Anchor>, b: Anchor)
    requires SameLinks(left, right)
    requires a.sequenceNumber == b.sequenceNumber && a.previousHash == b.previousHash
    requires a.currentHash == b.currentHash && a.payloadHash == b.payloadHash
    ensures SameLinks(left + [a], right + [b])
  {
  }

  /******* The table of all chains *******/

  predicate LowerNumber(a: Anchor, b: Anchor) {
    a.sequenceNumber < b.sequenceNumber
  }

  function RowsOf(rows: seq<Anchor>, dealId: Id): seq<Anchor> {
    if rows == [] then []
    else
      var last := rows[|rows| - 1];
      RowsOf(rows[..|rows| - 1], dealId) + if last.dealId == dealId then [last] else []
  }

  /** `list`: the rows of one deal ordered by sequence number. */
  function ChainOf(rows: seq<Anchor>, dealId: Id): seq<Anchor> {
    Sort(RowsOf(rows, dealId), LowerNumber)
  }

  /** The table's uniqueness constraint on (deal, current hash). */
  predicate Conflicts(rows: seq<Anchor>, anchor: Anchor) {
    exists i :: 0 <= i < |rows| && rows[i].dealId == anchor.dealId && rows[i].currentHash == anchor.currentHash
  }

  function Append(hash: Preimage -> Digest, rows: seq<Anchor>, dealId: Id, payloadHash: Digest)
    : Result<Anchor, LedgerError>
  {
    var anchor := NextAnchor(hash, dealId, ChainOf(rows, dealId), payloadHash);
    if Conflicts(rows, anchor) then Err(HashConflict) else Ok(anchor)
  }

  function Appended(hash: Preimage -> Digest, rows: seq<Anchor>, dealId: Id, payloadHash: Digest): seq<Anchor> {
    match Append(hash, rows, dealId, payloadHash)
    case Ok(anchor) => rows + [anchor]
    case Err(_) => rows
  }

  ghost predicate AllVerify(hash: Preimage -> Digest, rows: seq<Anchor>) {
    forall d :: Verifies(hash, d, ChainOf(rows, d))
  }

  lemma {:induction false} RowsOfMembers(rows: seq<Anchor>, dealId: Id)
    ensures forall a :: a in RowsOf(rows, dealId) <==> a in rows && a.dealId == dealId
  {
    if rows != [] {
      RowsOfMembers(rows[..|rows| - 1], dealId);
      assert rows == rows[..|rows| - 1] + [rows[|rows| - 1]];
    }
  }

  lemma ChainOfMembers(rows: seq<Anchor>, dealId: Id)
    ensures forall a :: a in ChainOf(rows, dealId) <==> a in rows && a.dealId == dealId
  {
    RowsOfMembers(rows, dealId);
    SortPermutes(RowsOf(rows, dealId), LowerNumber);
    forall a ensures a in ChainOf(rows, dealId) <==> a in RowsOf(rows, dealId) {
      assert a in ChainOf(rows, dealId) <==> a in multiset(RowsOf(rows, dealId));
    }
  }

  lemma ChainAfterAppend(hash: Preimage -> Digest, rows: seq<Anchor>, dealId: Id, payloadHash: Digest)
    requires Verifies(hash, dealId, ChainOf(rows, dealId))
    requires Append(hash, rows, dealId, payloadHash).Ok?
    ensures var anchor := Append(hash, rows, dealId, payloadHash).value;
            ChainOf(rows + [anchor], dealId) == ChainOf(rows, dealId) + [anchor]
  {
    var anchor := Append(hash, rows, dealId, payloadHash).value;
    var chain := ChainOf(rows, dealId);
    assert (rows + [anchor])[..|rows|] == rows;
    var own := RowsOf(rows + [anchor], dealId);
    assert own[..|own| - 1] == RowsOf(rows, dealId);
    forall i | 0 <= i < |chain| ensures !LowerNumber(anchor, chain[i]) {
      assert LinkAt(hash, dealId, chain, i) && LinkAt(hash, dealId, chain, |chain| - 1);
    }
    InsertAtEnd(anchor, chain, LowerNumber);
  }

  /** Appending to one deal leaves every other deal's chain as it was. */
  lemma OtherChainsUntouched(hash: Preimage -> Digest, rows: seq<Anchor>, dealId: Id, payloadHash: Digest, other: Id)
    requires other != dealId
    ensures ChainOf(Appended(hash, rows, dealId, payloadHash), other) == ChainOf(rows, other)
  {
    var after := Appended(hash, rows, dealId, payloadHash);
    if Append(hash, rows, dealId, payloadHash).Ok? {
      assert after[..|after| - 1] == rows;
      assert RowsOf(after, other) == RowsOf(rows, other);
    }
  }

  lemma AppendKeepsVerifying(hash: Preimage -> Digest, rows: seq<Anchor>, dealId: Id, payloadHash: Digest)
    requires AllVerify(hash, rows)
    ensures AllVerify(hash, Appended(hash, rows, dealId, payloadHash))
  {
    var after := Appended(hash, rows, dealId, payloadHash);
    forall d ensures Verifies(hash, d, ChainOf(after, d)) {
      assert Verifies(hash, d, ChainOf(rows, d));
      if d != dealId {
        OtherChainsUntouched(hash, rows, dealId, payloadHash, d);
      } else if Append(hash, rows, dealId, payloadHash).Ok? {
        var chain, anchor := ChainOf(rows, d), Append(hash, rows, dealId, payloadHash).value;
        ChainAfterAppend(hash, rows, dealId, payloadHash);
        NextAnchorLinks(hash, d, chain, anchor);
        VerifiesExtended(hash, d, chain, anchor);
      }
    }
  }

  /** A refused append exhibits a collision. */
  lemma ConflictIsCollision(hash: Preimage -> Digest, rows: seq<Anchor>, dealId: Id, payloadHash: Digest)
    returns (c: (Preimage, Preimage))
    requires AllVerify(hash, rows) && Append(hash, rows, dealId, payloadHash).Err?
    ensures IsCollision(hash, c)
  {
    var chain := ChainOf(rows, dealId);
    var anchor := NextAnchor(hash, dealId, chain, payloadHash);
    var i :| 0 <= i < |rows| && rows[i].dealId == dealId && rows[i].currentHash == anchor.currentHash;
    ChainOfMembers(rows, dealId);
    assert rows[i] in chain;
    var k: nat :| k < |chain| && chain[k] == rows[i];
    assert Verifies(hash, dealId, chain);
    c := CollisionWithLink(hash, dealId, chain, k, payloadHash);
  }

  lemma CollisionWithLink(hash: Preimage -> Digest, dealId: Id, chain: seq<Anchor>, k: nat, payloadHash: Digest)
    returns (c: (Preimage, Preimage))
    requires Verifies(hash, dealId, chain) && k < |chain|
    requires chain[k].currentHash == NextAnchor(hash, dealId, chain, payloadHash).currentHash
    ensures IsCollision(hash, c)
  {
    assert LinkAt(hash, dealId, chain, k) && LinkAt(hash, dealId, chain, |chain| - 1);
    c := (Preimage(dealId, k + 1, PreviousHash(chain, k), chain[k].payloadHash),
          Preimage(dealId, |chain| + 1, LastHash(chain), payloadHash));
  }

  /******* Any interleaving of appends *******/

  /** One atomic append: the deal and the hash of its payload. */
  datatype Request = Request(dealId: Id, payloadHash: Digest)

  function Run(hash: Preimage -> Digest, rows: seq<Anchor>, requests: seq<Request>): seq<Anchor>
    decreases |requests|
  {
    if requests == [] then rows
    else Run(hash, Appended(hash, rows, requests[0].dealId, requests[0].payloadHash), requests[1..])
  }

  /** The payload hashes accepted for one deal, in order. */
  function Accepted(hash: Preimage -> Digest, rows: seq<Anchor>, requests: seq<Request>, dealId: Id): seq<Digest>
    decreases |requests|
  {
    if requests == [] then []
    else
      var r := requests[0];
      (if r.dealId == dealId && Append(hash, rows, r.dealId, r.payloadHash).Ok? then [r.payloadHash] else [])
      + Accepted(hash, Appended(hash, rows, r.dealId, r.payloadHash), requests[1..], dealId)
  }

  lemma OneAppend(hash: Preimage -> Digest, rows: seq<Anchor>, r: Request, dealId: Id)
    requires AllVerify(hash, rows)
    ensures var after := Appended(hash, rows, r.dealId, r.payloadHash);
            var accepted := r.dealId == dealId && Append(hash, rows, r.dealId, r.payloadHash).Ok?;
            && ChainOf(rows, dealId) <= ChainOf(after, dealId)
            && PayloadHashes(ChainOf(after, dealId))
            == PayloadHashes(ChainOf(rows, dealId)) + if accepted then [r.payloadHash] else []
  {
    if r.dealId != dealId {
      OtherChainsUntouched(hash, rows, r.dealId, r.payloadHash, dealId);
    } else if Append(hash, rows, r.dealId, r.payloadHash).Ok? {
      assert Verifies(hash, dealId, ChainOf(rows, dealId));
      ChainAfterAppend(hash, rows, dealId, r.payloadHash);
    }
  }

  lemma PrefixTransitive(a: seq<Anchor>, b: seq<Anchor>, c: seq<Anchor>)
    requires a <= b && b <= c
    ensures a <= c
  {
  }

  lemma {:induction false} RunKeepsVerifying(hash: Preimage -> Digest, rows: seq<Anchor>, requests: seq<Request>)
    requires AllVerify(hash, rows)
    ensures AllVerify(hash, Run(hash, rows, requests))
    decreases |requests|
  {
    if requests != [] {
      AppendKeepsVerifying(hash, rows, requests[0].dealId, requests[0].payloadHash);
      RunKeepsVerifying(hash, Appended(hash, rows, requests[0].dealId, requests[0].payloadHash), requests[1..]);
    }
  }

  lemma ConcatAssociative(x: seq<Digest>, y: seq<Digest>, z: seq<Digest>)
    ensures (x + y) + z == x + (y + z)
  {
  }

  lemma {:induction false} RunExtendsChains(hash: Preimage -> Digest, rows: seq<Anchor>, requests: seq<Request>,
      dealId: Id)
    requires AllVerify(hash, rows)
    ensures PayloadHashes(ChainOf(Run(hash, rows, requests), dealId))
         == PayloadHashes(ChainOf(rows, dealId)) + Accepted(hash, rows, requests, dealId)
    ensures ChainOf(rows, dealId) <= ChainOf(Run(hash, rows, requests), dealId)
    decreases |requests|
  {
    if requests != [] {
      var r, rest := requests[0], requests[1..];
      var after := Appended(hash, rows, r.dealId, r.payloadHash);
      var head := if r.dealId == dealId && Append(hash, rows, r.dealId, r.payloadHash).Ok? then [r.payloadHash] else [];
      assert Run(hash, rows, requests) == Run(hash, after, rest);
      assert Accepted(hash, rows, requests, dealId) == head + Accepted(hash, after, rest, dealId);
      AppendKeepsVerifying(hash, rows, r.dealId, r.payloadHash);
      RunExtendsChains(hash, after, rest, dealId);
      OneAppend(hash, rows, r, dealId);
      ConcatAssociative(PayloadHashes(ChainOf(rows, dealId)), head, Accepted(hash, after, rest, dealId));
      PrefixTransitive(ChainOf(rows, dealId), ChainOf(after, dealId), ChainOf(Run(hash, after, rest), dealId));
    }
  }

  /** After any interleaving of appends to any deals every deal verifies and is numbered 1..n; its
      chain is the one its own accepted payloads build, whatever happened to the other deals. */
  lemma InterleavedAppends(hash: Preimage -> Digest, requests: seq<Request>, dealId: Id)
    ensures Verifies(hash, dealId, ChainOf(Run(hash, [], requests), dealId))
    ensures forall i :: 0 <= i < |ChainOf(Run(hash, [], requests), dealId)| ==>
              ChainOf(Run(hash, [], requests), dealId)[i].sequenceNumber == i + 1
    ensures ChainOf(Run(hash, [], requests), dealId) == Build(hash, dealId, Accepted(hash, [], requests, dealId))
  {
    assert ChainOf([], dealId) == [];
    assert AllVerify(hash, []) by {
      forall d ensures Verifies(hash, d, ChainOf([], d)) { assert ChainOf([], d) == []; }
    }
    RunKeepsVerifying(hash, [], requests);
    RunExtendsChains(hash, [], requests, dealId);
    var rows := Run(hash, [], requests);
    var chain := ChainOf(rows, dealId);
    assert Verifies(hash, dealId, chain);
    forall i | 0 <= i < |chain| ensures chain[i].sequenceNumber == i + 1 && chain[i].dealId == dealId {
      assert LinkAt(hash, dealId, chain, i);
      ChainOfMembers(rows, dealId);
      assert chain[i] in chain;
    }
    VerifiesIffBuilt(hash, dealId, chain);
    assert PayloadHashes(chain) == Accepted(hash, [], requests, dealId);
  }

  /******* The program *******/

  /** `DatabaseHashChainAnchor`; `append` runs under the append lock, hence atomically. */
  class DatabaseHashChainAnchor {
    const hash: Preimage -> Digest
    var rows: seq<Anchor>

    constructor (hash: Preimage -> Digest)
      ensures this.hash == hash && rows == []
    {
      this.hash := hash;
      this.rows := [];
    }

    method AppendPayload(dealId: Id, payloadHash: Digest) returns (r: Result<Anchor, LedgerError>)
      modifies this`rows
      ensures r == Append(hash, old(rows), dealId, payloadHash)
      ensures rows == Appended(hash, old(rows), dealId, payloadHash)
    {
      var chain := ChainOf(rows, dealId);
      var sequence, previousHash := 1, GENESIS_HASH;
      if chain != [] {
        var latest := chain[|chain| - 1];
        sequence, previousHash := latest.sequenceNumber + 1, latest.currentHash;
      }
      var currentHash := hash(Preimage(dealId, sequence, previousHash, payloadHash));
      var anchor := Anchor(dealId, sequence, previousHash, currentHash, payloadHash);
      if Conflicts(rows, anchor) {
        return Err(HashConflict);
      }
      rows := rows + [anchor];
      r := Ok(anchor);
    }

    method Verify(dealId: Id) returns (ok: bool)
      ensures ok == Verifies(hash, dealId, ChainOf(rows, dealId))
    {
      var chain := ChainOf(rows, dealId);
      var previous := GENESIS_HASH;
      for i := 0 to |chain|
        invariant previous == PreviousHash(chain, i)
        invariant Verifies(hash, dealId, chain[..i])
      {
        var anchor := chain[i];
        var expected := hash(Preimage(dealId, i + 1, previous, anchor.payloadHash));
        assert chain[..i + 1] == chain[..i] + [anchor];
        if anchor.sequenceNumber != i + 1 || anchor.previousHash != previous || anchor.currentHash != expected {
          assert !LinkAt(hash, dealId, chain, i);
          return false;
        }
        VerifiesExtended(hash, dealId, chain[..i], anchor);
        previous := anchor.currentHash;
      }
      assert chain[..|chain|] == chain;
      ok := true;
    }
  }
}
