/** The transactional outbox (state/outbox.py): converging inserts and the drain loop. */
module Outbox {
  import opened Wrappers

  datatype MessageStatus = Pending | Published | Undeliverable

  datatype MessageKey = MessageKey(kind: string, dedupKey: string)

  datatype Message = Message(
    id: nat, destination: string, envelope: string, fencingToken: Option<nat>, status: MessageStatus, attempts: nat)

  /** Rows by their unique key, and the identity counter, which a conflicting insert also consumes. */
  datatype Box = Box(rows: map<MessageKey, Message>, nextId: nat)

  const EmptyBox := Box(map[], 0)

  /** SQL GREATEST ignores NULL arguments. */
  function Greatest(a: Option<nat>, b: Option<nat>): Option<nat> {
    if a.None? then b else if b.None? then a else if a.value >= b.value then a else b
  }

  function InsertRow(b: Box, k: MessageKey, destination: string, envelope: string, token: Option<nat>): Box {
    if k in b.rows
    then Box(b.rows[k := b.rows[k].(fencingToken := Greatest(b.rows[k].fencingToken, token))], b.nextId + 1)
    else Box(b.rows[k := Message(b.nextId, destination, envelope, token, Pending, 0)], b.nextId + 1)
  }

  /** Ids are given once, below the counter. */
  ghost predicate BoxInv(b: Box) {
    && (forall k :: k in b.rows ==> b.rows[k].id < b.nextId)
    && (forall j, k :: j in b.rows && k in b.rows && b.rows[j].id == b.rows[k].id ==> j == k)
  }

  // ---- the drain loop ----

  predicate IsPending(b: Box, k: MessageKey) {
    k in b.rows && b.rows[k].status.Pending?
  }

  /** SELECT ... WHERE status = 'pending' ORDER BY outbox_id LIMIT `limit`. */
  ghost predicate PendingBatch(b: Box, limit: nat, ks: seq<MessageKey>) {
    && |ks| <= limit
    && (forall k :: k in ks ==> IsPending(b, k))
    && (forall i, j :: 0 <= i < j < |ks| ==> IsPending(b, ks[i]) && IsPending(b, ks[j]) && b.rows[ks[i]].id < b.rows[ks[j]].id)
    && (forall k :: IsPending(b, k) && k !in ks ==> |ks| == limit && forall j :: j in ks ==> j in b.rows && b.rows[j].id < b.rows[k].id)
  }

  /** The dispatcher between two of its own actions: the messages handled so far and the one in flight. */
  datatype Drain = Drain(box: Box, handled: nat, inFlight: bool, sent: set<MessageKey>, count: nat)

  predicate Done(d: Drain, ks: seq<MessageKey>) {
    d.handled >= |ks|
  }

  function MarkPublished(b: Box, k: MessageKey): Box {
    if k in b.rows then b.(rows := b.rows[k := b.rows[k].(status := Published)]) else b
  }

  function MarkFailed(b: Box, k: MessageKey): Box {
    if k in b.rows
    then b.(rows := b.rows[k := b.rows[k].(status := Undeliverable, attempts := b.rows[k].attempts + 1)]) else b
  }

  /** One action of the loop: call the sender, or mark the message it accepted. A refusal is marked at once. */
  function DrainStep(d: Drain, ks: seq<MessageKey>, accepts: MessageKey -> bool): Drain {
    if Done(d, ks) then d
    else
      var k := ks[d.handled];
      if d.inFlight then Drain(MarkPublished(d.box, k), d.handled + 1, false, d.sent, d.count + 1)
      else if accepts(k) then d.(inFlight := true, sent := d.sent + {k})
      else Drain(MarkFailed(d.box, k), d.handled + 1, false, d.sent, d.count)
  }

  function DrainAfter(b: Box, ks: seq<MessageKey>, accepts: MessageKey -> bool, steps: nat): Drain {
    if steps == 0 then Drain(b, 0, false, {}, 0) else DrainStep(DrainAfter(b, ks, accepts, steps - 1), ks, accepts)
  }

  /** A message that was sent is published; one the sender refused has one more attempt and is out of the queue. */
  predicate Marked(m: Message, m': Message, accepted: bool) {
    m' == if accepted then Message(m.id, m.destination, m.envelope, m.fencingToken, Published, m.attempts)
          else Message(m.id, m.destination, m.envelope, m.fencingToken, Undeliverable, m.attempts + 1)
  }

  /** How the drain left message `i` of the batch. */
  predicate Handled(b: Box, ks: seq<MessageKey>, accepts: MessageKey -> bool, d: Drain, i: nat)
    requires i < |ks|
  {
    var k := ks[i];
    && k in b.rows && k in d.box.rows
    && (i >= d.handled ==> d.box.rows[k] == b.rows[k])
    && (i < d.handled ==> Marked(b.rows[k], d.box.rows[k], accepts(k)))
    && (k in d.sent <==> accepts(k) && (i < d.handled || (d.inFlight && i == d.handled)))
  }

  /** The state of every message after some actions. */
  ghost predicate DrainInv(b: Box, ks: seq<MessageKey>, accepts: MessageKey -> bool, d: Drain) {
    && d.handled <= |ks| && (d.inFlight ==> d.handled < |ks| && accepts(ks[d.handled]))
    && d.box.rows.Keys == b.rows.Keys && d.box.nextId == b.nextId
    && (forall i :: 0 <= i < |ks| ==> Handled(b, ks, accepts, d, i))
    && (forall k :: k in b.rows && k !in ks ==> d.box.rows[k] == b.rows[k])
    && (forall k :: k in d.sent ==> k in ks)
    && d.count == Accepted(ks[..d.handled], accepts)
  }

  function Accepted(ks: seq<MessageKey>, accepts: MessageKey -> bool): nat {
    if ks == [] then 0 else Accepted(ks[..|ks| - 1], accepts) + if accepts(ks[|ks| - 1]) then 1 else 0
  }

  predicate Distinct(ks: seq<MessageKey>) {
    forall i, j :: 0 <= i < j < |ks| ==> ks[i] != ks[j]
  }

  lemma DrainInvStep(b: Box, ks: seq<MessageKey>, accepts: MessageKey -> bool, d: Drain)
    requires Distinct(ks) && DrainInv(b, ks, accepts, d)
    ensures DrainInv(b, ks, accepts, DrainStep(d, ks, accepts))
  {
    if !Done(d, ks) {
      var d' := DrainStep(d, ks, accepts);
      assert Handled(b, ks, accepts, d, d.handled);
      forall i | 0 <= i < |ks| ensures Handled(b, ks, accepts, d', i) {
        assert Handled(b, ks, accepts, d, i);
        assert i != d.handled ==> ks[i] != ks[d.handled];
      }
      assert ks[..d.handled + 1][..d.handled] == ks[..d.handled];
    }
  }

  lemma {:induction false} DrainInvAfter(b: Box, ks: seq<MessageKey>, accepts: MessageKey -> bool, steps: nat)
    requires Distinct(ks) && (forall k :: k in ks ==> k in b.rows)
    ensures DrainInv(b, ks, accepts, DrainAfter(b, ks, accepts, steps))
  {
    if steps > 0 {
      DrainInvAfter(b, ks, accepts, steps - 1);
      DrainInvStep(b, ks, accepts, DrainAfter(b, ks, accepts, steps - 1));
    }
  }

  /**
   At every point of the drain, so also where the dispatcher may crash: a message of the batch that is marked
   published was sent, and at most one message was sent and is not marked.
   */
  lemma {:induction false} DrainIsAtLeastOnce(b: Box, limit: nat, ks: seq<MessageKey>, accepts: MessageKey -> bool,
                                              steps: nat)
    requires PendingBatch(b, limit, ks)
    ensures var d := DrainAfter(b, ks, accepts, steps);
            && (forall k :: k in ks ==> k in d.box.rows && (d.box.rows[k].status.Published? ==> k in d.sent))
            && (forall j, k :: j in d.sent && k in d.sent && IsPending(d.box, j) && IsPending(d.box, k) ==> j == k)
  {
    DrainInvAfter(b, ks, accepts, steps);
    var d := DrainAfter(b, ks, accepts, steps);
    forall k | k in ks ensures k in d.box.rows && (d.box.rows[k].status.Published? ==> k in d.sent) {
      var i :| 0 <= i < |ks| && ks[i] == k;
      assert Handled(b, ks, accepts, d, i);
    }
    forall k | k in d.sent && IsPending(d.box, k) ensures d.inFlight && k == ks[d.handled] {
      var i :| 0 <= i < |ks| && ks[i] == k;
      assert Handled(b, ks, accepts, d, i);
    }
  }

  /** What a finished drain leaves: the count is the number of accepted messages and none of the batch is pending. */
  ghost predicate Drained(b: Box, ks: seq<MessageKey>, accepts: MessageKey -> bool, b': Box, count: nat) {
    && b'.nextId == b.nextId && b'.rows.Keys == b.rows.Keys
    && (forall k :: k in ks ==> k in b.rows && k in b'.rows && Marked(b.rows[k], b'.rows[k], accepts(k)))
    && (forall k :: k in b.rows && k !in ks ==> b'.rows[k] == b.rows[k])
    && count == Accepted(ks, accepts)
  }

  // ---- the repository object ----

  class OutboxStore {
    var box: Box

    constructor ()
      ensures box == EmptyBox
    {
      box := EmptyBox;
    }

    method Insert(k: MessageKey, destination: string, envelope: string, token: Option<nat>) returns (id: nat)
      modifies this
      ensures BoxInv(old(box)) ==> BoxInv(box)
      ensures box == InsertRow(old(box), k, destination, envelope, token)
      ensures k in box.rows && box.rows[k].id == id
      ensures k in old(box.rows) ==> box.rows == old(box.rows)[k := box.rows[k]] && id == old(box.rows[k].id)
      ensures k in old(box.rows) ==>
                var m, m' := old(box.rows[k]), box.rows[k];
                && m' == m.(fencingToken := m'.fencingToken)
                && (m'.fencingToken == m.fencingToken || m'.fencingToken == token)
                && (token.Some? ==> m'.fencingToken.Some? && m'.fencingToken.value >= token.value)
                && (m.fencingToken.Some? ==> m'.fencingToken.Some? && m'.fencingToken.value >= m.fencingToken.value)
      ensures k !in old(box.rows) ==>
                box.rows == old(box.rows)[k := Message(id, destination, envelope, token, Pending, 0)] && id == old(box.nextId)
      ensures box.nextId == old(box.nextId) + 1
    {
      id := box.nextId;
      if k in box.rows {
        id := box.rows[k].id;
        box := Box(box.rows[k := box.rows[k].(fencingToken := Greatest(box.rows[k].fencingToken, token))], box.nextId + 1);
      } else {
        box := Box(box.rows[k := Message(id, destination, envelope, token, Pending, 0)], box.nextId + 1);
      }
    }

    /** The first `limit` pending rows in id order, found one after the other. */
    method PendingMessages(limit: nat) returns (ks: seq<MessageKey>)
      requires BoxInv(box)
      ensures PendingBatch(box, limit, ks)
    {
      ks := [];
      var waiting := set k | k in box.rows && IsPending(box, k);
      while |ks| < limit && waiting != {}
        invariant |ks| <= limit
        invariant forall k :: IsPending(box, k) <==> k in waiting || k in ks
        invariant forall i :: 0 <= i < |ks| ==> IsPending(box, ks[i])
        invariant forall j, k :: j in ks && k in waiting ==> box.rows[j].id < box.rows[k].id
        invariant forall i, j :: 0 <= i < j < |ks| ==> box.rows[ks[i]].id < box.rows[ks[j]].id
        decreases waiting
      {
        var k := FirstOf(waiting);
        waiting := waiting - {k};
        ks := ks + [k];
      }
    }

    method FirstOf(waiting: set<MessageKey>) returns (first: MessageKey)
      requires waiting != {} && BoxInv(box) && forall k :: k in waiting ==> k in box.rows
      ensures first in waiting && forall k :: k in waiting && k != first ==> box.rows[first].id < box.rows[k].id
    {
      first :| first in waiting;
      var rest := waiting - {first};
      while rest != {}
        invariant first in waiting && rest <= waiting
        invariant forall k :: k in waiting - rest && k != first ==> box.rows[first].id < box.rows[k].id
        decreases rest
      {
        var k :| k in rest;
        rest := rest - {k};
        if box.rows[k].id < box.rows[first].id {
          first := k;
        }
      }
    }

    /** Publish the pending rows; a refused message is marked failed and the loop goes on. */
    method Dispatch(accepts: MessageKey -> bool, limit: nat) returns (ks: seq<MessageKey>, sent: nat)
      requires BoxInv(box)
      modifies this
      ensures PendingBatch(old(box), limit, ks)
      ensures Drained(old(box), ks, accepts, box, sent)
    {
      ghost var start := box;
      ks := PendingMessages(limit);
      ghost var steps;
      sent, steps := Drain(ks, accepts);
      DrainInvAfter(start, ks, accepts, steps);
      DrainEnds(start, ks, accepts, DrainAfter(start, ks, accepts, steps));
    }

    /** The loop over one batch: some number of the drain's actions, after which every message is handled. */
    method Drain(ks: seq<MessageKey>, accepts: MessageKey -> bool) returns (sent: nat, ghost steps: nat)
      modifies this
      ensures var d := DrainAfter(old(box), ks, accepts, steps); d.box == box && d.handled == |ks| && d.count == sent
    {
      ghost var start := box;
      sent, steps := 0, 0;
      ghost var d := DrainAfter(start, ks, accepts, 0);
      for i := 0 to |ks|
        invariant d == DrainAfter(start, ks, accepts, steps)
        invariant d.box == box && d.handled == i && !d.inFlight && d.count == sent
      {
        DrainOne(start, ks, accepts, steps, d, i);
        if accepts(ks[i]) {
          box := MarkPublished(box, ks[i]);
          sent := sent + 1;
          steps := steps + 2;
        } else {
          box := MarkFailed(box, ks[i]);
          steps := steps + 1;
        }
        d := DrainAfter(start, ks, accepts, steps);
      }
    }
  }

  /** One turn of the loop is one or two actions of the drain. */
  lemma DrainOne(b: Box, ks: seq<MessageKey>, accepts: MessageKey -> bool, steps: nat, d: Drain, i: nat)
    requires d == DrainAfter(b, ks, accepts, steps) && d.handled == i < |ks| && !d.inFlight
    ensures accepts(ks[i]) ==>
              DrainAfter(b, ks, accepts, steps + 2) == Drain(MarkPublished(d.box, ks[i]), i + 1, false, d.sent + {ks[i]}, d.count + 1)
    ensures !accepts(ks[i]) ==>
              DrainAfter(b, ks, accepts, steps + 1) == Drain(MarkFailed(d.box, ks[i]), i + 1, false, d.sent, d.count)
  {
    var d1 := DrainAfter(b, ks, accepts, steps + 1);
    assert d1 == DrainStep(d, ks, accepts);
    assert DrainAfter(b, ks, accepts, steps + 2) == DrainStep(d1, ks, accepts);
  }

  lemma DrainEnds(b: Box, ks: seq<MessageKey>, accepts: MessageKey -> bool, d: Drain)
    requires DrainInv(b, ks, accepts, d) && Done(d, ks) && d.box.nextId == b.nextId
    ensures Drained(b, ks, accepts, d.box, d.count)
  {
    assert ks[..|ks|] == ks;
    forall k | k in ks ensures k in b.rows && k in d.box.rows && Marked(b.rows[k], d.box.rows[k], accepts(k)) {
      var i :| 0 <= i < |ks| && ks[i] == k;
      assert Handled(b, ks, accepts, d, i);
    }
  }
}
