/**
 The transport seen by the probe engine: per target, a queue of scripted
 outcomes consumed one per call; once a target's queue is empty every call
 answers 200 with body "{}" after 50 ms.
 */
module Transport {
  import opened Model

  /** The answer of a call when nothing is queued for the target. */
  const DefaultOutcome := Response(HttpResponseData(200, Some("{}"), map[], 50))

  /** The queue of a target, empty when none was ever created. */
  function QueueOf(queues: map<Id, seq<TransportOutcome>>, id: Id): seq<TransportOutcome> {
    if id in queues then queues[id] else []
  }

  /** The outcome of call number `k` (from 0) against queue `q`. */
  function NextOutcome(q: seq<TransportOutcome>, k: nat): TransportOutcome
  {
    if k < |q| then q[k] else DefaultOutcome
  }

  /** A queue after `n` calls: the first `n` outcomes are gone. */
  function Drop(q: seq<TransportOutcome>, n: nat): (r: seq<TransportOutcome>)
    ensures |r| == if n <= |q| then |q| - n else 0
    ensures forall k :: 0 <= k < |r| ==> r[k] == q[n + k]
  {
    if n <= |q| then q[n..] else []
  }

  /** The queues after `n` calls for target `id`; other targets' queues are untouched. */
  function Consume(queues: map<Id, seq<TransportOutcome>>, id: Id, n: nat): (r: map<Id, seq<TransportOutcome>>)
    ensures r.Keys == queues.Keys
    ensures forall j :: j in queues && j != id ==> r[j] == queues[j]
    ensures QueueOf(r, id) == Drop(QueueOf(queues, id), n)
  {
    if id in queues then queues[id := Drop(queues[id], n)] else queues
  }

  /** Call `k` after `n` earlier calls is call `n + k` on the original queue. */
  lemma {:induction false} DropThenNext(q: seq<TransportOutcome>, n: nat, k: nat)
    ensures NextOutcome(Drop(q, n), k) == NextOutcome(q, n + k)
  {
  }

  /** Consuming `n` outcomes and then `m` more is consuming `n + m`. */
  lemma ConsumeTwice(queues: map<Id, seq<TransportOutcome>>, id: Id, n: nat, m: nat)
    ensures Consume(Consume(queues, id, n), id, m) == Consume(queues, id, n + m)
  {
    if id in queues {
      var q := queues[id];
      assert Drop(Drop(q, n), m) == Drop(q, n + m);
    }
  }

  /** A scripted transport (`FakeTransport`). */
  class FakeTransport {
    var queues: map<Id, seq<TransportOutcome>>

    constructor ()
      ensures queues == map[]
    {
      queues := map[];
    }

    method Enqueue(id: Id, o: TransportOutcome)
      modifies this
      ensures queues == old(queues)[id := QueueOf(old(queues), id) + [o]]
    {
      queues := queues[id := QueueOf(queues, id) + [o]];
    }

    /** One HTTP exchange for `t`: the head of its queue, or the default answer. */
    method Execute(t: Target) returns (o: TransportOutcome)
      modifies this
      ensures o == NextOutcome(QueueOf(old(queues), t.id), 0)
      ensures queues == Consume(old(queues), t.id, 1)
    {
      if t.id !in queues || queues[t.id] == [] {
        o := DefaultOutcome;
      } else {
        o := queues[t.id][0];
        queues := queues[t.id := queues[t.id][1..]];
      }
    }
  }
}
