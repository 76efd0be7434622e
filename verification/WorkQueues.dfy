/**
 The work queue the controllers share (client-go semantics). A key added while a worker
 processes it is remembered as dirty and queued again when that worker is done with it.
 */
module WorkQueues {
  datatype Queue<K(==,!new)> = Queue(order: seq<K>, dirty: set<K>, processing: set<K>) {
    /** What waits in line is what is dirty and not with a worker, each key once. */
    ghost predicate Valid() {
      && (forall k :: k in order <==> k in dirty && k !in processing)
      && (forall i, j :: 0 <= i < j < |order| ==> order[i] != order[j])
    }

    function Add(k: K): Queue<K> {
      if k in dirty then this
      else if k in processing then this.(dirty := dirty + {k})
      else this.(dirty := dirty + {k}, order := order + [k])
    }

    /** The worker that calls Get is handed order[0]. */
    function Get(): Queue<K>
      requires order != []
    {
      Queue(order[1..], dirty - {order[0]}, processing + {order[0]})
    }

    function Done(k: K): Queue<K> {
      if k in dirty then this.(processing := processing - {k}, order := order + [k])
      else this.(processing := processing - {k})
    }
  }

  /** q' is q after the keys in added, and no others, were handed to Add in some order. */
  ghost predicate Enqueued<K(!new)>(q: Queue<K>, added: set<K>, q': Queue<K>) {
    && q'.Valid()
    && q'.dirty == q.dirty + added
    && q'.processing == q.processing
  }

  lemma AddIsEnqueued<K(!new)>(q: Queue<K>, k: K)
    requires q.Valid()
    ensures Enqueued(q, {k}, q.Add(k))
  {
    var q' := q.Add(k);
    if k !in q.dirty && k !in q.processing {
      assert q'.order == q.order + [k];
    }
  }

  /** Get hands out a key no other worker holds, and leaves every other key where it was. */
  lemma GetIsExclusive<K(!new)>(q: Queue<K>)
    requires q.Valid() && q.order != []
    ensures q.order[0] in q.dirty && q.order[0] !in q.processing
    ensures q.Get().Valid()
    ensures q.Get().dirty == q.dirty - {q.order[0]}
    ensures q.Get().processing == q.processing + {q.order[0]}
  {
    var k := q.order[0];
    assert q.order == [k] + q.order[1..];
    forall x ensures x in q.order[1..] <==> x in q.dirty - {k} && x !in q.processing + {k} {
      if x in q.order[1..] {
        var i :| 0 <= i < |q.order[1..]| && q.order[1..][i] == x;
        assert q.order[i + 1] == x;
      }
    }
  }

  /** No trigger is lost: a key added while it is processed waits in line again after Done. */
  lemma AddWhileProcessingIsNotLost<K(!new)>(q: Queue<K>, k: K)
    requires q.Valid() && k in q.processing
    ensures q.Add(k).Done(k).Valid()
    ensures k in q.Add(k).Done(k).order && k !in q.Add(k).Done(k).processing
    ensures q.Done(k).Valid() && q.Done(k).dirty == q.dirty
    ensures k in q.Done(k).order <==> k in q.dirty
  {
    AddIsEnqueued(q, k);
    DoneIsValid(q.Add(k), k);
    DoneIsValid(q, k);
  }

  lemma DoneIsValid<K(!new)>(q: Queue<K>, k: K)
    requires q.Valid() && k in q.processing
    ensures q.Done(k).Valid()
    ensures k in q.Done(k).order <==> k in q.dirty
  {
    var q' := q.Done(k);
    if k in q.dirty {
      assert q'.order == q.order + [k];
    }
  }
}
