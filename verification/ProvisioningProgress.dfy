/**
 Left alone, the provisioning controller comes to rest: no run of deliveries and syncs goes on forever
 unless somebody keeps changing objects or the API server keeps failing reads.
 */
module ProvisioningProgress {
  import opened Common
  import opened Kinds
  import opened Provisioning
  import opened ProvisioningRuns

  /** The controller's own events, without a failing live read (which is retried). */
  predicate Internal(e: Event) {
    e.DeliverTenant? || e.Take? || e.Begin? || e.Requeue? || e.ReadCategory? || e.ReadList? || e.Finish? || e.FailSync?
  }

  ghost function Undelivered(s: State): set<(TenantId, int)> {
    set id, i | id in s.versions && 0 <= i < |s.versions[id]| - 1 :: (id, i)
  }

  ghost function Unread(s: State): set<(Key, Kind)> {
    set k, kind | k in s.inFlight && kind in ActiveKinds(s.azureEnabled) && kind !in s.inFlight[k].lists :: (k, kind)
  }

  ghost function Unresolved(s: State): set<Key> {
    set k | k in s.inFlight && s.inFlight[k].category.None?
  }

  ghost function SyncWork(s: State): nat {
    |Unread(s)| + |Unresolved(s)| + |s.inFlight.Keys|
  }

  lemma DeliveryShrinks(s: State, id: TenantId)
    requires Enabled(s, DeliverTenant(id))
    ensures |Undelivered(Next(s, DeliverTenant(id)))| < |Undelivered(s)|
  {
    var s' := Next(s, DeliverTenant(id));
    Shrinks(Undelivered(s'), Undelivered(s), (id, |s.versions[id]| - 2));
  }

  lemma ReadShrinks(s: State, e: Event)
    requires (e.ReadCategory? || e.ReadList?) && Enabled(s, e)
    ensures SyncWork(Next(s, e)) < SyncWork(s)
  {
    var s' := Next(s, e);
    assert s'.inFlight.Keys == s.inFlight.Keys;
    if e.ReadCategory? {
      assert Unread(s') == Unread(s);
      Shrinks(Unresolved(s'), Unresolved(s), e.key);
    } else {
      assert Unresolved(s') == Unresolved(s);
      Shrinks(Unread(s'), Unread(s), (e.key, e.kind));
    }
  }

  lemma EndShrinks(s: State, e: Event)
    requires (e.Finish? || e.FailSync?) && Enabled(s, e)
    ensures SyncWork(Next(s, e)) < SyncWork(s)
  {
    var s' := Next(s, e);
    SubsetCount(Unread(s'), Unread(s));
    SubsetCount(Unresolved(s'), Unresolved(s));
    Shrinks(s'.inFlight.Keys, s.inFlight.Keys, e.key);
  }

  /** Deliveries come first, then retries, then queued keys, then the syncs under way. */
  lemma InternalStepShrinks(s: State, e: Event)
    requires Internal(e) && Enabled(s, e)
    ensures var s' := Next(s, e);
      || |Undelivered(s')| < |Undelivered(s)|
      || (&& |Undelivered(s')| == |Undelivered(s)|
          && (|| |s'.delayed| < |s.delayed|
              || (&& |s'.delayed| == |s.delayed|
                  && (|| |s'.dirty| < |s.dirty|
                      || (&& |s'.dirty| == |s.dirty|
                          && (|| |s'.taken| < |s.taken|
                              || (|s'.taken| == |s.taken| && SyncWork(s') < SyncWork(s))))))))
  {
    var s' := Next(s, e);
    if e.DeliverTenant? {
      DeliveryShrinks(s, e.id);
    } else {
      assert Undelivered(s') == Undelivered(s);
      if e.Take? {
        Shrinks(s'.dirty, s.dirty, e.key);
      } else if e.Begin? {
        Shrinks(s'.taken, s.taken, e.key);
      } else if e.Requeue? {
        Shrinks(s'.delayed, s.delayed, e.key);
      } else if e.ReadCategory? || e.ReadList? {
        ReadShrinks(s, e);
      } else {
        EndShrinks(s, e);
      }
    }
  }

  ghost predicate IsInfiniteRun(run: nat -> State, events: nat -> Event) {
    forall i: nat :: Enabled(run(i), events(i)) && run(i + 1) == Next(run(i), events(i))
  }

  /**
   In every infinite run, from every point on, something from outside still happens: an object
   changes or a live read fails.
   */
  lemma {:induction false} ComesToRest(run: nat -> State, events: nat -> Event, from: nat) returns (outside: nat)
    requires IsInfiniteRun(run, events)
    ensures outside >= from && !Internal(events(outside))
    decreases |Undelivered(run(from))|, |run(from).delayed|, |run(from).dirty|, |run(from).taken|, SyncWork(run(from))
  {
    if Internal(events(from)) {
      InternalStepShrinks(run(from), events(from));
      outside := ComesToRest(run, events, from + 1);
    } else {
      outside := from;
    }
  }

  /** A state in which the controller has nothing left to do is idle for every key. */
  lemma AtRestIsIdle(s: State, k: Key)
    requires forall e :: Internal(e) ==> !Enabled(s, e)
    ensures Idle(s, k)
  {
    assert !Enabled(s, FailSync(k, None)) && !Enabled(s, Finish(k));
    assert !Enabled(s, Take(k)) && !Enabled(s, Begin(k));
    assert !Enabled(s, Requeue(k));
    if k.TenantKey? {
      assert !Enabled(s, DeliverTenant(k.tenant));
    }
  }
}
