/**
 The controller's own writes come back to it as events. Once the inputs stop changing, that feedback
 dies out: each output is written at most once more, and the controller comes to rest with every
 output up to date.
 */
module ConfigurationFeedback {
  import opened Common
  import opened ConfigurationDomains
  import opened ConfigurationAggregate
  import opened ConfigurationRuns
  import opened ConfigurationLabels

  /** What the controller does by itself when nothing goes wrong. */
  predicate Internal(e: Event) {
    e.Deliver? || e.Take? || e.Begin? || e.ReadGroup? || e.Finish? || e.Requeue?
  }

  /** All it does by itself: a sync may also fail, before its write, because of it or after it, and is queued again. */
  predicate Own(e: Event) {
    Internal(e) || e.Fail?
  }

  /** A sync of the current inputs would write the output. */
  ghost predicate Stale(s: State, cl: Cluster, k: ObjectId) {
    && k in s.domains
    && var live := s.Live(OutputId(k));
    if !cl.Aggregates(k, s.domains[k]) then live.Some?
    else
      && cl.Selectable(k)
      && (live.None? || (Controls(s.domains[k], live.value) && !IsAggregate(live.value.data, InputGroups(s, cl, k))))
  }

  /** A sync under way that has read something outdated. */
  ghost predicate Outdated(s: State, cl: Cluster, k: ObjectId) {
    k in s.inFlight && s.inFlight[k].spec.Some? && !Fresh(s, cl, k, s.inFlight[k])
  }

  /** The inputs have stopped changing: only changes of outputs are still to be delivered. */
  ghost predicate Settled(s: State, cl: Cluster) {
    Tidy(s, cl) && forall id :: |s.VersionsOf(id)| > 1 ==> IsOutputId(cl, id)
  }

  /** The domain's inputs do not disagree where it matters. */
  ghost predicate Agreed(s: State, cl: Cluster, k: ObjectId) {
    k in s.domains && s.domains[k].aggregateConfigMaps ==> ConflictFree(InputGroups(s, cl, k))
  }

  /** How often the output of the domain may still be written. */
  ghost function Allowance(s: State, cl: Cluster, k: ObjectId): nat {
    if Outdated(s, cl, k) then 2 else if Stale(s, cl, k) then 1 else 0
  }

  predicate Writes(e: Event, k: ObjectId) {
    (e.Finish? || e.Fail?) && e.key == k && !e.outcome.Unchanged?
  }

  // ---------- Steps ----------

  lemma OutputDeliveryKeepsInputs(s: State, cl: Cluster, id: ObjectId, k: ObjectId)
    requires Settled(s, cl) && Enabled(s, cl, Deliver(id)) && k in cl.platformOf
    ensures SameInputs(s, Next(s, cl, Deliver(id)), cl, k)
  {
    var v := s.VersionsOf(id);
    assert OrderlyVersions(cl, id, v);
    OutputAltersNothing(cl, k, id, v[0], v[1]);
    UnalteredInputs(s, cl, id, k);
  }

  lemma OwnStepKeepsDomains(s: State, cl: Cluster, e: Event)
    requires Own(e) && Enabled(s, cl, e)
    ensures Next(s, cl, e).domains == s.domains
  {
  }

  lemma EndKeepsInputs(s: State, cl: Cluster, e: Event, k: ObjectId)
    requires (e.Finish? || e.Fail?) && Enabled(s, cl, e)
    ensures SameInputs(s, Next(s, cl, e), cl, k)
  {
    var s', s0 := Next(s, cl, e), Conclude(s, cl, e.key, e.outcome);
    ConcludedInputs(s, cl, e.key, e.outcome, k);
    SameVersionsSameInputs(s0, s', cl, k);
  }

  lemma OwnStepKeepsInputs(s: State, cl: Cluster, e: Event, k: ObjectId)
    requires Settled(s, cl) && Own(e) && Enabled(s, cl, e) && k in cl.platformOf
    ensures SameInputs(s, Next(s, cl, e), cl, k) && Next(s, cl, e).domains == s.domains
  {
    OwnStepKeepsDomains(s, cl, e);
    if e.Deliver? {
      OutputDeliveryKeepsInputs(s, cl, e.id, k);
    } else if e.Finish? || e.Fail? {
      EndKeepsInputs(s, cl, e, k);
    } else {
      QueueStepsOnlyQueue(s, cl, e);
      SameVersionsSameInputs(s, Next(s, cl, e), cl, k);
    }
  }

  lemma OwnStepKeepsAgreed(s: State, cl: Cluster, e: Event, k: ObjectId)
    requires Settled(s, cl) && Own(e) && Enabled(s, cl, e) && Agreed(s, cl, k)
    ensures Agreed(Next(s, cl, e), cl, k)
  {
    OwnStepKeepsDomains(s, cl, e);
    if k in s.domains {
      OwnStepKeepsInputs(s, cl, e, k);
      SameInputsKeepFresh(s, Next(s, cl, e), cl, k, Flight(None, []));
    }
  }

  /** Only outputs get new versions. */
  lemma OwnStepAddsOutputs(s: State, cl: Cluster, e: Event, id: ObjectId)
    requires Settled(s, cl) && Own(e) && Enabled(s, cl, e) && |Next(s, cl, e).VersionsOf(id)| > 1
    ensures IsOutputId(cl, id)
  {
    if e.Finish? || e.Fail? {
      if |s.VersionsOf(id)| == 1 {
        EndAddsItsOutput(s, cl, e, id);
        assert e.key in cl.platformOf;
      }
    } else if e.Deliver? {
      DeliveredVersions(s, cl, e.id, id);
    } else {
      QueueStepsOnlyQueue(s, cl, e);
    }
  }

  lemma EndAddsItsOutput(s: State, cl: Cluster, e: Event, id: ObjectId)
    requires (e.Finish? || e.Fail?) && Enabled(s, cl, e) && |Next(s, cl, e).VersionsOf(id)| > |s.VersionsOf(id)|
    ensures id == OutputId(e.key) && s.inFlight[e.key].spec.Some?
  {
  }

  lemma OwnStepKeepsSettled(s: State, cl: Cluster, e: Event)
    requires Settled(s, cl) && Own(e) && Enabled(s, cl, e)
    ensures Settled(Next(s, cl, e), cl)
    ensures forall k :: Agreed(s, cl, k) ==> Agreed(Next(s, cl, e), cl, k)
  {
    StepKeepsTidy(s, cl, e);
    forall k | Agreed(s, cl, k) ensures Agreed(Next(s, cl, e), cl, k) {
      OwnStepKeepsAgreed(s, cl, e, k);
    }
    forall id | |Next(s, cl, e).VersionsOf(id)| > 1 ensures IsOutputId(cl, id) {
      OwnStepAddsOutputs(s, cl, e, id);
    }
  }

  /** An end that is not a write leaves every output alone. */
  lemma OutputsOfOthersStay(s: State, cl: Cluster, e: Event, k: ObjectId)
    requires Own(e) && Enabled(s, cl, e) && !Writes(e, k)
    ensures Next(s, cl, e).Live(OutputId(k)) == s.Live(OutputId(k))
  {
    if e.Finish? || e.Fail? {
      OutputIdsAreDistinct(e.key, k);
    }
  }

  /** A write by a sync whose reads all hold finds the output stale and leaves it up to date, whatever comes after the write. */
  lemma FreshWriteRepairs(s: State, cl: Cluster, e: Event, k: ObjectId)
    requires Settled(s, cl) && Agreed(s, cl, k) && Enabled(s, cl, e) && Writes(e, k) && !Outdated(s, cl, k)
    ensures Stale(s, cl, k) && !Stale(Next(s, cl, e), cl, k)
  {
    ConclusionRepairs(s, cl, k, e.outcome);
    SameObjectsSameStaleness(Conclude(s, cl, k, e.outcome), Next(s, cl, e), cl, k);
  }

  lemma SameObjectsSameStaleness(s: State, s': State, cl: Cluster, k: ObjectId)
    requires s'.domains == s.domains && s'.versions == s.versions
    ensures Stale(s', cl, k) <==> Stale(s, cl, k)
  {
    SameVersionsSameInputs(s, s', cl, k);
    SameInputsKeepFresh(s, s', cl, k, Flight(None, []));
  }

  lemma ConclusionRepairs(s: State, cl: Cluster, k: ObjectId, outcome: Outcome)
    requires Settled(s, cl) && Agreed(s, cl, k) && Concludes(s, cl, k, outcome) && !outcome.Unchanged? && !Outdated(s, cl, k)
    ensures Stale(s, cl, k) && !Stale(Conclude(s, cl, k, outcome), cl, k)
  {
    var s', f, id := Conclude(s, cl, k, outcome), s.inFlight[k], OutputId(k);
    ConcludedInputs(s, cl, k, outcome, k);
    SameInputsKeepFresh(s, s', cl, k, f);
    assert k in s.domains && f.spec == Some(s.domains[k]) && s'.domains == s.domains;
    if !outcome.Deleted? {
      assert f.groups == InputGroups(s, cl, k);
      if outcome.Updated? && IsAggregate(s.Live(id).value.data, f.groups) {
        AggregateIsUnique(s.Live(id).value.data, outcome.data, f.groups);
      }
    }
  }

  lemma NothingBecomesOutdated(s: State, cl: Cluster, e: Event, k: ObjectId)
    requires Settled(s, cl) && Own(e) && Enabled(s, cl, e) && Outdated(Next(s, cl, e), cl, k)
    ensures Outdated(s, cl, k)
  {
    StepKeepsTidy(s, cl, e);
    OwnStepKeepsInputs(s, cl, e, k);
    if e.Finish? || e.Fail? || e.Deliver? {
      EndsAndDeliveriesKeepFlights(s, cl, e, k);
      SameInputsKeepFresh(s, Next(s, cl, e), cl, k, s.inFlight[k]);
    } else {
      QueueStepsOutdateNothing(s, cl, e, k);
    }
  }

  lemma EndsAndDeliveriesKeepFlights(s: State, cl: Cluster, e: Event, k: ObjectId)
    requires (e.Finish? || e.Fail? || e.Deliver?) && Enabled(s, cl, e) && k in Next(s, cl, e).inFlight
    ensures k in s.inFlight && Next(s, cl, e).inFlight[k] == s.inFlight[k]
  {
  }

  lemma QueueStepsOutdateNothing(s: State, cl: Cluster, e: Event, k: ObjectId)
    requires IsQueueStep(e) && Enabled(s, cl, e) && Outdated(Next(s, cl, e), cl, k) && SameInputs(s, Next(s, cl, e), cl, k)
    ensures Outdated(s, cl, k)
  {
    SameInputsKeepFresh(s, Next(s, cl, e), cl, k, Next(s, cl, e).inFlight[k]);
    if k != e.key {
      QueueStepsOfOthers(s, cl, e, k);
    }
  }

  /** Every write is paid for, and nothing else buys another: neither a delivery nor a failure. */
  lemma StepSpendsAllowance(s: State, cl: Cluster, e: Event, k: ObjectId)
    requires Settled(s, cl) && Agreed(s, cl, k) && Own(e) && Enabled(s, cl, e)
    ensures Allowance(Next(s, cl, e), cl, k) + (if Writes(e, k) then 1 else 0) <= Allowance(s, cl, k)
  {
    if Outdated(Next(s, cl, e), cl, k) {
      NothingBecomesOutdated(s, cl, e, k);
    }
    if !Writes(e, k) {
      NothingBecomesStale(s, cl, e, k);
    } else if !Outdated(s, cl, k) {
      FreshWriteRepairs(s, cl, e, k);
    } else {
      WriteEndsTheSync(s, cl, e, k);
    }
  }

  lemma WriteEndsTheSync(s: State, cl: Cluster, e: Event, k: ObjectId)
    requires Enabled(s, cl, e) && Writes(e, k)
    ensures !Outdated(Next(s, cl, e), cl, k)
  {
  }

  lemma NothingBecomesStale(s: State, cl: Cluster, e: Event, k: ObjectId)
    requires Settled(s, cl) && Own(e) && Enabled(s, cl, e) && !Writes(e, k)
    ensures Stale(Next(s, cl, e), cl, k) ==> Stale(s, cl, k)
  {
    var s' := Next(s, cl, e);
    OutputsOfOthersStay(s, cl, e, k);
    if k in s'.domains {
      OwnStepKeepsDomains(s, cl, e);
      OwnStepKeepsInputs(s, cl, e, k);
      SameInputsKeepFresh(s, s', cl, k, Flight(None, []));
    }
  }

  // ---------- Runs ----------

  ghost predicate OwnStepAt(states: seq<State>, cl: Cluster, events: seq<Event>, i: nat)
    requires i < |events| && |states| == |events| + 1
  {
    Own(events[i]) && Enabled(states[i], cl, events[i]) && states[i + 1] == Next(states[i], cl, events[i])
  }

  /** Only the controller acts. Writes may be refused, and syncs may fail. */
  ghost predicate IsOwnRun(states: seq<State>, cl: Cluster, events: seq<Event>) {
    |states| == |events| + 1 && forall i :: 0 <= i < |events| ==> OwnStepAt(states, cl, events, i)
  }

  lemma FrontIsOwnRun(states: seq<State>, cl: Cluster, events: seq<Event>, n: nat)
    requires IsOwnRun(states, cl, events) && n <= |events|
    ensures IsOwnRun(states[..n + 1], cl, events[..n])
  {
    var front, some := states[..n + 1], events[..n];
    forall i | 0 <= i < n ensures OwnStepAt(front, cl, some, i) {
      assert OwnStepAt(states, cl, events, i);
    }
  }

  function WritesOf(events: seq<Event>, k: ObjectId): nat {
    if events == [] then 0
    else WritesOf(events[..|events| - 1], k) + if Writes(events[|events| - 1], k) then 1 else 0
  }

  /** Once only the controller acts, the output of a domain is written at most as often as its allowance says. */
  lemma {:induction false} WritesAreBounded(states: seq<State>, cl: Cluster, events: seq<Event>, k: ObjectId)
    requires IsOwnRun(states, cl, events) && Settled(states[0], cl) && Agreed(states[0], cl, k)
    ensures Settled(states[|events|], cl) && Agreed(states[|events|], cl, k)
    ensures WritesOf(events, k) + Allowance(states[|events|], cl, k) <= Allowance(states[0], cl, k)
  {
    if events != [] {
      var n := |events| - 1;
      FrontIsOwnRun(states, cl, events, n);
      assert OwnStepAt(states, cl, events, n);
      WritesAreBounded(states[..n + 1], cl, events[..n], k);
      OwnStepKeepsSettled(states[n], cl, events[n]);
      StepSpendsAllowance(states[n], cl, events[n], k);
    }
  }

  /** From a state without syncs under way: at most once, and never if the output is right already. */
  lemma EachOutputIsWrittenAtMostOnce(states: seq<State>, cl: Cluster, events: seq<Event>, k: ObjectId)
    requires IsOwnRun(states, cl, events) && Settled(states[0], cl) && Agreed(states[0], cl, k) && k !in states[0].inFlight
    ensures WritesOf(events, k) <= 1
    ensures !Stale(states[0], cl, k) ==> WritesOf(events, k) == 0
  {
    WritesAreBounded(states, cl, events, k);
  }

  // ---------- Termination ----------

  ghost function AtLeast(s: State, cl: Cluster, n: nat): set<ObjectId> {
    set k | k in s.domains.Keys + s.inFlight.Keys && Allowance(s, cl, k) >= n
  }

  /** The allowances of all domains together. */
  ghost function Writable(s: State, cl: Cluster): nat {
    |AtLeast(s, cl, 1)| + |AtLeast(s, cl, 2)|
  }

  ghost function Undelivered(s: State): set<(ObjectId, int)> {
    set id, i | id in s.versions && 0 <= i < |s.versions[id]| - 1 :: (id, i)
  }

  ghost function Unread(s: State): set<(ObjectId, int)> {
    set k, g | k in s.inFlight && |s.inFlight[k].groups| <= g < GROUPS :: (k, g)
  }

  ghost function SyncWork(s: State): nat {
    |Unread(s)| + |s.inFlight.Keys|
  }

  ghost predicate AllAgreed(s: State, cl: Cluster) {
    forall k :: Agreed(s, cl, k)
  }

  lemma AllowancesShrink(s: State, cl: Cluster, e: Event, n: nat)
    requires Settled(s, cl) && AllAgreed(s, cl) && Own(e) && Enabled(s, cl, e) && n > 0
    ensures AtLeast(Next(s, cl, e), cl, n) <= AtLeast(s, cl, n)
  {
    forall k | k in AtLeast(Next(s, cl, e), cl, n) ensures k in AtLeast(s, cl, n) {
      StepSpendsAllowance(s, cl, e, k);
    }
  }

  lemma WriteShrinks(s: State, cl: Cluster, e: Event, k: ObjectId)
    requires Settled(s, cl) && AllAgreed(s, cl) && Own(e) && Enabled(s, cl, e) && Writes(e, k)
    ensures var n := Allowance(s, cl, k); (n == 1 || n == 2) && |AtLeast(Next(s, cl, e), cl, n)| < |AtLeast(s, cl, n)|
  {
    var n := Allowance(s, cl, k);
    StepSpendsAllowance(s, cl, e, k);
    AllowancesShrink(s, cl, e, n);
    Shrinks(AtLeast(Next(s, cl, e), cl, n), AtLeast(s, cl, n), k);
  }

  lemma WritableShrinks(s: State, cl: Cluster, e: Event)
    requires Settled(s, cl) && AllAgreed(s, cl) && Own(e) && Enabled(s, cl, e)
    ensures Writable(Next(s, cl, e), cl) <= Writable(s, cl)
    ensures (exists k :: Writes(e, k)) ==> Writable(Next(s, cl, e), cl) < Writable(s, cl)
  {
    var s' := Next(s, cl, e);
    forall n | n == 1 || n == 2 ensures |AtLeast(s', cl, n)| <= |AtLeast(s, cl, n)| {
      AllowancesShrink(s, cl, e, n);
      SubsetCount(AtLeast(s', cl, n), AtLeast(s, cl, n));
    }
    if k :| Writes(e, k) {
      WriteShrinks(s, cl, e, k);
    }
  }

  lemma DeliveryShrinks(s: State, cl: Cluster, id: ObjectId)
    requires Enabled(s, cl, Deliver(id))
    ensures |Undelivered(Next(s, cl, Deliver(id)))| < |Undelivered(s)|
  {
    var s' := Next(s, cl, Deliver(id));
    Shrinks(Undelivered(s'), Undelivered(s), (id, |s.versions[id]| - 2));
  }

  lemma SyncShrinks(s: State, cl: Cluster, e: Event)
    requires Enabled(s, cl, e) && (e.ReadGroup? || (e.Finish? && e.outcome.Unchanged?))
    ensures SyncWork(Next(s, cl, e)) < SyncWork(s)
  {
    var s' := Next(s, cl, e);
    if e.ReadGroup? {
      assert s'.inFlight.Keys == s.inFlight.Keys;
      Shrinks(Unread(s'), Unread(s), (e.key, |s.inFlight[e.key].groups|));
    } else {
      SubsetCount(Unread(s'), Unread(s));
      Shrinks(s'.inFlight.Keys, s.inFlight.Keys, e.key);
    }
  }

  /** What is left to do without another write or delivery. */
  ghost predicate CloserToRest(s': State, s: State) {
    || |s'.delayed| < |s.delayed|
    || (&& |s'.delayed| == |s.delayed|
        && (|| |s'.dirty| < |s.dirty|
            || (&& |s'.dirty| == |s.dirty|
                && (|| |s'.taken| < |s.taken|
                    || (|s'.taken| == |s.taken| && SyncWork(s') < SyncWork(s))))))
  }

  ghost predicate Silent(e: Event) {
    !e.Deliver? && forall k :: !Writes(e, k)
  }

  /** Writes come first, then deliveries, retries, queued domains and the syncs under way. A failure without a write may add a retry. */
  lemma OwnStepShrinks(s: State, cl: Cluster, e: Event)
    requires Settled(s, cl) && AllAgreed(s, cl) && Own(e) && Enabled(s, cl, e)
    ensures var s' := Next(s, cl, e);
      || Writable(s', cl) < Writable(s, cl)
      || (&& Writable(s', cl) == Writable(s, cl)
          && (|| |Undelivered(s')| < |Undelivered(s)|
              || (|Undelivered(s')| == |Undelivered(s)| && Silent(e) && (CloserToRest(s', s) || e.Fail?))))
  {
    var s' := Next(s, cl, e);
    WritableShrinks(s, cl, e);
    if e.Deliver? {
      DeliveryShrinks(s, cl, e.id);
    } else if Silent(e) {
      SilentStepKeepsVersions(s, cl, e);
      if !e.Fail? {
        SilentStepShrinks(s, cl, e);
      }
    }
  }

  lemma SilentStepShrinks(s: State, cl: Cluster, e: Event)
    requires Internal(e) && Silent(e) && Enabled(s, cl, e)
    ensures CloserToRest(Next(s, cl, e), s)
  {
    var s' := Next(s, cl, e);
    if e.Take? {
      Shrinks(s'.dirty, s.dirty, e.key);
    } else if e.Begin? {
      Shrinks(s'.taken, s.taken, e.key);
    } else if e.Requeue? {
      Shrinks(s'.delayed, s.delayed, e.key);
    } else {
      assert e.Finish? ==> !Writes(e, e.key);
      SyncShrinks(s, cl, e);
    }
  }

  // ---------- Infinite runs ----------

  ghost predicate StepAt(run: nat -> State, cl: Cluster, events: nat -> Event, i: nat) {
    Enabled(run(i), cl, events(i)) && run(i + 1) == Next(run(i), cl, events(i))
  }

  ghost predicate IsInfiniteRun(run: nat -> State, cl: Cluster, events: nat -> Event) {
    forall i: nat :: StepAt(run, cl, events, i)
  }

  /** The API server's own trouble: a sync fails though nothing it has to write is refused, or fails after its write. */
  ghost predicate Transient(s: State, cl: Cluster, e: Event) {
    e.Fail? && (!e.outcome.Unchanged? || !Refused(s, cl, e.key))
  }

  ghost predicate Outside(s: State, cl: Cluster, e: Event) {
    !Own(e) || Transient(s, cl, e)
  }

  /** From n on, a version of the object is left undelivered for ever. */
  ghost predicate Withheld(run: nat -> State, n: nat, id: ObjectId) {
    forall m: nat :: m >= n ==> |run(m).VersionsOf(id)| > 1 && run(m).VersionsOf(id) == run(n).VersionsOf(id)
  }

  /** From here on only the controller acts. */
  ghost predicate GoesOnAlone(run: nat -> State, cl: Cluster, events: nat -> Event, from: nat) {
    forall i: nat :: i >= from ==> OwnStepIn(run, cl, events, i)
  }

  ghost predicate OwnStepIn(run: nat -> State, cl: Cluster, events: nat -> Event, i: nat) {
    StepAt(run, cl, events, i) && Own(events(i))
  }

  /** Without outside events, writes and deliveries stop some day. */
  lemma {:induction false} BecomesSilent(run: nat -> State, cl: Cluster, events: nat -> Event, from: nat) returns (silent: nat)
    requires GoesOnAlone(run, cl, events, from) && Settled(run(from), cl) && AllAgreed(run(from), cl)
    ensures silent >= from && forall i: nat :: i >= silent ==> Silent(events(i))
    decreases Writable(run(from), cl), |Undelivered(run(from))|
  {
    if loud: nat :| loud >= from && !Silent(events(loud)) {
      LoudStep(run, cl, events, from, loud);
      silent := BecomesSilent(run, cl, events, loud + 1);
    } else {
      silent := from;
    }
  }

  /** A write or a delivery, however late, leaves less to write or to deliver. */
  lemma LoudStep(run: nat -> State, cl: Cluster, events: nat -> Event, from: nat, loud: nat)
    requires GoesOnAlone(run, cl, events, from) && Settled(run(from), cl) && AllAgreed(run(from), cl)
    requires from <= loud && !Silent(events(loud))
    ensures Settled(run(loud + 1), cl) && AllAgreed(run(loud + 1), cl)
    ensures var s, s' := run(from), run(loud + 1);
      Writable(s', cl) < Writable(s, cl) || (Writable(s', cl) == Writable(s, cl) && |Undelivered(s')| < |Undelivered(s)|)
  {
    assert OwnStepIn(run, cl, events, loud);
    OwnStepsKeep(run, cl, events, from, loud);
    OwnStepKeepsSettled(run(loud), cl, events(loud));
    OwnStepShrinks(run(loud), cl, events(loud));
  }

  /** No more is left to write, or else to deliver. */
  ghost predicate NoMoreLeft(s': State, s: State, cl: Cluster) {
    Writable(s', cl) <= Writable(s, cl) && (Writable(s', cl) == Writable(s, cl) ==> |Undelivered(s')| <= |Undelivered(s)|)
  }

  /** If calm holds at i it holds next, and what first counts does not grow, nor what then counts while it stays. */
  ghost predicate Descends(run: nat -> State, i: nat, calm: State -> bool, first: State -> nat, then_: State -> nat) {
    calm(run(i)) ==>
      && calm(run(i + 1)) && first(run(i + 1)) <= first(run(i))
      && (first(run(i + 1)) == first(run(i)) ==> then_(run(i + 1)) <= then_(run(i)))
  }

  lemma {:induction false} DescendsOn(run: nat -> State, from: nat, until: nat, calm: State -> bool, first: State -> nat, then_: State -> nat)
    requires from <= until && calm(run(from)) && forall i: nat :: i >= from ==> Descends(run, i, calm, first, then_)
    ensures calm(run(until)) && first(run(until)) <= first(run(from))
    ensures first(run(until)) == first(run(from)) ==> then_(run(until)) <= then_(run(from))
    decreases until
  {
    if until > from {
      DescendsOn(run, from, until - 1, calm, first, then_);
      assert Descends(run, until - 1, calm, first, then_);
    }
  }

  lemma OwnStepsKeep(run: nat -> State, cl: Cluster, events: nat -> Event, from: nat, until: nat)
    requires GoesOnAlone(run, cl, events, from) && Settled(run(from), cl) && AllAgreed(run(from), cl) && from <= until
    ensures Settled(run(until), cl) && AllAgreed(run(until), cl) && NoMoreLeft(run(until), run(from), cl)
  {
    ghost var calm := s => Settled(s, cl) && AllAgreed(s, cl);
    ghost var left, undelivered := s => Writable(s, cl), s => |Undelivered(s)|;
    forall i: nat | i >= from ensures Descends(run, i, calm, left, undelivered) {
      if calm(run(i)) {
        OwnStepKeeps(run, cl, events, from, i);
      }
    }
    DescendsOn(run, from, until, calm, left, undelivered);
  }

  lemma OwnStepKeeps(run: nat -> State, cl: Cluster, events: nat -> Event, from: nat, i: nat)
    requires GoesOnAlone(run, cl, events, from) && i >= from && Settled(run(i), cl) && AllAgreed(run(i), cl)
    ensures Settled(run(i + 1), cl) && AllAgreed(run(i + 1), cl) && NoMoreLeft(run(i + 1), run(i), cl)
  {
    assert OwnStepIn(run, cl, events, i);
    OwnStepKeepsSettled(run(i), cl, events(i));
    OwnStepShrinks(run(i), cl, events(i));
  }

  lemma SilentStepAt(run: nat -> State, cl: Cluster, events: nat -> Event, i: nat)
    requires IsInfiniteRun(run, cl, events) && Internal(events(i)) && Silent(events(i))
    ensures CloserToRest(run(i + 1), run(i))
  {
    assert StepAt(run, cl, events, i);
    SilentStepShrinks(run(i), cl, events(i));
  }

  /** Silent steps go on for ever only through failures. */
  lemma {:induction false} SilenceFails(run: nat -> State, cl: Cluster, events: nat -> Event, from: nat) returns (fail: nat)
    requires IsInfiniteRun(run, cl, events)
    requires forall i: nat :: i >= from ==> Own(events(i)) && Silent(events(i))
    ensures fail >= from && events(fail).Fail?
    decreases |run(from).delayed|, |run(from).dirty|, |run(from).taken|, SyncWork(run(from))
  {
    if events(from).Fail? {
      fail := from;
    } else {
      SilentStepAt(run, cl, events, from);
      fail := SilenceFails(run, cl, events, from + 1);
    }
  }

  lemma SilentStepKeepsVersions(s: State, cl: Cluster, e: Event)
    requires Own(e) && Silent(e) && Enabled(s, cl, e)
    ensures Next(s, cl, e).versions == s.versions
  {
    assert e.Finish? || e.Fail? ==> !Writes(e, e.key);
  }

  lemma {:induction false} SilenceKeepsVersions(run: nat -> State, cl: Cluster, events: nat -> Event, from: nat, until: nat)
    requires IsInfiniteRun(run, cl, events) && from <= until
    requires forall i: nat :: i >= from ==> Own(events(i)) && Silent(events(i))
    ensures run(until).versions == run(from).versions
    decreases until
  {
    if until > from {
      assert StepAt(run, cl, events, until - 1);
      SilenceKeepsVersions(run, cl, events, from, until - 1);
      SilentStepKeepsVersions(run(until - 1), cl, events(until - 1));
    }
  }

  /**
   No run goes on by itself for ever: after a settled state something from outside happens, or else the
   informer withholds for ever a version that the server refuses writes over.
   */
  lemma ComesToRest(run: nat -> State, cl: Cluster, events: nat -> Event, from: nat) returns (n: nat, id: ObjectId)
    requires IsInfiniteRun(run, cl, events) && Settled(run(from), cl) && AllAgreed(run(from), cl)
    ensures n >= from && (Outside(run(n), cl, events(n)) || Withheld(run, n, id))
  {
    id := ObjectId("", "");
    if outside: nat :| outside >= from && Outside(run(outside), cl, events(outside)) {
      n := outside;
    } else {
      assert GoesOnAlone(run, cl, events, from) by {
        forall i: nat | i >= from ensures OwnStepIn(run, cl, events, i) {
          assert StepAt(run, cl, events, i) && !Outside(run(i), cl, events(i));
        }
      }
      var silent := BecomesSilent(run, cl, events, from);
      n := SilenceFails(run, cl, events, silent);
      id := OutputId(events(n).key);
      assert StepAt(run, cl, events, n);
      assert Refused(run(n), cl, events(n).key);
      forall m: nat | m >= n ensures run(m).VersionsOf(id) == run(n).VersionsOf(id) {
        SilenceKeepsVersions(run, cl, events, n, m);
      }
    }
  }

  // ---------- Rest ----------

  lemma {:induction false} GroupHasAnAggregate(group: set<Data>) returns (data: Data)
    ensures forall key :: (key in data <==> Has(group, key)) && (key in data ==> Offers(group, key, data[key]))
  {
    if group == {} {
      data := map[];
    } else {
      var one :| one in group;
      var rest := GroupHasAnAggregate(group - {one});
      data := rest + one;
    }
  }

  lemma {:induction false} AggregateExists(groups: Groups) returns (data: Data)
    ensures IsAggregate(data, groups)
  {
    if groups == [] {
      data := map[];
    } else {
      var before := AggregateExists(groups[..|groups| - 1]);
      var last := GroupHasAnAggregate(groups[|groups| - 1]);
      ExtendsAggregate(before, last, groups);
      data := before + last;
    }
  }

  /** A sync under way whose output is delivered can always go on. */
  lemma SyncCanGoOn(s: State, cl: Cluster, k: ObjectId) returns (e: Event)
    requires k in s.inFlight && |s.inFlight[k].groups| <= GROUPS && |s.VersionsOf(OutputId(k))| == 1
    ensures Internal(e) && Enabled(s, cl, e)
  {
    var f, live := s.inFlight[k], s.Live(OutputId(k));
    if f.spec.None? {
      e := Finish(k, Unchanged);
    } else if !cl.Aggregates(k, f.spec.value) {
      e := Finish(k, if live.Some? then Deleted else Unchanged);
    } else if !cl.Selectable(k) {
      e := Finish(k, Unchanged);
    } else if |f.groups| < GROUPS {
      e := ReadGroup(k);
    } else if live.Some? && (Controls(f.spec.value, live.value) ==> IsAggregate(live.value.data, f.groups)) {
      e := Finish(k, Unchanged);
    } else {
      var data := AggregateExists(f.groups);
      e := Finish(k, if live.None? then Created(data) else Updated(data));
    }
  }

  /** When the controller has nothing left to do by itself, every output is what its inputs call for. */
  lemma AtRestEverythingIsUpToDate(s: State, cl: Cluster, k: ObjectId)
    requires Inv(s, cl, k) && k in s.domains
    requires forall other :: other in s.inFlight ==> |s.inFlight[other].groups| <= GROUPS
    requires forall e :: Internal(e) ==> !Enabled(s, cl, e)
    ensures Idle(s, k) && UpToDate(s, cl, k)
  {
    assert !Enabled(s, cl, Take(k)) && !Enabled(s, cl, Begin(k));
    assert !Enabled(s, cl, Requeue(k));
    assert !Enabled(s, cl, Deliver(OutputId(k)));
    if k in s.inFlight {
      var e := SyncCanGoOn(s, cl, k);
      assert false;
    }
  }
}
