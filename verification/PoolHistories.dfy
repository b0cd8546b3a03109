/** What the histories mean in which the results about loads and updates are stated: which settings a reload
    has put in the registry ahead of its fan-out, and for which workers an update of a model has failed. */
module PoolHistories {
  import opened AsyncResponding
  import opened PoolProtocol

  /** The `i`-th event of the run takes place. */
  ghost predicate TakesPlace(pids: seq<Pid>, events: seq<Event>, i: nat) {
    i < |events| && Enabled(After(pids, events[..i]), events[i])
  }

  /** It is the end of an update of that kind and outcome. */
  ghost predicate EndsLoadOf(pids: seq<Pid>, events: seq<Event>, i: nat, settings: Settings) {
    && TakesPlace(pids, events, i) && events[i] == EndUpdate(true)
    && After(pids, events[..i]).lock.value.kind.Load? && After(pids, events[..i]).lock.value.settings == settings
  }

  /** An update of the model ends so, and finds the worker past the lock. */
  ghost predicate EndsFor(pids: seq<Pid>, events: seq<Event>, i: nat, ok: bool, slot: Slot) {
    && TakesPlace(pids, events, i) && events[i] == EndUpdate(ok)
    && After(pids, events[..i]).lock.value.settings.key == slot.key && PastLock(After(pids, events[..i]), slot.pid)
  }

  ghost predicate AddedAt(pids: seq<Pid>, events: seq<Event>, i: nat, settings: Settings) {
    TakesPlace(pids, events, i) && events[i].EarlyAdd? && events[i].settings == settings
  }

  /** Added ahead of the fan-out, and no load of the very settings has ended well since. */
  ghost predicate Ahead(pids: seq<Pid>, events: seq<Event>, settings: Settings) {
    exists i :: AddedAt(pids, events, i, settings) && forall j :: i < j ==> !EndsLoadOf(pids, events, j, settings)
  }

  /** An update has failed, and none has ended well since. */
  ghost predicate Failing(pids: seq<Pid>, events: seq<Event>, slot: Slot) {
    exists i :: EndsFor(pids, events, i, false, slot) && forall j :: i < j ==> !EndsFor(pids, events, j, true, slot)
  }

  // ---------- One more event ----------

  lemma {:induction false} SamePlaces(pids: seq<Pid>, events: seq<Event>, e: Event, i: nat)
    requires i < |events|
    ensures (events + [e])[..i] == events[..i] && (events + [e])[i] == events[i]
  {
  }

  lemma {:induction false} LastPlace(events: seq<Event>, e: Event)
    ensures (events + [e])[..|events|] == events && (events + [e])[|events|] == e
  {
  }

  lemma {:induction false} AddedSnoc(pids: seq<Pid>, events: seq<Event>, e: Event, i: nat, settings: Settings)
    ensures AddedAt(pids, events + [e], i, settings) <==>
            if i == |events| then Enabled(After(pids, events), e) && e.EarlyAdd? && e.settings == settings
            else AddedAt(pids, events, i, settings)
  {
    LastPlace(events, e);
    if i < |events| { SamePlaces(pids, events, e, i); }
  }

  lemma {:induction false} LoadEndSnoc(pids: seq<Pid>, events: seq<Event>, e: Event, i: nat, settings: Settings)
    ensures EndsLoadOf(pids, events + [e], i, settings) <==>
            if i == |events| then LoadEndsNow(After(pids, events), e, settings)
            else EndsLoadOf(pids, events, i, settings)
  {
    LastPlace(events, e);
    if i < |events| { SamePlaces(pids, events, e, i); }
  }

  ghost predicate LoadEndsNow(s: State, e: Event, settings: Settings) {
    Enabled(s, e) && e == EndUpdate(true) && s.lock.value.kind.Load? && s.lock.value.settings == settings
  }

  ghost predicate EndsNow(s: State, e: Event, ok: bool, slot: Slot) {
    Enabled(s, e) && e == EndUpdate(ok) && s.lock.value.settings.key == slot.key && PastLock(s, slot.pid)
  }

  lemma {:induction false} EndSnoc(pids: seq<Pid>, events: seq<Event>, e: Event, i: nat, ok: bool, slot: Slot)
    ensures EndsFor(pids, events + [e], i, ok, slot) <==>
            if i == |events| then EndsNow(After(pids, events), e, ok, slot) else EndsFor(pids, events, i, ok, slot)
  {
    LastPlace(events, e);
    if i < |events| { SamePlaces(pids, events, e, i); }
  }

  ghost predicate AddsNow(s: State, e: Event, settings: Settings) {
    Enabled(s, e) && e.EarlyAdd? && e.settings == settings
  }

  lemma {:induction false} AheadStays(pids: seq<Pid>, events: seq<Event>, e: Event, settings: Settings)
    requires Ahead(pids, events, settings) && !LoadEndsNow(After(pids, events), e, settings)
    ensures Ahead(pids, events + [e], settings)
  {
    var i: nat :| AddedAt(pids, events, i, settings) && forall j :: i < j ==> !EndsLoadOf(pids, events, j, settings);
    AddedSnoc(pids, events, e, i, settings);
    forall j | i < j ensures !EndsLoadOf(pids, events + [e], j, settings) {
      LoadEndSnoc(pids, events, e, j, settings);
    }
  }

  lemma {:induction false} AheadFromNow(pids: seq<Pid>, events: seq<Event>, e: Event, settings: Settings)
    requires AddsNow(After(pids, events), e, settings)
    ensures Ahead(pids, events + [e], settings)
  {
    AddedSnoc(pids, events, e, |events|, settings);
    assert forall j :: |events| < j ==> !EndsLoadOf(pids, events + [e], j, settings);
  }

  lemma {:induction false} AheadBefore(pids: seq<Pid>, events: seq<Event>, e: Event, settings: Settings)
    requires Ahead(pids, events + [e], settings)
    ensures || AddsNow(After(pids, events), e, settings)
            || (Ahead(pids, events, settings) && !LoadEndsNow(After(pids, events), e, settings))
  {
    var more := events + [e];
    var i: nat :| AddedAt(pids, more, i, settings) && forall j :: i < j ==> !EndsLoadOf(pids, more, j, settings);
    AddedSnoc(pids, events, e, i, settings);
    if i < |events| {
      LoadEndSnoc(pids, events, e, |events|, settings);
      assert !EndsLoadOf(pids, more, |events|, settings);
      forall j | i < j ensures !EndsLoadOf(pids, events, j, settings) {
        LoadEndSnoc(pids, events, e, j, settings);
      }
    }
  }

  lemma {:induction false} FailingStays(pids: seq<Pid>, events: seq<Event>, e: Event, slot: Slot)
    requires Failing(pids, events, slot) && !EndsNow(After(pids, events), e, true, slot)
    ensures Failing(pids, events + [e], slot)
  {
    var i: nat :| EndsFor(pids, events, i, false, slot) && forall j :: i < j ==> !EndsFor(pids, events, j, true, slot);
    EndSnoc(pids, events, e, i, false, slot);
    forall j | i < j ensures !EndsFor(pids, events + [e], j, true, slot) {
      EndSnoc(pids, events, e, j, true, slot);
    }
  }

  lemma {:induction false} FailingFromNow(pids: seq<Pid>, events: seq<Event>, e: Event, slot: Slot)
    requires EndsNow(After(pids, events), e, false, slot)
    ensures Failing(pids, events + [e], slot)
  {
    EndSnoc(pids, events, e, |events|, false, slot);
    assert forall j :: |events| < j ==> !EndsFor(pids, events + [e], j, true, slot);
  }

  lemma {:induction false} FailingBefore(pids: seq<Pid>, events: seq<Event>, e: Event, slot: Slot)
    requires Failing(pids, events + [e], slot)
    ensures || EndsNow(After(pids, events), e, false, slot)
            || (Failing(pids, events, slot) && !EndsNow(After(pids, events), e, true, slot))
  {
    var more := events + [e];
    var i: nat :| EndsFor(pids, more, i, false, slot) && forall j :: i < j ==> !EndsFor(pids, more, j, true, slot);
    EndSnoc(pids, events, e, i, false, slot);
    if i < |events| {
      EndSnoc(pids, events, e, |events|, true, slot);
      assert !EndsFor(pids, more, |events|, true, slot);
      forall j | i < j ensures !EndsFor(pids, events, j, true, slot) {
        EndSnoc(pids, events, e, j, true, slot);
      }
    }
  }

  lemma {:induction false} EarlyStep(s: State, e: Event, settings: Settings)
    requires Enabled(s, e)
    ensures settings in Step(s, e).log.early <==>
            AddsNow(s, e, settings) || (settings in s.log.early && !LoadEndsNow(s, e, settings))
  {
  }

  lemma {:induction false} FailedStep(s: State, e: Event, slot: Slot)
    requires Enabled(s, e)
    ensures slot in Step(s, e).log.failed <==>
            EndsNow(s, e, false, slot) || (slot in s.log.failed && !EndsNow(s, e, true, slot))
  {
    if e.EndUpdate? {
      assert slot in SlotsPastLock(s, s.lock.value.settings.key)
        <==> slot.key == s.lock.value.settings.key && PastLock(s, slot.pid);
    }
  }

  // ---------- Results ----------

  /** In every run, the settings that do not count as established are those that a reload has added ahead of
      its fan-out, and no load of which has ended well since. */
  lemma {:induction false} EarlyExactly(pids: seq<Pid>, events: seq<Event>, settings: Settings)
    ensures settings in After(pids, events).log.early <==> Ahead(pids, events, settings)
  {
    if events != [] {
      var n := |events| - 1;
      var s, e := After(pids, events[..n]), events[n];
      EarlyExactly(pids, events[..n], settings);
      assert events[..n] + [e] == events;
      if Enabled(s, e) { EarlyStep(s, e, settings); }
      if AddsNow(s, e, settings) {
        AheadFromNow(pids, events[..n], e, settings);
      } else if Ahead(pids, events[..n], settings) && !LoadEndsNow(s, e, settings) {
        AheadStays(pids, events[..n], e, settings);
      } else if Ahead(pids, events, settings) {
        AheadBefore(pids, events[..n], e, settings);
      }
    }
  }

  /** In every run, a worker and a model count as failed exactly when an update of the model has failed with
      the worker past the lock, and none has ended well with it there since. */
  lemma {:induction false} FailedExactly(pids: seq<Pid>, events: seq<Event>, slot: Slot)
    ensures slot in After(pids, events).log.failed <==> Failing(pids, events, slot)
  {
    if events != [] {
      var n := |events| - 1;
      var s, e := After(pids, events[..n]), events[n];
      FailedExactly(pids, events[..n], slot);
      assert events[..n] + [e] == events;
      if Enabled(s, e) { FailedStep(s, e, slot); }
      if EndsNow(s, e, false, slot) {
        FailingFromNow(pids, events[..n], e, slot);
      } else if Failing(pids, events[..n], slot) && !EndsNow(s, e, true, slot) {
        FailingStays(pids, events[..n], e, slot);
      } else if Failing(pids, events, slot) {
        FailingBefore(pids, events[..n], e, slot);
      }
    }
  }
}
