/** mlserver/parallel/dispatcher.py:143-146, 217-223: `itertools.cycle` over a snapshot of the workers
    is fair. */
module RoundRobin {
  import opened AsyncResponding
  import opened PoolProtocol

  /** The worker of the `i`-th pick. */
  function PickAt(rotation: seq<Pid>, i: nat): Pid
    requires rotation != []
  {
    rotation[Wrap(i, |rotation|)]
  }

  /** How often `pid` is picked from position `pos` on, in `k` picks without a reset. */
  function Picks(rotation: seq<Pid>, pos: nat, k: nat, pid: Pid): nat
    requires rotation != []
  {
    if k == 0 then 0
    else Picks(rotation, pos, k - 1, pid) + if PickAt(rotation, pos + k - 1) == pid then 1 else 0
  }

  lemma {:induction false} MulGrows(a: nat, b: nat, n: nat)
    ensures a < b ==> a * n + n <= b * n
  {
    if a < b {
      MulGrows(a, b - 1, n);
      assert b * n == (b - 1) * n + n;
    }
  }

  lemma {:induction false} DivModIs(x: nat, n: nat, q: nat, r: nat)
    requires n > 0 && r < n && x == q * n + r
    ensures x / n == q && x % n == r
  {
    var q', r' := x / n, x % n;
    assert x == q' * n + r';
    MulGrows(q, q', n);
    MulGrows(q', q, n);
  }

  lemma {:induction false} NextDivMod(x: nat, n: nat)
    requires n > 0
    ensures if x % n == n - 1 then (x + 1) / n == x / n + 1 && (x + 1) % n == 0
            else (x + 1) / n == x / n && (x + 1) % n == x % n + 1
  {
    var q, r := x / n, x % n;
    assert x == q * n + r;
    if r == n - 1 {
      assert (q + 1) * n == q * n + n;
      DivModIs(x + 1, n, q + 1, 0);
    } else {
      DivModIs(x + 1, n, q, r + 1);
    }
  }

  lemma {:induction false} WrapIsMod(i: nat, n: nat)
    requires n > 0
    ensures Wrap(i, n) == i % n
  {
    if i < n {
      DivModIs(i, n, 0, i);
    } else {
      WrapIsMod(i - n, n);
      var q, r := (i - n) / n, (i - n) % n;
      assert i == (q + 1) * n + r;
      DivModIs(i, n, q + 1, r);
    }
  }

  /** How often position `j` of `n` comes up before time `x`. */
  function Visits(n: nat, j: nat, x: nat): nat
    requires n > 0
  {
    x / n + if x % n > j then 1 else 0
  }

  lemma {:induction false} PicksAreVisits(rotation: seq<Pid>, pos: nat, k: nat, j: nat)
    requires j < |rotation|
    requires forall i :: 0 <= i < |rotation| && i != j ==> rotation[i] != rotation[j]
    ensures Picks(rotation, pos, k, rotation[j]) == Visits(|rotation|, j, pos + k) - Visits(|rotation|, j, pos)
  {
    if k > 0 {
      PicksAreVisits(rotation, pos, k - 1, j);
      NextDivMod(pos + k - 1, |rotation|);
      WrapIsMod(pos + k - 1, |rotation|);
    }
  }

  /** Fairness: of any `k` consecutive picks without a reset, each of the `n` workers in rotation gets
      `k / n` rounded down or up. */
  lemma {:induction false} EveryWorkerGetsItsShare(rotation: seq<Pid>, pos: nat, k: nat, pid: Pid)
    requires pid in rotation
    requires forall i, j :: 0 <= i < j < |rotation| ==> rotation[i] != rotation[j]
    ensures var n, share := |rotation|, Picks(rotation, pos, k, pid);
            share == k / n || (k % n > 0 && share == k / n + 1)
  {
    var n := |rotation|;
    var j :| 0 <= j < n && rotation[j] == pid;
    PicksAreVisits(rotation, pos, k, j);
    DivModOfSum(pos, k, n);
  }

  lemma {:induction false} DivModOfSum(pos: nat, k: nat, n: nat)
    requires n > 0
    ensures if pos % n + k % n < n
            then (pos + k) / n == pos / n + k / n && (pos + k) % n == pos % n + k % n
            else (pos + k) / n == pos / n + k / n + 1 && (pos + k) % n == pos % n + k % n - n
  {
    if k == 0 {
      DivModIs(0, n, 0, 0);
    } else {
      DivModOfSum(pos, k - 1, n);
      NextDivMod(k - 1, n);
      NextDivMod(pos + k - 1, n);
    }
  }

  predicate Resets(e: Event) {
    e.WorkerDies? || e.BecomeReady?
  }

  /** The event is a request that goes out. */
  predicate Dispatches(s: State, e: Event)
  {
    e.Request? && s.rotation != [] && e.id !in s.seen.usedIds
  }

  predicate DispatchesTo(s: State, e: Event, pid: Pid) {
    Dispatches(s, e) && Pick(s) == pid
  }

  /** The state a run ends in, how many requests it dispatched, and how many of them to one worker. */
  datatype Tally = Tally(state: State, requested: nat, picked: nat)

  ghost function Count(s: State, events: seq<Event>, pid: Pid): Tally {
    if events == [] then Tally(s, 0, 0)
    else
      var n := |events| - 1;
      CountEvent(Count(s, events[..n], pid), events[n], pid)
  }

  ghost function CountEvent(tally: Tally, e: Event, pid: Pid): Tally {
    Tally(RunStep(tally.state, e),
          tally.requested + if Dispatches(tally.state, e) then 1 else 0,
          tally.picked + if DispatchesTo(tally.state, e, pid) then 1 else 0)
  }

  lemma {:induction false} StepFollowsRotation(s: State, e: Event, pid: Pid)
    requires s.rotation != [] && !Resets(e)
    ensures var t := RunStep(s, e);
            t.rotation == s.rotation && t.pos == s.pos + if Dispatches(s, e) then 1 else 0
    ensures DispatchesTo(s, e, pid) <==> Dispatches(s, e) && PickAt(s.rotation, s.pos) == pid
  {
  }

  predicate NoResets(events: seq<Event>) {
    events != [] ==> !Resets(events[|events| - 1]) && NoResets(events[..|events| - 1])
  }

  lemma {:induction false} OneMorePick(rotation: seq<Pid>, pos: nat, k: nat, pid: Pid, picks: bool)
    requires rotation != []
    ensures Picks(rotation, pos, k + if picks then 1 else 0, pid)
         == Picks(rotation, pos, k, pid) + if picks && PickAt(rotation, pos + k) == pid then 1 else 0
  {
  }

  ghost predicate Follows(s: State, tally: Tally, pid: Pid)
    requires s.rotation != []
  {
    && tally.state.rotation == s.rotation && tally.state.pos == s.pos + tally.requested
    && tally.picked == Picks(s.rotation, s.pos, tally.requested, pid)
  }

  lemma {:induction false} EventFollowsRotation(s: State, tally: Tally, e: Event, pid: Pid)
    requires s.rotation != [] && Follows(s, tally, pid) && !Resets(e)
    ensures Follows(s, CountEvent(tally, e, pid), pid)
  {
    StepFollowsRotation(tally.state, e, pid);
    OneMorePick(s.rotation, s.pos, tally.requested, pid, Dispatches(tally.state, e));
  }

  lemma {:induction false} RequestsFollowRotation(s: State, events: seq<Event>, pid: Pid)
    requires s.rotation != [] && NoResets(events)
    ensures Follows(s, Count(s, events, pid), pid)
  {
    if events != [] {
      var n := |events| - 1;
      RequestsFollowRotation(s, events[..n], pid);
      EventFollowsRotation(s, Count(s, events[..n], pid), events[n], pid);
    }
  }

  lemma {:induction false} CountRuns(s: State, events: seq<Event>, pid: Pid)
    ensures Count(s, events, pid).state == Run(s, events)
  {
    if events != [] { CountRuns(s, events[..|events| - 1], pid); }
  }

  /** In any run from a reachable state in which no worker dies or becomes ready, whatever else is
      interleaved, the requests dispatched are shared evenly among the workers in rotation. */
  lemma {:induction false} RunsShareRequestsEvenly(s: State, events: seq<Event>, pid: Pid)
    requires PoolInv(s) && pid in s.rotation && NoResets(events)
    ensures Count(s, events, pid).state == Run(s, events)
    ensures var n, tally := |s.rotation|, Count(s, events, pid);
            || tally.picked == tally.requested / n
            || (tally.requested % n > 0 && tally.picked == tally.requested / n + 1)
  {
    CountRuns(s, events, pid);
    RequestsFollowRotation(s, events, pid);
    EveryWorkerGetsItsShare(s.rotation, s.pos, Count(s, events, pid).requested, pid);
  }
}
