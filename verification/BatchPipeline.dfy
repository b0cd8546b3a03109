/** mlserver/batch_processing.py:350-408 and 483-514: the offline pipeline. A producer cuts the lines of
    a file into batches, consumers process them, and a finalizer writes their outputs; two bounded
    queues connect them, and the main task waits for both to be worked off.

    A step is what one of the tasks does between two waits. Sending may fail, and so may a write. */
module BatchPipeline {
  import opened OrderedDict
  import opened BatchItems
  import opened BatchConservation
  import opened Batching
  import AdaptiveBatching

  datatype Config = Config(file: seq<BatchInputItem>, workers: nat, batchSize: nat) {
    predicate Valid() {
      workers >= 1 && batchSize >= 1 && forall i :: 0 <= i < |file| ==> file[i].index == i
    }

    function Capacity(): nat {
      2 * workers
    }
  }

  datatype Consumer = Idle | Working(items: seq<BatchInputItem>) | Putting(out: seq<BatchOutputItem>)
  datatype Finalizer = Waiting | Writing(rest: seq<BatchOutputItem>)

  /** What the main task does: produces and waits for the first queue, waits for the second, is done. */
  datatype Phase = Producing | JoiningOut | Done

  /** `written` is the output file; `unwritten` and `lost` are histories: the indices whose write raised,
      and those that a batch has no output for. */
  datatype State = State(
    read: nat, batch: seq<BatchInputItem>,
    queueIn: seq<seq<BatchInputItem>>, unfinishedIn: int,
    consumers: seq<Consumer>,
    queueOut: seq<seq<BatchOutputItem>>, unfinishedOut: int,
    finalizer: Finalizer, counter: nat, phase: Phase,
    written: seq<BatchOutputItem>, unwritten: multiset<nat>, lost: multiset<nat>)

  datatype Event =
    | ReadLine
    | PutBatch
    | Take(w: nat)
    | Finish(w: nat, end: SendEnd)
    | PutOut(w: nat)
    | TakeOut
    | Write(ok: bool)
    | FinishOut
    | JoinIn
    | JoinOut

  function Init(cfg: Config): State {
    State(0, [], [], 0, seq(cfg.workers, w => Idle), [], 0, Waiting, 0, Producing, [], multiset{}, multiset{})
  }

  predicate Enabled(cfg: Config, s: State, e: Event) {
    && !s.phase.Done?
    && match e
       case ReadLine => s.phase.Producing? && s.read < |cfg.file| && |s.batch| < cfg.batchSize
       case PutBatch =>
         && s.phase.Producing? && s.batch != [] && (|s.batch| == cfg.batchSize || s.read == |cfg.file|)
         && |s.queueIn| < cfg.Capacity()
       case Take(w) => w < |s.consumers| && s.consumers[w].Idle? && s.queueIn != []
       case Finish(w, _) => w < |s.consumers| && s.consumers[w].Working?
       case PutOut(w) => w < |s.consumers| && s.consumers[w].Putting? && |s.queueOut| < cfg.Capacity()
       case TakeOut => s.finalizer.Waiting? && s.queueOut != []
       case Write(_) => s.finalizer.Writing? && s.finalizer.rest != []
       case FinishOut => s.finalizer == Writing([])
       case JoinIn => s.phase.Producing? && s.read == |cfg.file| && s.batch == [] && s.unfinishedIn == 0
       case JoinOut => s.phase.JoiningOut? && s.unfinishedOut == 0
  }

  /** A batch that raises is taken off the queue's count at once; an output is first put on. */
  function FinishWith(s: State, w: nat, out: Option<seq<BatchOutputItem>>, left: multiset<nat>): State
    requires w < |s.consumers|
  {
    match out
    case None => s.(consumers := s.consumers[w := Idle], unfinishedIn := s.unfinishedIn - 1, lost := s.lost + left)
    case Some(items) => s.(consumers := s.consumers[w := Putting(items)], lost := s.lost + left)
  }

  function FinishBatch(s: State, w: nat, end: SendEnd): State
    requires w < |s.consumers| && s.consumers[w].Working?
  {
    FinishWith(s, w, Process(s.consumers[w].items, end), LostIn(s.consumers[w].items, end))
  }

  function WriteItem(s: State, ok: bool): State
    requires s.finalizer.Writing? && s.finalizer.rest != []
  {
    var item := s.finalizer.rest[0];
    s.(finalizer := Writing(s.finalizer.rest[1..]), counter := s.counter + 1,
       written := if ok then s.written + [item] else s.written,
       unwritten := if ok then s.unwritten else s.unwritten + multiset{item.index})
  }

  function Step(cfg: Config, s: State, e: Event): State
    requires Enabled(cfg, s, e)
  {
    match e
    case ReadLine => s.(read := s.read + 1, batch := s.batch + [cfg.file[s.read]])
    case PutBatch => s.(queueIn := s.queueIn + [s.batch], unfinishedIn := s.unfinishedIn + 1, batch := [])
    case Take(w) => s.(queueIn := s.queueIn[1..], consumers := s.consumers[w := Working(s.queueIn[0])])
    case Finish(w, end) => FinishBatch(s, w, end)
    case PutOut(w) =>
      s.(queueOut := s.queueOut + [s.consumers[w].out], unfinishedOut := s.unfinishedOut + 1,
         consumers := s.consumers[w := Idle], unfinishedIn := s.unfinishedIn - 1)
    case TakeOut => s.(queueOut := s.queueOut[1..], finalizer := Writing(s.queueOut[0]))
    case Write(ok) => WriteItem(s, ok)
    case FinishOut => s.(finalizer := Waiting, unfinishedOut := s.unfinishedOut - 1)
    case JoinIn => s.(phase := JoiningOut)
    case JoinOut => s.(phase := Done)
  }

  /** The state after a sequence of events; an event that cannot happen is skipped. */
  function After(cfg: Config, events: seq<Event>): State {
    if events == [] then Init(cfg)
    else
      var s, e := After(cfg, events[..|events| - 1]), events[|events| - 1];
      if Enabled(cfg, s, e) then Step(cfg, s, e) else s
  }

  // ---------- Where a line is ----------

  /** How often the index `x` occurs. */
  function Ins(items: seq<BatchInputItem>, x: nat): nat {
    multiset(InputIndices(items))[x]
  }

  function Outs(out: seq<BatchOutputItem>, x: nat): nat {
    multiset(OutputIndices(out))[x]
  }

  function QueuedIn(q: seq<seq<BatchInputItem>>, x: nat): nat {
    if q == [] then 0 else Ins(q[0], x) + QueuedIn(q[1..], x)
  }

  function QueuedOut(q: seq<seq<BatchOutputItem>>, x: nat): nat {
    if q == [] then 0 else Outs(q[0], x) + QueuedOut(q[1..], x)
  }

  function HeldBy(c: Consumer, x: nat): nat {
    match c
    case Idle => 0
    case Working(items) => Ins(items, x)
    case Putting(out) => Outs(out, x)
  }

  function Held(cs: seq<Consumer>, x: nat): nat {
    if cs == [] then 0 else HeldBy(cs[0], x) + Held(cs[1..], x)
  }

  function ToWrite(f: Finalizer, x: nat): nat {
    if f.Writing? then Outs(f.rest, x) else 0
  }

  /** In how many places line `x` is: under way, written, failed to be written, or lost. */
  function Places(s: State, x: nat): nat {
    Ins(s.batch, x) + QueuedIn(s.queueIn, x) + Held(s.consumers, x) + QueuedOut(s.queueOut, x)
    + ToWrite(s.finalizer, x) + Outs(s.written, x) + s.unwritten[x] + s.lost[x]
  }

  lemma {:induction false} QueuedInSnoc(q: seq<seq<BatchInputItem>>, b: seq<BatchInputItem>, x: nat)
    ensures QueuedIn(q + [b], x) == QueuedIn(q, x) + Ins(b, x)
  {
    if q == [] {
      assert (q + [b])[1..] == [];
    } else {
      QueuedInSnoc(q[1..], b, x);
      assert (q + [b])[1..] == q[1..] + [b];
    }
  }

  lemma {:induction false} QueuedOutSnoc(q: seq<seq<BatchOutputItem>>, b: seq<BatchOutputItem>, x: nat)
    ensures QueuedOut(q + [b], x) == QueuedOut(q, x) + Outs(b, x)
  {
    if q == [] {
      assert (q + [b])[1..] == [];
    } else {
      QueuedOutSnoc(q[1..], b, x);
      assert (q + [b])[1..] == q[1..] + [b];
    }
  }

  lemma {:induction false} HeldUpdate(cs: seq<Consumer>, w: nat, c: Consumer, x: nat)
    requires w < |cs|
    ensures Held(cs[w := c], x) + HeldBy(cs[w], x) == Held(cs, x) + HeldBy(c, x)
  {
    if w == 0 {
      assert cs[w := c][1..] == cs[1..];
    } else {
      HeldUpdate(cs[1..], w - 1, c, x);
      assert cs[w := c][1..] == cs[1..][w - 1 := c];
    }
  }

  lemma {:induction false} InsSnoc(items: seq<BatchInputItem>, item: BatchInputItem, x: nat)
    ensures Ins(items + [item], x) == Ins(items, x) + if x == item.index then 1 else 0
  {
    assert InputIndices(items + [item]) == InputIndices(items) + [item.index];
  }

  lemma {:induction false} OutsFirst(out: seq<BatchOutputItem>, x: nat)
    requires out != []
    ensures Outs(out, x) == Outs(out[1..], x) + if x == out[0].index then 1 else 0
  {
    assert OutputIndices(out) == [out[0].index] + OutputIndices(out[1..]);
  }

  lemma {:induction false} OutsSnoc(out: seq<BatchOutputItem>, item: BatchOutputItem, x: nat)
    ensures Outs(out + [item], x) == Outs(out, x) + if x == item.index then 1 else 0
  {
    assert OutputIndices(out + [item]) == OutputIndices(out) + [item.index];
  }

  lemma {:induction false} FinishKeepsPlaces(s: State, w: nat, end: SendEnd, x: nat)
    requires w < |s.consumers| && s.consumers[w].Working? && NoRepeats(InputIndices(s.consumers[w].items))
    ensures Places(FinishBatch(s, w, end), x) == Places(s, x)
  {
    var items, t := s.consumers[w].items, FinishBatch(s, w, end);
    HeldUpdate(s.consumers, w, t.consumers[w], x);
    if Process(items, end).Some? { BatchConservesExactly(items, end); }
    assert HeldBy(t.consumers[w], x) + LostIn(items, end)[x] == HeldBy(s.consumers[w], x);
  }

  lemma {:induction false} WriteKeepsPlaces(s: State, ok: bool, x: nat)
    requires s.finalizer.Writing? && s.finalizer.rest != []
    ensures Places(WriteItem(s, ok), x) == Places(s, x)
  {
    OutsFirst(s.finalizer.rest, x);
    OutsSnoc(s.written, s.finalizer.rest[0], x);
  }

  /** Only reading a line puts it somewhere; no other step duplicates or drops one. */
  lemma {:induction false} StepKeepsPlaces(cfg: Config, s: State, e: Event, x: nat)
    requires Enabled(cfg, s, e)
    requires e.Finish? ==> NoRepeats(InputIndices(s.consumers[e.w].items))
    ensures Places(Step(cfg, s, e), x)
         == Places(s, x) + if e.ReadLine? && x == cfg.file[s.read].index then 1 else 0
  {
    match e
    case ReadLine => InsSnoc(s.batch, cfg.file[s.read], x);
    case PutBatch => QueuedInSnoc(s.queueIn, s.batch, x);
    case Take(w) => HeldUpdate(s.consumers, w, Working(s.queueIn[0]), x);
    case Finish(w, end) => FinishKeepsPlaces(s, w, end, x);
    case PutOut(w) =>
      QueuedOutSnoc(s.queueOut, s.consumers[w].out, x);
      HeldUpdate(s.consumers, w, Idle, x);
    case TakeOut =>
    case Write(ok) => WriteKeepsPlaces(s, ok, x);
    case FinishOut =>
    case _ =>
  }

  // ---------- Every line in one place ----------

  ghost predicate OnePlace(s: State) {
    forall x: nat :: Places(s, x) == if x < s.read then 1 else 0
  }

  lemma {:induction false} HeldIsHeld(cs: seq<Consumer>, w: nat, x: nat)
    requires w < |cs|
    ensures HeldBy(cs[w], x) <= Held(cs, x)
  {
    if w > 0 { HeldIsHeld(cs[1..], w - 1, x); }
  }

  lemma {:induction false} CountsShowRepeats(items: seq<BatchInputItem>)
    requires forall x: nat :: Ins(items, x) <= 1
    ensures NoRepeats(InputIndices(items))
  {
    var s := InputIndices(items);
    forall i, j | 0 <= i < j < |s| ensures s[i] != s[j] {
      assert s == s[..j] + [s[j]] + s[j + 1..];
      assert s[i] == s[..j][i] && s[i] in multiset(s[..j]);
      assert Ins(items, s[j]) >= multiset(s[..j])[s[j]] + 1;
    }
  }

  /** A batch that is being processed holds every line at most once. */
  lemma {:induction false} WorkingOnce(s: State, w: nat)
    requires OnePlace(s) && w < |s.consumers| && s.consumers[w].Working?
    ensures NoRepeats(InputIndices(s.consumers[w].items))
  {
    var items := s.consumers[w].items;
    forall x: nat ensures Ins(items, x) <= 1 {
      HeldIsHeld(s.consumers, w, x);
      assert Places(s, x) <= 1;
    }
    CountsShowRepeats(items);
  }

  lemma {:induction false} StepKeepsOnePlace(cfg: Config, s: State, e: Event)
    requires cfg.Valid() && OnePlace(s) && Enabled(cfg, s, e)
    ensures OnePlace(Step(cfg, s, e))
  {
    if e.Finish? { WorkingOnce(s, e.w); }
    forall x: nat ensures Places(Step(cfg, s, e), x) == if x < Step(cfg, s, e).read then 1 else 0 {
      StepKeepsPlaces(cfg, s, e, x);
      assert Places(s, x) == if x < s.read then 1 else 0;
    }
  }

  // ---------- The queues' counts, and the phases ----------

  function Busy(cs: seq<Consumer>): nat {
    if cs == [] then 0 else Busy(cs[1..]) + if cs[0].Idle? then 0 else 1
  }

  lemma {:induction false} BusyUpdate(cs: seq<Consumer>, w: nat, c: Consumer)
    requires w < |cs|
    ensures Busy(cs[w := c]) + (if cs[w].Idle? then 0 else 1) == Busy(cs) + (if c.Idle? then 0 else 1)
  {
    if w == 0 {
      assert cs[w := c][1..] == cs[1..];
    } else {
      BusyUpdate(cs[1..], w - 1, c);
      assert cs[w := c][1..] == cs[1..][w - 1 := c];
    }
  }

  lemma {:induction false} NoneBusy(cs: seq<Consumer>)
    ensures Busy(cs) == 0 <==> forall w :: 0 <= w < |cs| ==> cs[w].Idle?
  {
    if cs != [] {
      NoneBusy(cs[1..]);
      assert forall w :: 1 <= w < |cs| ==> cs[w] == cs[1..][w - 1];
    }
  }

  lemma {:induction false} IdleHoldNothing(cs: seq<Consumer>, x: nat)
    requires forall w :: 0 <= w < |cs| ==> cs[w].Idle?
    ensures Held(cs, x) == 0
  {
    if cs != [] { IdleHoldNothing(cs[1..], x); }
  }

  ghost predicate Counted(cfg: Config, s: State) {
    && |s.consumers| == cfg.workers && s.read <= |cfg.file| && |s.batch| <= cfg.batchSize
    && |s.queueIn| <= cfg.Capacity() && |s.queueOut| <= cfg.Capacity()
    && s.unfinishedIn == |s.queueIn| + Busy(s.consumers)
    && s.unfinishedOut == |s.queueOut| + (if s.finalizer.Writing? then 1 else 0)
    && s.counter == |s.written| + |s.unwritten|
  }

  ghost predicate Phased(cfg: Config, s: State) {
    && (!s.phase.Producing? ==> s.read == |cfg.file| && s.batch == [] && s.unfinishedIn == 0)
    && (s.phase.Done? ==> s.unfinishedOut == 0)
  }

  ghost predicate Inv(cfg: Config, s: State) {
    OnePlace(s) && Counted(cfg, s) && Phased(cfg, s)
  }

  lemma {:induction false} StepKeepsCounts(cfg: Config, s: State, e: Event)
    requires cfg.Valid() && Counted(cfg, s) && Enabled(cfg, s, e)
    ensures Counted(cfg, Step(cfg, s, e))
  {
    var t := Step(cfg, s, e);
    match e
    case Take(w) => BusyUpdate(s.consumers, w, t.consumers[w]);
    case Finish(w, _) => BusyUpdate(s.consumers, w, t.consumers[w]);
    case PutOut(w) => BusyUpdate(s.consumers, w, t.consumers[w]);
    case _ =>
  }

  lemma {:induction false} StepKeepsPhases(cfg: Config, s: State, e: Event)
    requires Counted(cfg, s) && Phased(cfg, s) && Enabled(cfg, s, e)
    ensures Phased(cfg, Step(cfg, s, e))
  {
    NoneBusy(s.consumers);
  }

  lemma {:induction false} NothingHeldAtFirst(cfg: Config)
    ensures Inv(cfg, Init(cfg))
  {
    var s := Init(cfg);
    NoneBusy(s.consumers);
    forall x: nat ensures Places(s, x) == 0 { IdleHoldNothing(s.consumers, x); }
  }

  lemma {:induction false} EveryRunKeepsInv(cfg: Config, events: seq<Event>)
    requires cfg.Valid()
    ensures Inv(cfg, After(cfg, events))
  {
    if events == [] {
      NothingHeldAtFirst(cfg);
    } else {
      var s, e := After(cfg, events[..|events| - 1]), events[|events| - 1];
      EveryRunKeepsInv(cfg, events[..|events| - 1]);
      if Enabled(cfg, s, e) {
        StepKeepsOnePlace(cfg, s, e);
        StepKeepsCounts(cfg, s, e);
        StepKeepsPhases(cfg, s, e);
      }
    }
  }

  /** In every run, no queue ever holds more than two entries per consumer, and the consumers are as many
      as there are to be. */
  lemma {:induction false} QueuesAreBounded(cfg: Config, events: seq<Event>)
    ensures var s := After(cfg, events);
            |s.queueIn| <= 2 * cfg.workers && |s.queueOut| <= 2 * cfg.workers && |s.consumers| == cfg.workers
  {
    if events != [] { QueuesAreBounded(cfg, events[..|events| - 1]); }
  }

  // ---------- Conservation ----------

  /** Once both joins have returned, every line of the file is exactly one of written, failed to be
      written, and lost; nothing else was written; and the finalizer has counted all it was given. */
  lemma {:induction false} DoneConserves(cfg: Config, events: seq<Event>)
    requires cfg.Valid() && After(cfg, events).phase.Done?
    ensures var s := After(cfg, events);
            && (forall x: nat :: Outs(s.written, x) + s.unwritten[x] + s.lost[x] == if x < |cfg.file| then 1 else 0)
            && s.counter == |s.written| + |s.unwritten|
  {
    var s := After(cfg, events);
    EveryRunKeepsInv(cfg, events);
    NoneBusy(s.consumers);
    forall x: nat
      ensures Outs(s.written, x) + s.unwritten[x] + s.lost[x] == if x < |cfg.file| then 1 else 0
    {
      IdleHoldNothing(s.consumers, x);
      assert Places(s, x) == if x < s.read then 1 else 0;
    }
  }

  // ---------- Runs that lose nothing ----------

  /** Every line is JSON, no two requests have the same id, and every request has an input and can be
      merged with the others. Lines may still fail validation. */
  predicate CleanFile(kinds: map<string, Kind>, file: seq<BatchInputItem>) {
    && (forall i :: 0 <= i < |file| ==> !file[i].line.Unparseable?)
    && (forall i :: 0 <= i < |file| && file[i].line.Request? ==>
                      file[i].line.request.inputs != [] && AdaptiveBatching.Fits(kinds, file[i].line.request))
    && (forall i, j :: 0 <= i < j < |file| && file[i].line.Request? && file[j].line.Request? ==>
                         !SameId(file[i], file[j]))
  }

  /** Sending may fail, but the merged request can be encoded, and an answer can be decoded and split and
      has an output; writes do not fail. */
  predicate CleanEvent(e: Event) {
    match e
    case Finish(_, EncodingRaised) => false
    case Finish(_, DecodingRaised) => false
    case Finish(_, Answered(response)) => Splittable(response) && response.outputs != []
    case Write(ok) => ok
    case _ => true
  }

  predicate FromFile(file: seq<BatchInputItem>, items: seq<BatchInputItem>) {
    forall k :: 0 <= k < |items| ==> items[k].index < |file| && items[k] == file[items[k].index]
  }

  lemma {:induction false} CleanBatchMerges(
      kinds: map<string, Kind>, file: seq<BatchInputItem>, items: seq<BatchInputItem>)
    requires CleanFile(kinds, file) && FromFile(file, items)
    ensures Prepares(items)
  {
    var reqs := RequestsOf(items);
    RequestsAreDistinct(items);
    forall i | 0 <= i < |reqs| ensures AdaptiveBatching.Fits(kinds, reqs[i].value) {
      FindAt(reqs, i);
      CollectedUnder(items, reqs[i].key);
    }
    AdaptiveBatching.FittingRequestsMerge(kinds, reqs);
  }

  lemma {:induction false} CleanBatchLosesNothing(kinds: map<string, Kind>, file: seq<BatchInputItem>,
                               items: seq<BatchInputItem>, end: SendEnd)
    requires CleanFile(kinds, file) && FromFile(file, items) && NoRepeats(InputIndices(items))
    requires Delivers(end) && (end.Answered? ==> end.response.outputs != [])
    ensures Process(items, end).Some? && LostIn(items, end) == multiset{}
  {
    CleanBatchMerges(kinds, file, items);
    forall k: nat | k < |items| ensures AnswersItem(items, end, k) {
      if items[k].line.Request? {
        SameIndexSameItem(items, k, LastWith(items, EffectiveId(items[k])));
      }
    }
    BatchConservesExactly(items, end);
  }

  ghost predicate AllFromFile(file: seq<BatchInputItem>, s: State) {
    FromFile(file, s.batch) && QueueFromFile(file, s.queueIn) && ConsumersFromFile(file, s.consumers)
  }

  ghost predicate QueueFromFile(file: seq<BatchInputItem>, q: seq<seq<BatchInputItem>>) {
    forall i :: 0 <= i < |q| ==> FromFile(file, q[i])
  }

  ghost predicate ConsumersFromFile(file: seq<BatchInputItem>, cs: seq<Consumer>) {
    forall w :: 0 <= w < |cs| && cs[w].Working? ==> FromFile(file, cs[w].items)
  }

  lemma {:induction false} UpdateFromFile(file: seq<BatchInputItem>, cs: seq<Consumer>, w: nat, c: Consumer)
    requires ConsumersFromFile(file, cs) && w < |cs| && (c.Working? ==> FromFile(file, c.items))
    ensures ConsumersFromFile(file, cs[w := c])
  {
  }

  lemma {:induction false} StepKeepsFromFile(cfg: Config, s: State, e: Event)
    requires cfg.Valid() && AllFromFile(cfg.file, s) && Enabled(cfg, s, e)
    ensures AllFromFile(cfg.file, Step(cfg, s, e))
  {
    match e
    case Take(w) => UpdateFromFile(cfg.file, s.consumers, w, Working(s.queueIn[0]));
    case Finish(w, end) => UpdateFromFile(cfg.file, s.consumers, w, Step(cfg, s, e).consumers[w]);
    case PutOut(w) => UpdateFromFile(cfg.file, s.consumers, w, Idle);
    case _ =>
  }

  lemma {:induction false} CleanRunsLoseNothing(cfg: Config, kinds: map<string, Kind>, events: seq<Event>)
    requires cfg.Valid() && CleanFile(kinds, cfg.file)
    requires forall i :: 0 <= i < |events| ==> CleanEvent(events[i])
    ensures AllFromFile(cfg.file, After(cfg, events))
    ensures After(cfg, events).lost == multiset{} && After(cfg, events).unwritten == multiset{}
  {
    if events != [] {
      var n := |events| - 1;
      var s, e := After(cfg, events[..n]), events[n];
      CleanRunsLoseNothing(cfg, kinds, events[..n]);
      EveryRunKeepsInv(cfg, events[..n]);
      if Enabled(cfg, s, e) {
        StepKeepsFromFile(cfg, s, e);
        if e.Finish? {
          WorkingOnce(s, e.w);
          CleanBatchLosesNothing(kinds, cfg.file, s.consumers[e.w].items, e.end);
        }
      }
    }
  }

  /** 0, 1, ... n - 1 */
  function UpTo(n: nat): seq<nat> {
    seq(n, i requires 0 <= i => i as nat)
  }

  lemma {:induction false} CountOfAll(out: seq<BatchOutputItem>, n: nat)
    requires forall x: nat :: Outs(out, x) == if x < n then 1 else 0
    ensures |out| == n && multiset(OutputIndices(out)) == multiset(UpTo(n))
  {
    var indices := OutputIndices(out);
    forall x: nat ensures Outs(out, x) == multiset(UpTo(n))[x] {
      NoRepeatsCount(UpTo(n), x);
      if x < n { assert UpTo(n)[x] == x; }
    }
    assert multiset(indices) == multiset(UpTo(n));
    assert |multiset(indices)| == |indices| && |multiset(UpTo(n))| == n;
  }

  /** Offline pipeline conservation: for any number of lines and of workers and any batch size, when both
      joins have returned, the written indices are a permutation of `0..n-1` and the finalizer has
      counted `n`, although some lines may have failed validation and some sends may have failed. */
  lemma {:induction false} CleanRunsWriteEveryLineOnce(cfg: Config, kinds: map<string, Kind>, events: seq<Event>)
    requires cfg.Valid() && CleanFile(kinds, cfg.file)
    requires forall i :: 0 <= i < |events| ==> CleanEvent(events[i])
    requires After(cfg, events).phase.Done?
    ensures multiset(OutputIndices(After(cfg, events).written)) == multiset(UpTo(|cfg.file|))
    ensures After(cfg, events).counter == |cfg.file|
  {
    DoneConserves(cfg, events);
    CleanRunsLoseNothing(cfg, kinds, events);
    CountOfAll(After(cfg, events).written, |cfg.file|);
  }

  // ---------- The pipeline gets there ----------

  /** Until both joins have returned, some task can always go on. */
  lemma {:induction false} NeverStuck(cfg: Config, events: seq<Event>)
    requires cfg.Valid() && !After(cfg, events).phase.Done?
    ensures exists e :: Enabled(cfg, After(cfg, events), e)
  {
    var s := After(cfg, events);
    EveryRunKeepsInv(cfg, events);
    NoneBusy(s.consumers);
    if s.finalizer.Writing? {
      assert Enabled(cfg, s, if s.finalizer.rest == [] then FinishOut else Write(true));
    } else if s.queueOut != [] {
      assert Enabled(cfg, s, TakeOut);
    } else if w: nat :| w < |s.consumers| && !s.consumers[w].Idle? {
      assert Enabled(cfg, s, if s.consumers[w].Working? then Finish(w, SendRaised("")) else PutOut(w));
    } else if s.queueIn != [] {
      assert Enabled(cfg, s, Take(0));
    } else if s.phase.JoiningOut? {
      assert Enabled(cfg, s, JoinOut);
    } else if s.read < |cfg.file| && |s.batch| < cfg.batchSize {
      assert Enabled(cfg, s, ReadLine);
    } else {
      assert Enabled(cfg, s, if s.batch != [] then PutBatch else JoinIn);
    }
  }

  function InRank(q: seq<seq<BatchInputItem>>): nat {
    if q == [] then 0 else 5 * |q[0]| + 5 + InRank(q[1..])
  }

  function OutRank(q: seq<seq<BatchOutputItem>>): nat {
    if q == [] then 0 else 2 * |q[0]| + 2 + OutRank(q[1..])
  }

  function ConsumerRank(c: Consumer): nat {
    match c
    case Idle => 0
    case Working(items) => 4 * |items| + 4
    case Putting(out) => 3 * |out| + 3
  }

  function ConsumersRank(cs: seq<Consumer>): nat {
    if cs == [] then 0 else ConsumerRank(cs[0]) + ConsumersRank(cs[1..])
  }

  function PhaseRank(phase: Phase): nat {
    match phase
    case Producing => 2
    case JoiningOut => 1
    case Done => 0
  }

  /** How much is left to do. */
  function Rank(cfg: Config, s: State): nat
    requires s.read <= |cfg.file|
  {
    20 * (|cfg.file| - s.read) + 15 * |s.batch| + InRank(s.queueIn) + ConsumersRank(s.consumers)
    + OutRank(s.queueOut) + (if s.finalizer.Writing? then |s.finalizer.rest| + 1 else 0) + PhaseRank(s.phase)
  }

  lemma {:induction false} InRankSnoc(q: seq<seq<BatchInputItem>>, b: seq<BatchInputItem>)
    ensures InRank(q + [b]) == InRank(q) + 5 * |b| + 5
  {
    if q == [] {
      assert (q + [b])[1..] == [];
    } else {
      InRankSnoc(q[1..], b);
      assert (q + [b])[1..] == q[1..] + [b];
    }
  }

  lemma {:induction false} OutRankSnoc(q: seq<seq<BatchOutputItem>>, b: seq<BatchOutputItem>)
    ensures OutRank(q + [b]) == OutRank(q) + 2 * |b| + 2
  {
    if q == [] {
      assert (q + [b])[1..] == [];
    } else {
      OutRankSnoc(q[1..], b);
      assert (q + [b])[1..] == q[1..] + [b];
    }
  }

  lemma {:induction false} ConsumersRankUpdate(cs: seq<Consumer>, w: nat, c: Consumer)
    requires w < |cs|
    ensures ConsumersRank(cs[w := c]) + ConsumerRank(cs[w]) == ConsumersRank(cs) + ConsumerRank(c)
  {
    if w == 0 {
      assert cs[w := c][1..] == cs[1..];
    } else {
      ConsumersRankUpdate(cs[1..], w - 1, c);
      assert cs[w := c][1..] == cs[1..][w - 1 := c];
    }
  }

  lemma {:induction false} OutputIsNoLonger(items: seq<BatchInputItem>, end: SendEnd)
    requires NoRepeats(InputIndices(items)) && Process(items, end).Some?
    ensures |Process(items, end).value| <= |items|
  {
    BatchConservesExactly(items, end);
    var out := OutputIndices(Process(items, end).value);
    assert |multiset(out)| == |out| && |multiset(InputIndices(items))| == |items|;
    assert |multiset(out) + LostIn(items, end)| == |multiset(out)| + |LostIn(items, end)|;
  }

  /** ... and every step leaves less to do, so that no run goes on for ever. */
  lemma {:induction false} StepsGetThere(cfg: Config, events: seq<Event>, e: Event)
    requires cfg.Valid() && Enabled(cfg, After(cfg, events), e)
    ensures After(cfg, events).read <= |cfg.file| && Step(cfg, After(cfg, events), e).read <= |cfg.file|
    ensures Rank(cfg, Step(cfg, After(cfg, events), e)) < Rank(cfg, After(cfg, events))
  {
    EveryRunKeepsInv(cfg, events);
    StepLowersRank(cfg, After(cfg, events), e);
  }

  lemma {:induction false} FinishLowersRank(cfg: Config, s: State, w: nat, end: SendEnd)
    requires OnePlace(s) && s.read <= |cfg.file| && w < |s.consumers| && s.consumers[w].Working?
    ensures Rank(cfg, FinishBatch(s, w, end)) < Rank(cfg, s)
  {
    var items := s.consumers[w].items;
    ConsumersRankUpdate(s.consumers, w, FinishBatch(s, w, end).consumers[w]);
    WorkingOnce(s, w);
    if Process(items, end).Some? { OutputIsNoLonger(items, end); }
  }

  lemma {:induction false} StepLowersRank(cfg: Config, s: State, e: Event)
    requires OnePlace(s) && s.read <= |cfg.file| && Enabled(cfg, s, e)
    ensures Step(cfg, s, e).read <= |cfg.file| && Rank(cfg, Step(cfg, s, e)) < Rank(cfg, s)
  {
    var t := Step(cfg, s, e);
    match e
    case PutBatch => InRankSnoc(s.queueIn, s.batch);
    case Take(w) => ConsumersRankUpdate(s.consumers, w, t.consumers[w]);
    case Finish(w, end) => FinishLowersRank(cfg, s, w, end);
    case PutOut(w) =>
      ConsumersRankUpdate(s.consumers, w, t.consumers[w]);
      OutRankSnoc(s.queueOut, s.consumers[w].out);
    case _ =>
  }
}
