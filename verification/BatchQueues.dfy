/** mlserver/batch_processing.py:329-408, 481-482: both queues hand on what they are given in the order in which
    they are given it. */
module BatchQueues {
  import opened BatchItems
  import opened BatchPipeline
  import opened BatchTasks

  /** The batches that consumers have taken in a run. */
  function TakenIn(cfg: Config, events: seq<Event>): seq<seq<BatchInputItem>> {
    if events == [] then []
    else
      var n := |events| - 1;
      var s := After(cfg, events[..n]);
      TakenIn(cfg, events[..n]) + if events[n].Take? && Enabled(cfg, s, events[n]) then [s.queueIn[0]] else []
  }

  /** The outputs that consumers have put in a run. */
  function PutsOut(cfg: Config, events: seq<Event>): seq<seq<BatchOutputItem>> {
    if events == [] then []
    else
      var n := |events| - 1;
      var s := After(cfg, events[..n]);
      PutsOut(cfg, events[..n])
      + if events[n].PutOut? && Enabled(cfg, s, events[n]) then [s.consumers[events[n].w].out] else []
  }

  lemma {:induction false} Moves<T>(taken: seq<T>, queue: seq<T>)
    requires queue != []
    ensures (taken + [queue[0]]) + queue[1..] == taken + queue
  {
  }

  lemma {:induction false} Grows<T>(taken: seq<T>, queue: seq<T>, x: T)
    ensures taken + (queue + [x]) == (taken + queue) + [x]
  {
  }

  lemma {:induction false} NothingMore<T>(s: seq<T>)
    ensures s + [] == s
  {
  }

  lemma {:induction false} StepKeepsInputs(cfg: Config, s: State, e: Event, taken: seq<seq<BatchInputItem>>)
    requires Enabled(cfg, s, e)
    ensures (if e.Take? then taken + [s.queueIn[0]] else taken) + Step(cfg, s, e).queueIn
         == if e.PutBatch? then (taken + s.queueIn) + [s.batch] else taken + s.queueIn
  {
    if e.Take? { Moves(taken, s.queueIn); }
    if e.PutBatch? { Grows(taken, s.queueIn, s.batch); }
  }

  /** In every run, what the consumers have taken and what is queued are the batches that were put, in order. */
  lemma {:induction false} InputsAreFifo(cfg: Config, events: seq<Event>)
    ensures TakenIn(cfg, events) + After(cfg, events).queueIn == Puts(cfg, events)
  {
    if events != [] {
      var n := |events| - 1;
      var s, e := After(cfg, events[..n]), events[n];
      InputsAreFifo(cfg, events[..n]);
      NothingMore(TakenIn(cfg, events[..n]));
      NothingMore(Puts(cfg, events[..n]));
      if Enabled(cfg, s, e) { StepKeepsInputs(cfg, s, e, TakenIn(cfg, events[..n])); }
    }
  }

  lemma {:induction false} StepKeepsOutputs(cfg: Config, s: State, e: Event, taken: seq<seq<BatchOutputItem>>)
    requires Enabled(cfg, s, e)
    ensures (if e.TakeOut? then taken + [s.queueOut[0]] else taken) + Step(cfg, s, e).queueOut
         == if e.PutOut? then (taken + s.queueOut) + [s.consumers[e.w].out] else taken + s.queueOut
  {
    if e.TakeOut? { Moves(taken, s.queueOut); }
    if e.PutOut? { Grows(taken, s.queueOut, s.consumers[e.w].out); }
  }

  /** In every run, what the finalizer has taken and what is queued are the outputs that were put, in order. */
  lemma {:induction false} OutputsAreFifo(cfg: Config, events: seq<Event>)
    ensures TakenOut(cfg, events) + After(cfg, events).queueOut == PutsOut(cfg, events)
  {
    if events != [] {
      var n := |events| - 1;
      var s, e := After(cfg, events[..n]), events[n];
      OutputsAreFifo(cfg, events[..n]);
      NothingMore(TakenOut(cfg, events[..n]));
      NothingMore(PutsOut(cfg, events[..n]));
      if Enabled(cfg, s, e) { StepKeepsOutputs(cfg, s, e, TakenOut(cfg, events[..n])); }
    }
  }
}
