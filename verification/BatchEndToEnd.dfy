/** The offline pipeline from line to line: what is written for a line is that line's own answer. */
module BatchEndToEnd {
  import opened OrderedDict
  import opened Batching
  import opened Transparency
  import opened BatchItems
  import opened BatchConservation
  import opened BatchAnswers
  import opened BatchPipeline
  import AdaptiveBatching

  /** The output of a line is its own validation error, or an inference error, or the model's response
      to its own request alone. */
  ghost predicate IsOwn(m: RowModel, file: seq<BatchInputItem>, o: BatchOutputItem)
    requires FillsItsHeads(m)
  {
    && o.index < |file|
    && match file[o.index].line
       case Invalid(error) => o.body == ValidationFailure(error)
       case Request(_) =>
         o.body.InferenceFailure? || (o.body.Response? && IsOwnAnswer(m, file[o.index], o.body.response))
       case Unparseable(_) => false
  }

  ghost predicate AllOwn(m: RowModel, file: seq<BatchInputItem>, out: seq<BatchOutputItem>)
    requires FillsItsHeads(m)
  {
    forall i :: 0 <= i < |out| ==> IsOwn(m, file, out[i])
  }

  // ---------- One batch ----------

  /** Answers are what the row model predicts for the merged request, whose parts are of one schema. */
  ghost predicate HonestEnd(m: RowModel, items: seq<BatchInputItem>, end: SendEnd)
    requires FillsItsHeads(m)
  {
    end.Answered? && RequestsOf(items) != [] ==>
      && Compatible(RequestsOf(items)) && m.heads(SchemaOf(RequestsOf(items)[0].value)) != []
      && Mergeable(RequestsOf(items)) && Uniform(Merged(RequestsOf(items)))
      && end.response == Predict(m, Merged(RequestsOf(items)))
  }

  lemma {:induction false} InvalidAreOwn(m: RowModel, file: seq<BatchInputItem>, items: seq<BatchInputItem>)
    requires FillsItsHeads(m) && FromFile(file, items)
    ensures AllOwn(m, file, InvalidInputs(items))
  {
    if items != [] { InvalidAreOwn(m, file, items[..|items| - 1]); }
  }

  lemma {:induction false} FailuresAreOwn(
      m: RowModel, file: seq<BatchInputItem>, items: seq<BatchInputItem>, error: string)
    requires FillsItsHeads(m) && FromFile(file, items)
    ensures AllOwn(m, file, FailedResults(ItemIndices(items), error))
  {
    var indices := ItemIndices(items);
    RequestsAreDistinct(items);
    forall i | 0 <= i < |indices| ensures IsOwn(m, file, FailedResults(indices, error)[i]) {
      CollectedUnder(items, indices[i].key);
      FindAt(indices, i);
    }
  }

  lemma {:induction false} AnswersAreOwn(m: RowModel, file: seq<BatchInputItem>, items: seq<BatchInputItem>)
    requires FillsItsHeads(m) && FromFile(file, items)
    requires Compatible(RequestsOf(items)) && m.heads(SchemaOf(RequestsOf(items)[0].value)) != []
    ensures AllKnown(ItemIndices(items), Alone(m, RequestsOf(items)))
    ensures AllOwn(m, file, OutputItems(ItemIndices(items), Alone(m, RequestsOf(items))))
  {
    var reqs := RequestsOf(items);
    var alone := Alone(m, reqs);
    forall i | 0 <= i < |alone|
      ensures Has(ItemIndices(items), alone[i].key)
      ensures IsOwn(m, file, BatchOutputItem(Get(ItemIndices(items), alone[i].key), Response(alone[i].value)))
    {
      CollectedUnder(items, reqs[i].key);
      FindAt(reqs, i);
      IdentifiedAnswers(m, items[LastWith(items, reqs[i].key)]);
    }
  }

  lemma {:induction false} OwnConcat(m: RowModel, file: seq<BatchInputItem>,
                                     a: seq<BatchOutputItem>, b: seq<BatchOutputItem>)
    requires FillsItsHeads(m) && AllOwn(m, file, a) && AllOwn(m, file, b)
    ensures AllOwn(m, file, a + b)
  {
  }

  lemma {:induction false} OutputIsOwn(m: RowModel, file: seq<BatchInputItem>, items: seq<BatchInputItem>, end: SendEnd)
    requires FillsItsHeads(m) && FromFile(file, items) && HonestEnd(m, items, end) && Process(items, end).Some?
    ensures AllOwn(m, file, Process(items, end).value)
  {
    InvalidAreOwn(m, file, items);
    if |InvalidInputs(items)| != |items| {
      match end
      case SendRaised(error) =>
        FailuresAreOwn(m, file, items, error);
        OwnConcat(m, file, FailedResults(ItemIndices(items), error), InvalidInputs(items));
      case Answered(response) =>
        PartsAreKnown(items, response);
        var parts := AdaptiveBatching.PartsOf(RequestsOf(items), response);
        if RequestsOf(items) != [] {
          BatchingIsTransparent(m, RequestsOf(items));
          assert parts == Alone(m, RequestsOf(items));
          AnswersAreOwn(m, file, items);
        } else {
          NoPartsOfNothing(response);
        }
        OwnConcat(m, file, OutputItems(ItemIndices(items), parts), InvalidInputs(items));
    }
  }

  lemma {:induction false} NoPartsOfNothing(response: InferenceResponse)
    requires Mergeable([]) && Splittable(response)
    ensures AdaptiveBatching.PartsOf([], response) == []
  {
    assert Sizes([]) == [];
  }

  // ---------- Runs ----------

  ghost predicate HonestRun(cfg: Config, m: RowModel, events: seq<Event>)
    requires FillsItsHeads(m)
  {
    events != [] ==>
      var s, e := After(cfg, events[..|events| - 1]), events[|events| - 1];
      && HonestRun(cfg, m, events[..|events| - 1])
      && (Enabled(cfg, s, e) && e.Finish? ==> HonestEnd(m, s.consumers[e.w].items, e.end))
  }

  ghost predicate QueueOwn(m: RowModel, file: seq<BatchInputItem>, q: seq<seq<BatchOutputItem>>)
    requires FillsItsHeads(m)
  {
    forall i :: 0 <= i < |q| ==> AllOwn(m, file, q[i])
  }

  ghost predicate ConsumersOwn(m: RowModel, file: seq<BatchInputItem>, cs: seq<Consumer>)
    requires FillsItsHeads(m)
  {
    forall w :: 0 <= w < |cs| && cs[w].Putting? ==> AllOwn(m, file, cs[w].out)
  }

  ghost predicate OwnInv(m: RowModel, file: seq<BatchInputItem>, s: State)
    requires FillsItsHeads(m)
  {
    && ConsumersOwn(m, file, s.consumers) && QueueOwn(m, file, s.queueOut)
    && (s.finalizer.Writing? ==> AllOwn(m, file, s.finalizer.rest)) && AllOwn(m, file, s.written)
  }

  lemma {:induction false} UpdateOwn(m: RowModel, file: seq<BatchInputItem>, cs: seq<Consumer>, w: nat, c: Consumer)
    requires FillsItsHeads(m) && ConsumersOwn(m, file, cs) && w < |cs| && (c.Putting? ==> AllOwn(m, file, c.out))
    ensures ConsumersOwn(m, file, cs[w := c])
  {
  }

  lemma {:induction false} StepKeepsOwn(cfg: Config, m: RowModel, s: State, e: Event)
    requires FillsItsHeads(m) && OwnInv(m, cfg.file, s) && AllFromFile(cfg.file, s) && Enabled(cfg, s, e)
    requires e.Finish? ==> HonestEnd(m, s.consumers[e.w].items, e.end)
    ensures OwnInv(m, cfg.file, Step(cfg, s, e))
  {
    match e
    case Take(w) => UpdateOwn(m, cfg.file, s.consumers, w, Working(s.queueIn[0]));
    case Finish(w, end) =>
      var items := s.consumers[w].items;
      if Process(items, end).Some? { OutputIsOwn(m, cfg.file, items, end); }
      UpdateOwn(m, cfg.file, s.consumers, w, Step(cfg, s, e).consumers[w]);
    case PutOut(w) => UpdateOwn(m, cfg.file, s.consumers, w, Idle);
    case Write(ok) => OwnConcat(m, cfg.file, s.written, [s.finalizer.rest[0]]);
    case _ =>
  }

  lemma {:induction false} HonestRunsWriteOwn(cfg: Config, m: RowModel, events: seq<Event>)
    requires cfg.Valid() && FillsItsHeads(m) && HonestRun(cfg, m, events)
    ensures AllFromFile(cfg.file, After(cfg, events)) && OwnInv(m, cfg.file, After(cfg, events))
  {
    if events != [] {
      var s, e := After(cfg, events[..|events| - 1]), events[|events| - 1];
      HonestRunsWriteOwn(cfg, m, events[..|events| - 1]);
      if Enabled(cfg, s, e) {
        StepKeepsFromFile(cfg, s, e);
        StepKeepsOwn(cfg, m, s, e);
      }
    }
  }

  /** From line to line, over every interleaving of producer, consumers and finalizer: at every moment,
      whatever has been written for a line is that line's own validation error, an inference error, or
      the response the model gives to that line's request alone; and once both joins have returned in a
      run that loses nothing, every line has been written for exactly once. */
  lemma {:induction false} EveryLineGetsItsOwnAnswer(
      cfg: Config, m: RowModel, kinds: map<string, Kind>, events: seq<Event>)
    requires cfg.Valid() && FillsItsHeads(m) && HonestRun(cfg, m, events)
    ensures forall i :: 0 <= i < |After(cfg, events).written| ==> IsOwn(m, cfg.file, After(cfg, events).written[i])
    ensures && After(cfg, events).phase.Done? && CleanFile(kinds, cfg.file)
            && (forall i :: 0 <= i < |events| ==> CleanEvent(events[i])) ==>
              multiset(OutputIndices(After(cfg, events).written)) == multiset(UpTo(|cfg.file|))
  {
    HonestRunsWriteOwn(cfg, m, events);
    if && After(cfg, events).phase.Done? && CleanFile(kinds, cfg.file)
       && (forall i :: 0 <= i < |events| ==> CleanEvent(events[i])) {
      CleanRunsWriteEveryLineOnce(cfg, kinds, events);
    }
  }
}
