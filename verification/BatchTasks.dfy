/** mlserver/batch_processing.py:329-408 in its own form: the loops of the three tasks of the offline
    pipeline. A loop is followed by itself here: what it takes from a queue, how sending ends and which
    writes succeed come in as lists. That the tasks of every run of the pipeline do the same, whatever
    is interleaved, is proved beside each loop. */
module BatchTasks {
  import opened OrderedDict
  import opened Batching
  import opened BatchItems
  import opened BatchConservation
  import opened BatchPipeline

  function Joined<T>(parts: seq<seq<T>>): seq<T> {
    if parts == [] then [] else Joined(parts[..|parts| - 1]) + parts[|parts| - 1]
  }

  lemma {:induction false} JoinedSnoc<T>(parts: seq<seq<T>>, part: seq<T>)
    ensures Joined(parts + [part]) == Joined(parts) + part
  {
    assert (parts + [part])[..|parts|] == parts;
  }

  lemma {:induction false} JoinedOne<T>(part: seq<T>)
    ensures Joined([part]) == part
  {
    JoinedSnoc([], part);
    assert [] + [part] == [part];
  }

  lemma {:induction false} Regroup<T>(a: seq<T>, b: seq<T>, c: seq<T>)
    ensures (a + b) + c == a + (b + c)
  {
  }

  lemma {:induction false} JoinedCons<T>(part: seq<T>, parts: seq<seq<T>>)
    ensures Joined([part] + parts) == part + Joined(parts)
  {
    if parts == [] {
      JoinedOne(part);
      assert [part] + parts == [part] && part + [] == part;
    } else {
      var n := |parts| - 1;
      JoinedCons(part, parts[..n]);
      assert ([part] + parts)[..n + 1] == [part] + parts[..n];
      Regroup(part, Joined(parts[..n]), parts[n]);
    }
  }

  // ---------- produce ----------

  /** The lines of a file as items; an item's `uuid` is the one it will be given if it needs one. */
  function Numbered(lines: seq<Line>, uuids: seq<Id>): (items: seq<BatchInputItem>)
    requires |uuids| == |lines|
    ensures forall workers, size: nat :: workers >= 1 && size >= 1 ==> Config(items, workers, size).Valid()
  {
    seq(|lines|, i requires 0 <= i < |lines| => BatchInputItem(i, lines[i], uuids[i]))
  }

  /** A batch size of zero or less never fills, so that all lines make one batch. */
  function Cuts(items: seq<BatchInputItem>, size: int): seq<seq<BatchInputItem>> {
    if items == [] then []
    else if size <= 0 || |items| <= size then [items]
    else [items[..size]] + Cuts(items[size..], size)
  }

  /** No batch is empty, and all but the last are full. */
  predicate FullButLast(batches: seq<seq<BatchInputItem>>, size: int) {
    && (forall i :: 0 <= i < |batches| ==> batches[i] != [])
    && (size <= 0 ==> |batches| <= 1)
    && (size > 0 ==> forall i :: 0 <= i < |batches| ==> |batches[i]| <= size)
    && (size > 0 ==> forall i :: 0 <= i < |batches| - 1 ==> |batches[i]| == size)
  }

  lemma {:induction false} FullCons(first: seq<BatchInputItem>, rest: seq<seq<BatchInputItem>>, size: nat)
    requires size > 0 && rest != []
    ensures FullButLast([first] + rest, size) <==> |first| == size && FullButLast(rest, size)
  {
    var all := [first] + rest;
    assert all[0] == first;
    assert forall i :: 0 <= i < |rest| ==> rest[i] == all[i + 1];
    assert forall i :: 1 <= i < |all| ==> all[i] == rest[i - 1];
  }

  lemma {:induction false} CutsOnce(items: seq<BatchInputItem>, size: int)
    requires items != [] && (size <= 0 || |items| <= size)
    ensures Joined(Cuts(items, size)) == items && FullButLast(Cuts(items, size), size)
  {
    JoinedOne(items);
  }

  lemma {:induction false} CutsCons(items: seq<BatchInputItem>, size: nat)
    requires 0 < size < |items|
    requires Joined(Cuts(items[size..], size)) == items[size..] && FullButLast(Cuts(items[size..], size), size)
    ensures Joined(Cuts(items, size)) == items && FullButLast(Cuts(items, size), size)
  {
    var rest := Cuts(items[size..], size);
    JoinedCons(items[..size], rest);
    FullCons(items[..size], rest, size);
    assert items == items[..size] + items[size..];
  }

  lemma {:induction false} CutsAre(items: seq<BatchInputItem>, size: int)
    ensures Joined(Cuts(items, size)) == items && FullButLast(Cuts(items, size), size)
    decreases |items|
  {
    if 0 < size < |items| {
      CutsAre(items[size..], size);
      CutsCons(items, size);
    } else if items != [] {
      CutsOnce(items, size);
    }
  }

  lemma {:induction false} OnlyCuts(items: seq<BatchInputItem>, size: int, batches: seq<seq<BatchInputItem>>)
    requires Joined(batches) == items && FullButLast(batches, size)
    ensures batches == Cuts(items, size)
  {
    if batches != [] {
      var first, rest := batches[0], batches[1..];
      assert batches == [first] + rest;
      JoinedCons(first, rest);
      if rest == [] {
        assert items == first;
      } else {
        FullCons(first, rest, size);
        assert Joined(rest) != [] by { assert rest[|rest| - 1] != []; }
        assert items[..size] == first && items[size..] == Joined(rest);
        OnlyCuts(items[size..], size, rest);
      }
    }
  }

  /** The cuts of a file are the one list of non-empty batches that make up the file, of which all but
      the last are full. */
  lemma {:induction false} CutsExactly(items: seq<BatchInputItem>, size: int, batches: seq<seq<BatchInputItem>>)
    ensures batches == Cuts(items, size) <==> Joined(batches) == items && FullButLast(batches, size)
  {
    CutsAre(items, size);
    if Joined(batches) == items && FullButLast(batches, size) { OnlyCuts(items, size, batches); }
  }

  /** What the producer has put, and the batch in its hands. */
  ghost predicate Produces(items: seq<BatchInputItem>, size: int, puts: seq<seq<BatchInputItem>>,
                           batch: seq<BatchInputItem>)
  {
    && Joined(puts) + batch == items
    && (forall i :: 0 <= i < |puts| ==> |puts[i]| == size && size > 0)
    && (size > 0 ==> |batch| < size)
  }

  lemma {:induction false} OneMoreLine(items: seq<BatchInputItem>, size: int, puts: seq<seq<BatchInputItem>>,
                                       batch: seq<BatchInputItem>, item: BatchInputItem)
    requires Produces(items, size, puts, batch)
    ensures |batch| + 1 != size ==> Produces(items + [item], size, puts, batch + [item])
    ensures |batch| + 1 == size ==> Produces(items + [item], size, puts + [batch + [item]], [])
  {
    Regroup(Joined(puts), batch, [item]);
    if |batch| + 1 == size { OneMorePut(items + [item], size, puts, batch + [item]); }
  }

  lemma {:induction false} OneMorePut(items: seq<BatchInputItem>, size: nat, puts: seq<seq<BatchInputItem>>,
                                      batch: seq<BatchInputItem>)
    requires Joined(puts) + batch == items && |batch| == size > 0
    requires forall i :: 0 <= i < |puts| ==> |puts[i]| == size
    ensures Produces(items, size, puts + [batch], [])
  {
    JoinedSnoc(puts, batch);
    assert items + [] == items;
  }

  lemma {:induction false} LastLine(items: seq<BatchInputItem>, size: int, puts: seq<seq<BatchInputItem>>,
                                    batch: seq<BatchInputItem>)
    requires Produces(items, size, puts, batch)
    ensures Cuts(items, size) == if batch == [] then puts else puts + [batch]
  {
    JoinedSnoc(puts, batch);
    CutsExactly(items, size, if batch == [] then puts else puts + [batch]);
  }

  method Produce(lines: seq<Line>, uuids: seq<Id>, batchSize: int) returns (puts: seq<seq<BatchInputItem>>)
    requires |uuids| == |lines|
    ensures puts == Cuts(Numbered(lines, uuids), batchSize)
    ensures Joined(puts) == Numbered(lines, uuids) && FullButLast(puts, batchSize)
  {
    ghost var file := Numbered(lines, uuids);
    var batch: seq<BatchInputItem> := [];
    puts := [];
    for index := 0 to |lines|
      invariant Produces(file[..index], batchSize, puts, batch)
    {
      var item := BatchInputItem(index, lines[index], uuids[index]);
      OneMoreLine(file[..index], batchSize, puts, batch, item);
      assert file[..index + 1] == file[..index] + [item];
      batch := batch + [item];
      if |batch| == batchSize {
        puts := puts + [batch];
        batch := [];
      }
    }
    assert file[..|lines|] == file;
    LastLine(file, batchSize, puts, batch);
    if batch != [] { puts := puts + [batch]; }
    CutsExactly(file, batchSize, puts);
  }

  /** The batches put in a run. */
  function Puts(cfg: Config, events: seq<Event>): seq<seq<BatchInputItem>> {
    if events == [] then []
    else
      var n := |events| - 1;
      var s := After(cfg, events[..n]);
      Puts(cfg, events[..n]) + if events[n].PutBatch? && Enabled(cfg, s, events[n]) then [s.batch] else []
  }

  ghost predicate PutsInv(cfg: Config, s: State, puts: seq<seq<BatchInputItem>>) {
    && s.read <= |cfg.file| && Joined(puts) + s.batch == cfg.file[..s.read]
    && FullButLast(puts, cfg.batchSize) && |s.batch| <= cfg.batchSize
    && (s.read < |cfg.file| || s.batch != [] ==> forall i :: 0 <= i < |puts| ==> |puts[i]| == cfg.batchSize)
  }

  lemma {:induction false} ReadKeepsPuts(cfg: Config, s: State, puts: seq<seq<BatchInputItem>>)
    requires PutsInv(cfg, s, puts) && Enabled(cfg, s, ReadLine)
    ensures PutsInv(cfg, Step(cfg, s, ReadLine), puts)
  {
    var item := cfg.file[s.read];
    assert cfg.file[..s.read + 1] == cfg.file[..s.read] + [item];
    assert Joined(puts) + (s.batch + [item]) == (Joined(puts) + s.batch) + [item];
  }

  lemma {:induction false} FullSnoc(puts: seq<seq<BatchInputItem>>, batch: seq<BatchInputItem>, size: nat)
    requires FullButLast(puts, size) && batch != [] && 0 < |batch| <= size
    requires forall i :: 0 <= i < |puts| ==> |puts[i]| == size
    ensures FullButLast(puts + [batch], size)
  {
  }

  lemma {:induction false} PutKeepsPuts(cfg: Config, s: State, puts: seq<seq<BatchInputItem>>)
    requires PutsInv(cfg, s, puts) && Enabled(cfg, s, PutBatch)
    ensures PutsInv(cfg, Step(cfg, s, PutBatch), puts + [s.batch])
  {
    JoinedSnoc(puts, s.batch);
    FullSnoc(puts, s.batch, cfg.batchSize);
    assert Joined(puts + [s.batch]) + [] == cfg.file[..s.read];
  }

  lemma {:induction false} StepKeepsPuts(cfg: Config, s: State, e: Event, puts: seq<seq<BatchInputItem>>)
    requires PutsInv(cfg, s, puts) && Enabled(cfg, s, e)
    ensures PutsInv(cfg, Step(cfg, s, e), puts + if e.PutBatch? then [s.batch] else [])
  {
    assert puts + [] == puts;
    if e.ReadLine? { ReadKeepsPuts(cfg, s, puts); }
    if e.PutBatch? { PutKeepsPuts(cfg, s, puts); }
  }

  lemma {:induction false} EveryRunKeepsPuts(cfg: Config, events: seq<Event>)
    requires cfg.Valid()
    ensures PutsInv(cfg, After(cfg, events), Puts(cfg, events))
  {
    if events != [] {
      var n := |events| - 1;
      var s := After(cfg, events[..n]);
      EveryRunKeepsPuts(cfg, events[..n]);
      assert Puts(cfg, events[..n]) + [] == Puts(cfg, events[..n]);
      if Enabled(cfg, s, events[n]) { StepKeepsPuts(cfg, s, events[n], Puts(cfg, events[..n])); }
    }
  }

  lemma {:induction false} CutsAfterFull(puts: seq<seq<BatchInputItem>>, rest: seq<BatchInputItem>, size: nat)
    requires size > 0 && forall i :: 0 <= i < |puts| ==> |puts[i]| == size
    ensures puts <= Cuts(Joined(puts) + rest, size)
  {
    if puts != [] {
      var first, later := puts[0], puts[1..];
      assert puts == [first] + later;
      JoinedCons(first, later);
      CutsAfterFull(later, rest, size);
      var items := Joined(puts) + rest;
      assert items[..size] == first && items[size..] == Joined(later) + rest;
    }
  }

  /** In every run, whatever the other tasks do, the producer has put the first cuts of the file, and all
      of them when it is through. */
  lemma {:induction false} ProducerPutsCuts(cfg: Config, events: seq<Event>)
    requires cfg.Valid()
    ensures Puts(cfg, events) <= Cuts(cfg.file, cfg.batchSize)
    ensures !After(cfg, events).phase.Producing? ==> Puts(cfg, events) == Cuts(cfg.file, cfg.batchSize)
  {
    EveryRunKeepsPuts(cfg, events);
    ThroughMeansRead(cfg, events);
    PutsAreCuts(cfg, After(cfg, events), Puts(cfg, events));
  }

  lemma {:induction false} ThroughMeansRead(cfg: Config, events: seq<Event>)
    requires cfg.Valid()
    ensures var s := After(cfg, events); !s.phase.Producing? ==> s.read == |cfg.file| && s.batch == []
  {
    EveryRunKeepsInv(cfg, events);
  }

  lemma {:induction false} PutsAreCuts(cfg: Config, s: State, puts: seq<seq<BatchInputItem>>)
    requires cfg.Valid() && PutsInv(cfg, s, puts)
    ensures puts <= Cuts(cfg.file, cfg.batchSize)
    ensures s.read == |cfg.file| && s.batch == [] ==> puts == Cuts(cfg.file, cfg.batchSize)
  {
    if s.read == |cfg.file| && s.batch == [] {
      assert cfg.file[..s.read] == cfg.file;
      CutsExactly(cfg.file, cfg.batchSize, puts);
    } else {
      CutsAfterFull(puts, s.batch + cfg.file[s.read..], cfg.batchSize);
      UnreadFollows(Joined(puts), s.batch, cfg.file, s.read);
    }
  }

  lemma {:induction false} UnreadFollows<T>(put: seq<T>, batch: seq<T>, file: seq<T>, read: nat)
    requires read <= |file| && put + batch == file[..read]
    ensures put + (batch + file[read..]) == file
  {
    assert put + (batch + file[read..]) == (put + batch) + file[read..];
  }

  // ---------- consume ----------

  /** The outputs of the batches that do not raise, in order. */
  function Produced(batches: seq<seq<BatchInputItem>>, ends: seq<SendEnd>): seq<seq<BatchOutputItem>>
    requires |ends| == |batches|
  {
    if batches == [] then []
    else
      var n := |batches| - 1;
      var out := Process(batches[n], ends[n]);
      Produced(batches[..n], ends[..n]) + if out.Some? then [out.value] else []
  }

  function LostOf(batches: seq<seq<BatchInputItem>>, ends: seq<SendEnd>): multiset<nat>
    requires |ends| == |batches|
  {
    if batches == [] then multiset{}
    else
      var n := |batches| - 1;
      LostOf(batches[..n], ends[..n]) + LostIn(batches[n], ends[n])
  }

  lemma {:induction false} OneMoreBatch(batches: seq<seq<BatchInputItem>>, ends: seq<SendEnd>,
                                        items: seq<BatchInputItem>, end: SendEnd)
    requires |ends| == |batches|
    ensures Produced(batches + [items], ends + [end])
         == Produced(batches, ends) + if Process(items, end).Some? then [Process(items, end).value] else []
  {
    assert (batches + [items])[..|batches|] == batches && (ends + [end])[..|ends|] == ends;
  }

  function ProducedUpTo(batches: seq<seq<BatchInputItem>>, ends: seq<SendEnd>, i: nat): seq<seq<BatchOutputItem>>
    requires |ends| == |batches| && i <= |batches|
  {
    Produced(batches[..i], ends[..i])
  }

  lemma {:induction false} ProducedNext(batches: seq<seq<BatchInputItem>>, ends: seq<SendEnd>, i: nat)
    requires |ends| == |batches| && i < |batches|
    ensures var out := Process(batches[i], ends[i]);
            ProducedUpTo(batches, ends, i + 1)
            == if out.Some? then ProducedUpTo(batches, ends, i) + [out.value] else ProducedUpTo(batches, ends, i)
  {
    OneMoreBatch(batches[..i], ends[..i], batches[i], ends[i]);
    assert batches[..i + 1] == batches[..i] + [batches[i]] && ends[..i + 1] == ends[..i] + [ends[i]];
    assert ProducedUpTo(batches, ends, i) + [] == ProducedUpTo(batches, ends, i);
  }

  lemma {:induction false} ProducedAll(batches: seq<seq<BatchInputItem>>, ends: seq<SendEnd>)
    requires |ends| == |batches|
    ensures ProducedUpTo(batches, ends, |batches|) == Produced(batches, ends)
  {
    assert batches[..|batches|] == batches && ends[..|batches|] == ends;
  }

  lemma {:induction false} BatchConserves(items: seq<BatchInputItem>, end: SendEnd, x: nat)
    requires NoRepeats(InputIndices(items))
    ensures Ins(items, x)
         == (if Process(items, end).Some? then Outs(Process(items, end).value, x) else 0) + LostIn(items, end)[x]
  {
    if Process(items, end).Some? { BatchConservesExactly(items, end); }
  }

  /** No batch holds a line twice. */
  predicate EachOnce(batches: seq<seq<BatchInputItem>>) {
    forall i :: 0 <= i < |batches| ==> NoRepeats(InputIndices(batches[i]))
  }

  /** What a consumer is given is what it hands on, and what its batches lose. */
  lemma {:induction false} ConsumerConserves(batches: seq<seq<BatchInputItem>>, ends: seq<SendEnd>, x: nat)
    requires |ends| == |batches| && EachOnce(batches)
    ensures QueuedIn(batches, x) == QueuedOut(Produced(batches, ends), x) + LostOf(batches, ends)[x]
  {
    if batches != [] {
      var n := |batches| - 1;
      ConsumerConserves(batches[..n], ends[..n], x);
      BatchConserves(batches[n], ends[n], x);
      TakenCounts(batches, x);
      LostCounts(batches, ends, x);
      ProducedCounts(batches, ends, x);
    }
  }

  lemma {:induction false} TakenCounts(batches: seq<seq<BatchInputItem>>, x: nat)
    requires batches != []
    ensures QueuedIn(batches, x) == QueuedIn(batches[..|batches| - 1], x) + Ins(batches[|batches| - 1], x)
  {
    var n := |batches| - 1;
    assert batches == batches[..n] + [batches[n]];
    QueuedInSnoc(batches[..n], batches[n], x);
  }

  lemma {:induction false} LostCounts(batches: seq<seq<BatchInputItem>>, ends: seq<SendEnd>, x: nat)
    requires |ends| == |batches| > 0
    ensures var n := |batches| - 1;
            LostOf(batches, ends)[x] == LostOf(batches[..n], ends[..n])[x] + LostIn(batches[n], ends[n])[x]
  {
  }

  lemma {:induction false} ProducedCounts(batches: seq<seq<BatchInputItem>>, ends: seq<SendEnd>, x: nat)
    requires |ends| == |batches| > 0
    ensures var n := |batches| - 1;
            var out := Process(batches[n], ends[n]);
            QueuedOut(Produced(batches, ends), x)
            == QueuedOut(Produced(batches[..n], ends[..n]), x) + if out.Some? then Outs(out.value, x) else 0
  {
    var n := |batches| - 1;
    var before, out := Produced(batches[..n], ends[..n]), Process(batches[n], ends[n]);
    if out.Some? { QueuedOutSnoc(before, out.value, x); } else { assert before + [] == before; }
  }

  lemma {:induction false} ConsumerConservesAll(batches: seq<seq<BatchInputItem>>, ends: seq<SendEnd>)
    requires |ends| == |batches| && EachOnce(batches)
    ensures forall x: nat :: QueuedIn(batches, x) == QueuedOut(Produced(batches, ends), x) + LostOf(batches, ends)[x]
  {
    forall x: nat ensures QueuedIn(batches, x) == QueuedOut(Produced(batches, ends), x) + LostOf(batches, ends)[x] {
      ConsumerConserves(batches, ends, x);
    }
  }

  /** Until it is cancelled: every batch taken is counted off once, whether it raises or not. */
  method Consume(batches: seq<seq<BatchInputItem>>, uuids: seq<Id>, ends: seq<SendEnd>)
    returns (puts: seq<seq<BatchOutputItem>>, done: nat)
    requires |ends| == |uuids| == |batches|
    ensures puts == Produced(batches, ends) && done == |batches|
    ensures EachOnce(batches) ==>
              forall x: nat :: QueuedIn(batches, x) == QueuedOut(puts, x) + LostOf(batches, ends)[x]
  {
    puts, done := [], 0;
    for i := 0 to |batches|
      invariant puts == ProducedUpTo(batches, ends, i) && done == i
    {
      ProducedNext(batches, ends, i);
      var out := ProcessItems(batches[i], uuids[i], ends[i]);
      if out.None? {
        done := done + 1;
        continue;
      }
      puts := puts + [out.value];
      done := done + 1;
    }
    ProducedAll(batches, ends);
    if EachOnce(batches) { ConsumerConservesAll(batches, ends); }
  }

  /** The batches consumer `w` has finished in a run, how sending ended for them, and what it has put. */
  function Finished(cfg: Config, events: seq<Event>, w: nat): seq<seq<BatchInputItem>> {
    if events == [] then []
    else
      var n := |events| - 1;
      var s := After(cfg, events[..n]);
      Finished(cfg, events[..n], w)
      + if events[n].Finish? && events[n].w == w && Enabled(cfg, s, events[n]) then [s.consumers[w].items] else []
  }

  function Ends(cfg: Config, events: seq<Event>, w: nat): (r: seq<SendEnd>)
    ensures |r| == |Finished(cfg, events, w)|
  {
    if events == [] then []
    else
      var n := |events| - 1;
      var s := After(cfg, events[..n]);
      Ends(cfg, events[..n], w)
      + if events[n].Finish? && events[n].w == w && Enabled(cfg, s, events[n]) then [events[n].end] else []
  }

  function PutBy(cfg: Config, events: seq<Event>, w: nat): seq<seq<BatchOutputItem>> {
    if events == [] then []
    else
      var n := |events| - 1;
      var s := After(cfg, events[..n]);
      PutBy(cfg, events[..n], w)
      + if events[n].PutOut? && events[n].w == w && Enabled(cfg, s, events[n]) then [s.consumers[w].out] else []
  }

  /** What the consumer is about to put. */
  function InHand(s: State, w: nat): seq<seq<BatchOutputItem>>
    requires w < |s.consumers|
  {
    if s.consumers[w].Putting? then [s.consumers[w].out] else []
  }

  lemma {:induction false} StepInHand(cfg: Config, s: State, e: Event, w: nat)
    requires Enabled(cfg, s, e) && w < |s.consumers|
    ensures |Step(cfg, s, e).consumers| == |s.consumers|
    ensures var t := Step(cfg, s, e);
            if e.Finish? && e.w == w then
              var out := Process(s.consumers[w].items, e.end);
              InHand(s, w) == [] && InHand(t, w) == if out.Some? then [out.value] else []
            else if e.PutOut? && e.w == w then InHand(s, w) == [s.consumers[w].out] && InHand(t, w) == []
            else InHand(t, w) == InHand(s, w)
  {
  }

  lemma {:induction false} ConsumersStay(cfg: Config, events: seq<Event>)
    ensures |After(cfg, events).consumers| == cfg.workers
  {
    if events != [] { ConsumersStay(cfg, events[..|events| - 1]); }
  }

  /** In every run, each consumer has put, or is about to put, what its loop puts for the batches it has
      finished. */
  lemma {:induction false} ConsumerRunsItsLoop(cfg: Config, events: seq<Event>, w: nat)
    requires w < cfg.workers
    ensures |After(cfg, events).consumers| == cfg.workers
    ensures PutBy(cfg, events, w) + InHand(After(cfg, events), w)
         == Produced(Finished(cfg, events, w), Ends(cfg, events, w))
  {
    ConsumersStay(cfg, events);
    if events != [] {
      var n := |events| - 1;
      var s, e := After(cfg, events[..n]), events[n];
      ConsumerRunsItsLoop(cfg, events[..n], w);
      var finished, ends, puts := Finished(cfg, events[..n], w), Ends(cfg, events[..n], w), PutBy(cfg, events[..n], w);
      assert finished + [] == finished && ends + [] == ends && puts + [] == puts;
      if Enabled(cfg, s, e) {
        StepInHand(cfg, s, e, w);
        if e.Finish? && e.w == w { OneMoreBatch(finished, ends, s.consumers[w].items, e.end); }
      }
    }
  }

  // ---------- finalize ----------

  /** The items whose write succeeds, in order. */
  function Kept(items: seq<BatchOutputItem>, oks: seq<bool>): seq<BatchOutputItem>
    requires |oks| == |items|
  {
    if items == [] then []
    else
      var n := |items| - 1;
      Kept(items[..n], oks[..n]) + if oks[n] then [items[n]] else []
  }

  lemma {:induction false} AllKept(items: seq<BatchOutputItem>, oks: seq<bool>)
    requires |oks| == |items| && forall i :: 0 <= i < |oks| ==> oks[i]
    ensures Kept(items, oks) == items
  {
    if items != [] {
      AllKept(items[..|items| - 1], oks[..|items| - 1]);
      assert items == items[..|items| - 1] + [items[|items| - 1]];
    }
  }

  lemma {:induction false} OneMoreKept(items: seq<BatchOutputItem>, oks: seq<bool>, item: BatchOutputItem, ok: bool)
    requires |oks| == |items|
    ensures Kept(items + [item], oks + [ok]) == Kept(items, oks) + if ok then [item] else []
  {
    assert (items + [item])[..|items|] == items && (oks + [ok])[..|oks|] == oks;
  }

  /** What the finalizer has done with the first items it was given. */
  ghost predicate WrittenUpTo(items: seq<BatchOutputItem>, oks: seq<bool>, n: nat, written: seq<BatchOutputItem>) {
    n <= |items| == |oks| && written == Kept(items[..n], oks[..n])
  }

  lemma {:induction false} OneMoreWritten(items: seq<BatchOutputItem>, oks: seq<bool>, n: nat,
                                          written: seq<BatchOutputItem>)
    requires WrittenUpTo(items, oks, n, written) && n < |items|
    ensures WrittenUpTo(items, oks, n + 1, written + if oks[n] then [items[n]] else [])
  {
    assert items[..n + 1] == items[..n] + [items[n]] && oks[..n + 1] == oks[..n] + [oks[n]];
    OneMoreKept(items[..n], oks[..n], items[n], oks[n]);
  }

  lemma {:induction false} JoinedAt<T>(parts: seq<seq<T>>, i: nat, j: nat)
    requires i < |parts| && j < |parts[i]|
    ensures |Joined(parts[..i])| + j < |Joined(parts)|
    ensures Joined(parts)[|Joined(parts[..i])| + j] == parts[i][j]
    ensures |Joined(parts[..i + 1])| == |Joined(parts[..i])| + |parts[i]|
  {
    assert parts[..i + 1][..i] == parts[..i];
    var n := |parts| - 1;
    if i < n {
      assert parts[..n][..i] == parts[..i];
      JoinedAt(parts[..n], i, j);
    } else {
      assert parts[..i + 1] == parts;
    }
  }

  /** Until it is cancelled: every item is counted, also when its write raises, and every batch taken is
      counted off once. */
  method Finalize(batches: seq<seq<BatchOutputItem>>, oks: seq<bool>)
    returns (written: seq<BatchOutputItem>, counter: nat, done: nat)
    requires |oks| == |Joined(batches)|
    ensures written == Kept(Joined(batches), oks)
    ensures counter == |Joined(batches)| && done == |batches|
    ensures (forall i :: 0 <= i < |oks| ==> oks[i]) ==> written == Joined(batches)
  {
    ghost var items := Joined(batches);
    written, counter, done := [], 0, 0;
    for i := 0 to |batches|
      invariant counter == |Joined(batches[..i])| && done == i
      invariant WrittenUpTo(items, oks, counter, written)
    {
      ghost var before := |Joined(batches[..i])|;
      assert batches[..i + 1][..i] == batches[..i];
      for j := 0 to |batches[i]|
        invariant counter == before + j
        invariant WrittenUpTo(items, oks, counter, written)
      {
        JoinedAt(batches, i, j);
        OneMoreWritten(items, oks, counter, written);
        if oks[counter] { written := written + [batches[i][j]]; }
        counter := counter + 1;
      }
      done := done + 1;
    }
    assert batches[..|batches|] == batches && items[..|items|] == items && oks[..|oks|] == oks;
    if forall i :: 0 <= i < |oks| ==> oks[i] { AllKept(items, oks); }
  }

  /** The batches the finalizer has taken in a run, and which of its writes succeeded. */
  function TakenOut(cfg: Config, events: seq<Event>): seq<seq<BatchOutputItem>> {
    if events == [] then []
    else
      var n := |events| - 1;
      var s := After(cfg, events[..n]);
      TakenOut(cfg, events[..n]) + if events[n].TakeOut? && Enabled(cfg, s, events[n]) then [s.queueOut[0]] else []
  }

  function Oks(cfg: Config, events: seq<Event>): seq<bool> {
    if events == [] then []
    else
      var n := |events| - 1;
      Oks(cfg, events[..n])
      + if events[n].Write? && Enabled(cfg, After(cfg, events[..n]), events[n]) then [events[n].ok] else []
  }

  ghost predicate FinalizerInv(s: State, taken: seq<BatchOutputItem>, oks: seq<bool>) {
    && s.counter == |oks| <= |taken|
    && s.written == Kept(taken[..|oks|], oks)
    && taken[|oks|..] == if s.finalizer.Writing? then s.finalizer.rest else []
  }

  lemma {:induction false} TakeKeepsFinalizer(s: State, t: State, taken: seq<BatchOutputItem>, oks: seq<bool>,
                                              batch: seq<BatchOutputItem>)
    requires FinalizerInv(s, taken, oks) && s.finalizer.Waiting?
    requires t.finalizer == Writing(batch) && t.counter == s.counter && t.written == s.written
    ensures FinalizerInv(t, taken + batch, oks)
  {
    assert (taken + batch)[..|oks|] == taken[..|oks|];
    assert (taken + batch)[|oks|..] == taken[|oks|..] + batch;
  }

  lemma {:induction false} WriteKeepsFinalizer(s: State, taken: seq<BatchOutputItem>, oks: seq<bool>, ok: bool)
    requires FinalizerInv(s, taken, oks) && s.finalizer.Writing? && s.finalizer.rest != []
    ensures FinalizerInv(WriteItem(s, ok), taken, oks + [ok])
  {
    var n := |oks|;
    assert taken[n] == taken[n..][0] && taken[..n + 1] == taken[..n] + [taken[n]];
    assert taken[n + 1..] == taken[n..][1..];
    OneMoreKept(taken[..n], oks, taken[n], ok);
  }

  lemma {:induction false} StepKeepsFinalizer(cfg: Config, s: State, e: Event, taken: seq<seq<BatchOutputItem>>,
                                              oks: seq<bool>)
    requires FinalizerInv(s, Joined(taken), oks) && Enabled(cfg, s, e)
    ensures FinalizerInv(Step(cfg, s, e), Joined(if e.TakeOut? then taken + [s.queueOut[0]] else taken),
                         if e.Write? then oks + [e.ok] else oks)
  {
    match e
    case TakeOut =>
      JoinedSnoc(taken, s.queueOut[0]);
      TakeKeepsFinalizer(s, Step(cfg, s, e), Joined(taken), oks, s.queueOut[0]);
    case Write(ok) => WriteKeepsFinalizer(s, Joined(taken), oks, ok);
    case _ =>
  }

  /** In every run, what is written is what the finalizer's loop writes of the items it has come to, in
      the order it was given them; the others are in its hands. */
  lemma {:induction false} FinalizerRunsItsLoop(cfg: Config, events: seq<Event>)
    ensures FinalizerInv(After(cfg, events), Joined(TakenOut(cfg, events)), Oks(cfg, events))
  {
    if events != [] {
      var n := |events| - 1;
      var s, e := After(cfg, events[..n]), events[n];
      var taken, oks := TakenOut(cfg, events[..n]), Oks(cfg, events[..n]);
      FinalizerRunsItsLoop(cfg, events[..n]);
      assert taken + [] == taken && oks + [] == oks;
      if Enabled(cfg, s, e) { StepKeepsFinalizer(cfg, s, e, taken, oks); }
    }
  }
}
