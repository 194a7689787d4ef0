/** Embedding a list of texts in batches no larger than the provider allows. Costs are real
    numbers, so adding them up does not round. */
module EmbeddingBatch {
  import opened Wrappers

  datatype Embedding = Embedding(index: int, vector: seq<real>)

  datatype Usage = Usage(tokens: int, cost: real)

  datatype Response = Response(embeddings: seq<Embedding>, model: string, usage: Usage)

  /** What the embed function returns; the response may be missing. */
  datatype Reply = Reply(response: Option<Response>, error: Option<string>)

  /** The embed function, which is told where the texts of a request begin so that it may answer
      every batch as it likes. */
  type EmbedFn = (nat, seq<string>) -> Reply

  datatype BatchError =
    | MissingFunction
    | CallerCanceled
    | BatchFailed(start: nat, end: nat, message: string)
    | DirectFailed(message: string)

  const NO_USAGE := Usage(0, 0.0)

  function Plus(a: Usage, b: Usage): Usage {
    Usage(a.tokens + b.tokens, a.cost + b.cost)
  }

  function Shifted(es: seq<Embedding>, start: int): seq<Embedding> {
    if es == [] then []
    else
      var last := es[|es| - 1];
      Shifted(es[..|es| - 1], start) + [last.(index := last.index + start)]
  }

  function BatchSize(max: int, total: nat): (n: nat)
    ensures n > 0
  {
    if max > 0 then max else if total == 0 then 1 else total
  }

  function Min(a: nat, b: nat): nat {
    if a <= b then a else b
  }

  // ---- what a run of batches comes to ----

  /** The embeddings and usage gathered, the progress reported, where the run stopped, and why. */
  datatype Run = Run(embeddings: seq<Embedding>, usage: Usage, progress: seq<(nat, nat)>, stopped: nat, err: Option<BatchError>)

  function AddedEmbeddings(r: Reply, start: nat): seq<Embedding> {
    if r.response.Some? then Shifted(r.response.value.embeddings, start) else []
  }

  function AddedUsage(r: Reply): Usage {
    if r.response.Some? then r.response.value.usage else NO_USAGE
  }

  /** The batches from start on. */
  function From(f: EmbedFn, texts: seq<string>, size: nat, cancelled: nat -> bool, start: nat): Run
    requires size > 0 && start <= |texts|
    decreases |texts| - start
  {
    if start == |texts| then Run([], NO_USAGE, [], start, None)
    else if cancelled(start) then Run([], NO_USAGE, [], start, Some(CallerCanceled))
    else
      var end := Min(start + size, |texts|);
      var r := f(start, texts[start..end]);
      if r.error.Some? then Run([], NO_USAGE, [], start, Some(BatchFailed(start, end, r.error.value)))
      else
        Before(r, start, end, |texts|, From(f, texts, size, cancelled, end))
  }

  /** One successful batch and the rest of the run. */
  function Before(r: Reply, start: nat, end: nat, total: nat, rest: Run): Run {
    Run(AddedEmbeddings(r, start) + rest.embeddings, Plus(AddedUsage(r), rest.usage),
        [(end, total)] + rest.progress, rest.stopped, rest.err)
  }

  /** The batch at start could be embedded. */
  predicate Succeeds(f: EmbedFn, texts: seq<string>, size: nat, cancelled: nat -> bool, start: nat)
    requires start < |texts|
  {
    !cancelled(start) && f(start, texts[start..Min(start + size, |texts|)]).error.None?
  }

  lemma FromStep(f: EmbedFn, texts: seq<string>, size: nat, cancelled: nat -> bool, start: nat)
    requires size > 0 && start < |texts|
    ensures var end := Min(start + size, |texts|);
            var r := From(f, texts, size, cancelled, start);
            if Succeeds(f, texts, size, cancelled, start)
            then r == Before(f(start, texts[start..end]), start, end, |texts|, From(f, texts, size, cancelled, end))
            else r.embeddings == [] && r.usage == NO_USAGE && r.progress == [] && r.stopped == start && r.err.Some?
  {
  }

  /** A run stops at the end exactly when it has no error. */
  lemma {:induction false} StopsInside(f: EmbedFn, texts: seq<string>, size: nat, cancelled: nat -> bool, start: nat)
    requires size > 0 && start <= |texts|
    ensures var r := From(f, texts, size, cancelled, start);
            start <= r.stopped <= |texts| && (r.err.None? <==> r.stopped == |texts|)
    decreases |texts| - start
  {
    if start < |texts| {
      StopsInside(f, texts, size, cancelled, Min(start + size, |texts|));
    }
  }

  /** The number of texts done after report i, if reporting began at start. */
  function DoneAfter(progress: seq<(nat, nat)>, start: nat, i: nat): nat
    requires i <= |progress|
  {
    if i == 0 then start else progress[i - 1].0
  }

  /** Report i is one batch further than the one before. */
  predicate ClimbsAt(progress: seq<(nat, nat)>, start: nat, size: nat, total: nat, i: nat)
    requires i < |progress|
  {
    var done := DoneAfter(progress, start, i);
    done < total && progress[i] == (Min(done + size, total), total)
  }

  /** All reports climb, and the last one is at stopped. */
  ghost predicate Climbs(progress: seq<(nat, nat)>, start: nat, size: nat, total: nat, stopped: nat) {
    && DoneAfter(progress, start, |progress|) == stopped
    && forall i :: 0 <= i < |progress| ==> ClimbsAt(progress, start, size, total, i)
  }

  lemma ClimbsFromBefore(rest: seq<(nat, nat)>, start: nat, end: nat, size: nat, total: nat, stopped: nat)
    requires start < total && end == Min(start + size, total) && Climbs(rest, end, size, total, stopped)
    ensures Climbs([(end, total)] + rest, start, size, total, stopped)
  {
    var all := [(end, total)] + rest;
    forall i | 0 <= i < |all| ensures ClimbsAt(all, start, size, total, i) {
      if i > 0 {
        assert all[i] == rest[i - 1] && all[i - 1].0 == DoneAfter(rest, end, i - 1);
        assert ClimbsAt(rest, end, size, total, i - 1);
      }
    }
    assert rest != [] ==> all[|all| - 1] == rest[|rest| - 1];
  }

  /** The reports of a run climb to where it stops, which for a whole run is the end. */
  lemma {:induction false} ProgressClimbs(f: EmbedFn, texts: seq<string>, size: nat, cancelled: nat -> bool, start: nat)
    requires size > 0 && start <= |texts|
    ensures var r := From(f, texts, size, cancelled, start);
            Climbs(r.progress, start, size, |texts|, r.stopped) && (r.err.None? <==> r.stopped == |texts|)
    decreases |texts| - start
  {
    StopsInside(f, texts, size, cancelled, start);
    if start < |texts| {
      FromStep(f, texts, size, cancelled, start);
      if Succeeds(f, texts, size, cancelled, start) {
        var end := Min(start + size, |texts|);
        var rest := From(f, texts, size, cancelled, end);
        ProgressClimbs(f, texts, size, cancelled, end);
        ClimbsFromBefore(rest.progress, start, end, size, |texts|, rest.stopped);
      }
    }
  }

  /** A run that stops early leaves exactly what a whole run over the texts before that point gives. */
  lemma {:induction false} PartialIsPrefix(f: EmbedFn, texts: seq<string>, size: nat, cancelled: nat -> bool, start: nat)
    requires size > 0 && start <= |texts|
    ensures var r := From(f, texts, size, cancelled, start);
            && start <= r.stopped <= |texts|
            && var whole := From(f, texts[..r.stopped], size, cancelled, start);
               whole.err.None? && whole.embeddings == r.embeddings && whole.usage == r.usage
    decreases |texts| - start
  {
    StopsInside(f, texts, size, cancelled, start);
    var r := From(f, texts, size, cancelled, start);
    if start < |texts| {
      FromStep(f, texts, size, cancelled, start);
      if Succeeds(f, texts, size, cancelled, start) {
        var end := Min(start + size, |texts|);
        PartialIsPrefix(f, texts, size, cancelled, end);
        SameBatch(texts, size, start, r.stopped);
        FromStep(f, texts[..r.stopped], size, cancelled, start);
      }
    }
  }

  /** Cutting the texts behind a batch does not change the batch. */
  lemma SameBatch(texts: seq<string>, size: nat, start: nat, stop: nat)
    requires start < |texts| && Min(start + size, |texts|) <= stop <= |texts| && size > 0
    ensures start < stop && Min(start + size, |texts[..stop]|) == Min(start + size, |texts|)
    ensures var end := Min(start + size, |texts|); texts[..stop][start..end] == texts[start..end]
  {
  }

  // ---- functions that embed every text for itself ----

  function Vectors(v: string -> seq<real>, texts: seq<string>): seq<Embedding> {
    if texts == [] then []
    else Vectors(v, texts[..|texts| - 1]) + [Embedding(|texts| - 1, v(texts[|texts| - 1]))]
  }

  function Total(u: string -> Usage, texts: seq<string>): Usage {
    if texts == [] then NO_USAGE else Plus(Total(u, texts[..|texts| - 1]), u(texts[|texts| - 1]))
  }

  /** Every call succeeds and gives each text its own vector and usage. */
  ghost predicate PerText(f: EmbedFn, v: string -> seq<real>, u: string -> Usage) {
    forall start: nat, texts: seq<string> ::
      && f(start, texts).error.None? && f(start, texts).response.Some?
      && f(start, texts).response.value.embeddings == Vectors(v, texts)
      && f(start, texts).response.value.usage == Total(u, texts)
  }

  lemma {:induction false} VectorsAppend(v: string -> seq<real>, xs: seq<string>, ys: seq<string>)
    ensures Vectors(v, xs + ys) == Vectors(v, xs) + Shifted(Vectors(v, ys), |xs|)
  {
    if ys == [] {
      assert xs + ys == xs;
    } else {
      var front, last := ys[..|ys| - 1], ys[|ys| - 1];
      VectorsAppend(v, xs, front);
      assert (xs + ys)[..|xs + ys| - 1] == xs + front;
      var moved := Vectors(v, front) + [Embedding(|front|, v(last))];
      assert moved[..|moved| - 1] == Vectors(v, front);
    }
  }

  lemma {:induction false} TotalAppend(u: string -> Usage, xs: seq<string>, ys: seq<string>)
    ensures Total(u, xs + ys) == Plus(Total(u, xs), Total(u, ys))
  {
    if ys == [] {
      assert xs + ys == xs;
    } else {
      TotalAppend(u, xs, ys[..|ys| - 1]);
      assert (xs + ys)[..|xs + ys| - 1] == xs + ys[..|ys| - 1];
    }
  }

  /** Behind the texts already done, any batches give what one call for all texts gives. */
  lemma {:induction false} BatchesMakeWhole(f: EmbedFn, v: string -> seq<real>, u: string -> Usage, texts: seq<string>,
                                            size: nat, cancelled: nat -> bool, start: nat)
    requires size > 0 && start <= |texts| && PerText(f, v, u) && forall i :: !cancelled(i)
    ensures var r := From(f, texts, size, cancelled, start);
            && r.err.None?
            && Vectors(v, texts[..start]) + r.embeddings == Vectors(v, texts)
            && Plus(Total(u, texts[..start]), r.usage) == Total(u, texts)
    decreases |texts| - start
  {
    if start == |texts| {
      assert texts[..start] == texts;
    } else {
      var end := Min(start + size, |texts|);
      var batch := texts[start..end];
      FromStep(f, texts, size, cancelled, start);
      assert f(start, batch).error.None?;
      BatchesMakeWhole(f, v, u, texts, size, cancelled, end);
      WholeStep(v, u, texts, start, end, f(start, batch), From(f, texts, size, cancelled, end));
    }
  }

  lemma WholeStep(v: string -> seq<real>, u: string -> Usage, texts: seq<string>, start: nat, end: nat, r: Reply, rest: Run)
    requires start <= end <= |texts| && r.response.Some?
    requires r.response.value.embeddings == Vectors(v, texts[start..end]) && r.response.value.usage == Total(u, texts[start..end])
    requires Vectors(v, texts[..end]) + rest.embeddings == Vectors(v, texts)
    requires Plus(Total(u, texts[..end]), rest.usage) == Total(u, texts)
    ensures var whole := Before(r, start, end, |texts|, rest);
            && Vectors(v, texts[..start]) + whole.embeddings == Vectors(v, texts)
            && Plus(Total(u, texts[..start]), whole.usage) == Total(u, texts)
  {
    Moved(v, u, texts, start, end);
    Regroup(Vectors(v, texts[..start]), AddedEmbeddings(r, start), rest.embeddings,
            Total(u, texts[..start]), AddedUsage(r), rest.usage);
  }

  lemma Regroup(a: seq<Embedding>, b: seq<Embedding>, c: seq<Embedding>, x: Usage, y: Usage, z: Usage)
    ensures a + (b + c) == (a + b) + c && Plus(x, Plus(y, z)) == Plus(Plus(x, y), z)
  {
  }

  lemma Moved(v: string -> seq<real>, u: string -> Usage, texts: seq<string>, start: nat, end: nat)
    requires start <= end <= |texts|
    ensures Vectors(v, texts[..end]) == Vectors(v, texts[..start]) + Shifted(Vectors(v, texts[start..end]), start)
    ensures Total(u, texts[..end]) == Plus(Total(u, texts[..start]), Total(u, texts[start..end]))
  {
    assert texts[..end] == texts[..start] + texts[start..end];
    VectorsAppend(v, texts[..start], texts[start..end]);
    TotalAppend(u, texts[..start], texts[start..end]);
  }

  // ---- the code ----

  /** Appends one batch's embeddings with their indices moved to where the batch starts. */
  method AppendShifted(all: seq<Embedding>, es: seq<Embedding>, start: nat) returns (r: seq<Embedding>)
    ensures r == all + Shifted(es, start)
  {
    r := all;
    for i := 0 to |es|
      invariant r == all + Shifted(es[..i], start)
    {
      r := r + [es[i].(index := es[i].index + start)];
      assert es[..i + 1][..i] == es[..i];
    }
    assert es[..|es|] == es;
  }

  /** Takes in the response to a batch, if there is one. */
  method AddReply(all: seq<Embedding>, usage: Usage, r: Reply, start: nat) returns (all': seq<Embedding>, usage': Usage)
    ensures all' == all + AddedEmbeddings(r, start) && usage' == Plus(usage, AddedUsage(r))
  {
    all', usage' := all, usage;
    if r.response.Some? {
      all' := AppendShifted(all, r.response.value.embeddings, start);
      usage' := Plus(usage, r.response.value.usage);
    }
  }

  /** More than one batch: the result is that of the run, whatever the batches answer. */
  method EmbedBatches(f: EmbedFn, texts: seq<string>, size: nat, model: string, cancelled: nat -> bool)
    returns (resp: Response, err: Option<BatchError>, progress: seq<(nat, nat)>)
    requires size > 0
    ensures var r := From(f, texts, size, cancelled, 0);
            resp == Response(r.embeddings, model, r.usage) && err == r.err && progress == r.progress
  {
    ghost var whole := From(f, texts, size, cancelled, 0);
    var all, usage, total := [], NO_USAGE, |texts|;
    var start := 0;
    progress := [];
    while start < total
      invariant 0 <= start <= total
      invariant Extends(all, usage, progress, From(f, texts, size, cancelled, start), whole)
      decreases total - start
    {
      if cancelled(start) {
        return Response(all, model, usage), Some(CallerCanceled), progress;
      }
      var end := start + size;
      if end > total {
        end := total;
      }
      var r := f(start, texts[start..end]);
      if r.error.Some? {
        return Response(all, model, usage), Some(BatchFailed(start, end, r.error.value)), progress;
      }
      FromStep(f, texts, size, cancelled, start);
      OneMore(all, usage, progress, r, start, end, total, From(f, texts, size, cancelled, end), whole);
      all, usage := AddReply(all, usage, r, start);
      progress := progress + [(end, total)];
      start := end;
    }
    return Response(all, model, usage), None, progress;
  }

  /** What was gathered and the rest make up the whole. */
  ghost predicate Extends(all: seq<Embedding>, usage: Usage, progress: seq<(nat, nat)>, rest: Run, whole: Run) {
    && whole.embeddings == all + rest.embeddings && whole.usage == Plus(usage, rest.usage)
    && whole.progress == progress + rest.progress && whole.err == rest.err
  }

  lemma OneMore(all: seq<Embedding>, usage: Usage, progress: seq<(nat, nat)>, r: Reply, start: nat, end: nat, total: nat,
                rest: Run, whole: Run)
    requires Extends(all, usage, progress, Before(r, start, end, total, rest), whole)
    ensures Extends(all + AddedEmbeddings(r, start), Plus(usage, AddedUsage(r)), progress + [(end, total)], rest, whole)
  {
    assert all + (AddedEmbeddings(r, start) + rest.embeddings) == all + AddedEmbeddings(r, start) + rest.embeddings;
    assert progress + ([(end, total)] + rest.progress) == progress + [(end, total)] + rest.progress;
  }

  /** What embedding the texts should come to: one call if they fit into a batch, and otherwise
      the run of the batches. */
  function Expected(f: EmbedFn, max: int, texts: seq<string>, model: string, cancelled: nat -> bool)
    : (Option<Response>, Option<BatchError>)
  {
    var size := BatchSize(max, |texts|);
    if |texts| <= size then
      var r := f(0, texts);
      (r.response, if r.error.Some? then Some(DirectFailed(r.error.value)) else None)
    else
      var r := From(f, texts, size, cancelled, 0);
      (Some(Response(r.embeddings, model, r.usage)), r.err)
  }

  /** What is reported on the way: nothing for one call, and the end of every finished batch. */
  function ExpectedProgress(f: EmbedFn, max: int, texts: seq<string>, cancelled: nat -> bool): seq<(nat, nat)> {
    var size := BatchSize(max, |texts|);
    if |texts| <= size then [] else From(f, texts, size, cancelled, 0).progress
  }

  method BatchEmbed(embedFn: Option<EmbedFn>, max: int, texts: seq<string>, model: string, cancelled: nat -> bool)
    returns (resp: Option<Response>, err: Option<BatchError>, progress: seq<(nat, nat)>)
    ensures embedFn.None? ==> resp.None? && err == Some(MissingFunction) && progress == []
    ensures embedFn.Some? ==> (resp, err) == Expected(embedFn.value, max, texts, model, cancelled)
    ensures embedFn.Some? ==> progress == ExpectedProgress(embedFn.value, max, texts, cancelled)
  {
    if embedFn.None? {
      return None, Some(MissingFunction), [];
    }
    var f := embedFn.value;
    var batchSize := max;
    if batchSize <= 0 {
      batchSize := |texts|;
      if batchSize == 0 {
        batchSize := 1;
      }
    }
    if |texts| <= batchSize {
      var r := f(0, texts);
      return r.response, if r.error.Some? then Some(DirectFailed(r.error.value)) else None, [];
    }
    var all;
    all, err, progress := EmbedBatches(f, texts, batchSize, model, cancelled);
    resp := Some(all);
  }

  /** For every batch size, embedding in batches gives the embeddings and the usage of one call. */
  lemma BatchingIsInvisible(f: EmbedFn, v: string -> seq<real>, u: string -> Usage, max: int, texts: seq<string>,
                            model: string, cancelled: nat -> bool)
    requires PerText(f, v, u) && forall i :: !cancelled(i)
    ensures var (resp, err) := Expected(f, max, texts, model, cancelled);
            && err.None? && resp.Some?
            && resp.value.embeddings == Vectors(v, texts) == f(0, texts).response.value.embeddings
            && resp.value.usage == Total(u, texts) == f(0, texts).response.value.usage
  {
    assert f(0, texts).error.None?;
    WholeRun(f, v, u, texts, BatchSize(max, |texts|), cancelled);
  }

  lemma WholeRun(f: EmbedFn, v: string -> seq<real>, u: string -> Usage, texts: seq<string>, size: nat, cancelled: nat -> bool)
    requires size > 0 && PerText(f, v, u) && forall i :: !cancelled(i)
    ensures var r := From(f, texts, size, cancelled, 0);
            r.err.None? && r.embeddings == Vectors(v, texts) && r.usage == Total(u, texts)
  {
    BatchesMakeWhole(f, v, u, texts, size, cancelled, 0);
    assert texts[..0] == [];
    var r := From(f, texts, size, cancelled, 0);
    assert [] + r.embeddings == r.embeddings && Plus(NO_USAGE, r.usage) == r.usage;
  }

  /** If a batch fails or the caller cancels, the response is that of the texts before it. */
  lemma PartialResponse(f: EmbedFn, max: int, texts: seq<string>, model: string, cancelled: nat -> bool)
    requires |texts| > BatchSize(max, |texts|)
    ensures var size := BatchSize(max, |texts|);
            var (resp, err) := Expected(f, max, texts, model, cancelled);
            var stop := From(f, texts, size, cancelled, 0).stopped;
            && stop <= |texts| && (err.None? <==> stop == |texts|)
            && (err.Some? && err.value.BatchFailed? ==> err.value.start == stop)
            && var before := From(f, texts[..stop], size, cancelled, 0);
               before.err.None? && resp == Some(Response(before.embeddings, model, before.usage))
  {
    var size := BatchSize(max, |texts|);
    StopsInside(f, texts, size, cancelled, 0);
    PartialIsPrefix(f, texts, size, cancelled, 0);
    FailsWhereItStops(f, texts, size, cancelled, 0);
  }

  lemma {:induction false} FailsWhereItStops(f: EmbedFn, texts: seq<string>, size: nat, cancelled: nat -> bool, start: nat)
    requires size > 0 && start <= |texts|
    ensures var r := From(f, texts, size, cancelled, start);
            r.err.Some? && r.err.value.BatchFailed? ==> r.err.value.start == r.stopped
    decreases |texts| - start
  {
    if start < |texts| {
      FailsWhereItStops(f, texts, size, cancelled, Min(start + size, |texts|));
    }
  }
}
