/** The transform's second pass, block by block: what stands behind each assistant message of its
    output. */
module TransformBlocks {
  import opened Wrappers
  import opened StringOrder
  import opened Conversation
  import opened Transform
  import opened TransformFacts

  // ---- blocks ----

  /** The first assistant message from i on, or the end. */
  function NextAssistant(ms: seq<Message>, i: nat): (e: nat)
    requires i <= |ms|
    ensures i <= e <= |ms| && (e < |ms| ==> ms[e].Assistant?)
    ensures forall j :: i <= j < e ==> !ms[j].Assistant?
    decreases |ms| - i
  {
    if i == |ms| || ms[i].Assistant? then i else NextAssistant(ms, i + 1)
  }

  /** The ids that the results among the messages answer. */
  function ResultIds(ms: seq<Message>): set<string> {
    if ms == [] then {}
    else
      var last := ms[|ms| - 1];
      ResultIds(ms[..|ms| - 1]) + if last.ToolResult? then {last.callId} else {}
  }

  lemma {:induction false} ResultIdsMeans(ms: seq<Message>, id: string)
    ensures id in ResultIds(ms) <==> exists j: nat :: AnswersAt(ms, j, id)
  {
    if ms != [] {
      var front := ms[..|ms| - 1];
      ResultIdsMeans(front, id);
      if id in ResultIds(front) {
        var j: nat :| AnswersAt(front, j, id);
        assert AnswersAt(ms, j, id);
      } else if id in ResultIds(ms) {
        assert AnswersAt(ms, |ms| - 1, id);
      }
      forall j: nat | AnswersAt(ms, j, id) ensures id in ResultIds(ms) {
        assert j < |ms| - 1 ==> AnswersAt(front, j, id);
      }
    }
  }

  /** The ids of an assistant message's calls that no message of its block answers. */
  function Unanswered(ms: seq<Message>, a: nat): set<string>
    requires a < |ms|
  {
    CallIds(ms[a]) - ResultIds(ms[a + 1..NextAssistant(ms, a + 1)])
  }

  function AllGiven(ms: seq<Message>): seq<Slot> {
    seq(|ms|, i requires 0 <= i < |ms| => Given(ms[i]))
  }

  /** When the block's missing results are made: at the next assistant message, or at the end. */
  function BlockTime(ms: seq<Message>, a: nat, now: int): int
    requires a < |ms|
  {
    var e := NextAssistant(ms, a + 1);
    if e < |ms| then ms[e].timestamp
    else if ms[|ms| - 1].timestamp == 0 then now else ms[|ms| - 1].timestamp
  }

  /** One result for each unanswered call, sorted by id. */
  ghost function MadeFor(ms: seq<Message>, a: nat, now: int): seq<Slot>
    requires a < |ms| && ms[a].Assistant?
  {
    AwaitKeys(Calls(ms[a].content));
    forall id { ListingHas(Unanswered(ms, a), id); }
    SyntheticAll(Listing(Unanswered(ms, a)), Await(map[], Calls(ms[a].content)), BlockTime(ms, a, now))
  }

  /** An assistant message, the messages up to the next one, and the results made up for it. */
  ghost function Block(ms: seq<Message>, a: nat, now: int): seq<Slot>
    requires a < |ms| && ms[a].Assistant?
  {
    AllGiven(ms[a..NextAssistant(ms, a + 1)]) + MadeFor(ms, a, now)
  }

  /** The blocks of the assistant messages from a on. */
  ghost function Blocks(ms: seq<Message>, a: nat, now: int): seq<Slot>
    requires a <= |ms| && (a < |ms| ==> ms[a].Assistant?)
    decreases |ms| - a
  {
    if a == |ms| then [] else Block(ms, a, now) + Blocks(ms, NextAssistant(ms, a + 1), now)
  }

  // ---- the pass works block by block ----

  lemma {:induction false} SyntheticAgree(ids: seq<string>, p: map<string, ToolCall>, q: map<string, ToolCall>, timestamp: int)
    requires forall id :: id in ids ==> id in p && id in q && p[id] == q[id]
    ensures SyntheticAll(ids, p, timestamp) == SyntheticAll(ids, q, timestamp)
  {
    if ids != [] {
      SyntheticAgree(ids[..|ids| - 1], p, q, timestamp);
    }
  }

  lemma FillSnoc(ms: seq<Message>, i: nat)
    requires 0 < i <= |ms|
    ensures Fill(ms[..i]) == FillOne(Fill(ms[..i - 1]), ms[i - 1])
  {
    assert ms[..i][..i - 1] == ms[..i - 1];
  }

  /** What one message that is not from the assistant answers. */
  function Answer(m: Message): set<string> {
    if m.ToolResult? then {m.callId} else {}
  }

  lemma ResultIdsSnoc(ms: seq<Message>, m: Message)
    ensures ResultIds(ms + [m]) == ResultIds(ms) + Answer(m)
  {
    assert (ms + [m])[..|ms|] == ms;
  }

  /** The pass inside a block: it copies messages and crosses off answered calls. */
  ghost predicate Copying(f: Filled, base: seq<Slot>, given: seq<Message>, calls: map<string, ToolCall>, answered: set<string>) {
    f.out == base + AllGiven(given) && f.pending == calls - answered
  }

  lemma CopyOne(f: Filled, m: Message, base: seq<Slot>, given: seq<Message>, calls: map<string, ToolCall>, answered: set<string>)
    requires !m.Assistant? && Copying(f, base, given, calls, answered)
    ensures Copying(FillOne(f, m), base, given + [m], calls, answered + Answer(m)) && FillOne(f, m).last == m.timestamp
  {
    assert AllGiven(given + [m]) == AllGiven(given) + [Given(m)];
  }

  /** What is in front of a block. */
  ghost function Front(ms: seq<Message>, a: nat): seq<Slot>
    requires a < |ms|
  {
    Flush(Fill(ms[..a]), ms[a].timestamp).out
  }

  lemma BlockOpens(ms: seq<Message>, a: nat)
    requires a < |ms| && ms[a].Assistant?
    ensures Copying(Fill(ms[..a + 1]), Front(ms, a), ms[a..a + 1], Await(map[], Calls(ms[a].content)), ResultIds(ms[a + 1..a + 1]))
    ensures Fill(ms[..a + 1]).last == ms[a].timestamp
  {
    FillSnoc(ms, a + 1);
    assert ms[a..a + 1] == [ms[a]] && AllGiven([ms[a]]) == [Given(ms[a])];
    assert ms[a + 1..a + 1] == [];
  }

  lemma {:induction false} InsideBlock(ms: seq<Message>, a: nat, i: nat)
    requires a < |ms| && ms[a].Assistant? && a < i <= NextAssistant(ms, a + 1)
    ensures Copying(Fill(ms[..i]), Front(ms, a), ms[a..i], Await(map[], Calls(ms[a].content)), ResultIds(ms[a + 1..i]))
    ensures Fill(ms[..i]).last == ms[i - 1].timestamp
    decreases i
  {
    if i == a + 1 {
      BlockOpens(ms, a);
    } else {
      FillSnoc(ms, i);
      InsideBlock(ms, a, i - 1);
      assert ms[a..i] == ms[a..i - 1] + [ms[i - 1]];
      assert ms[a + 1..i] == ms[a + 1..i - 1] + [ms[i - 1]];
      ResultIdsSnoc(ms[a + 1..i - 1], ms[i - 1]);
      CopyOne(Fill(ms[..i - 1]), ms[i - 1], Front(ms, a), ms[a..i - 1],
              Await(map[], Calls(ms[a].content)), ResultIds(ms[a + 1..i - 1]));
    }
  }

  lemma FlushMakes(f: Filled, timestamp: int, calls: map<string, ToolCall>, answered: set<string>)
    requires f.pending == calls - answered
    ensures forall id :: id in Listing(calls.Keys - answered) ==> id in calls
    ensures Flush(f, timestamp).out == f.out + SyntheticAll(Listing(calls.Keys - answered), calls, timestamp)
  {
    assert f.pending.Keys == calls.Keys - answered;
    forall id { ListingHas(f.pending.Keys, id); }
    SyntheticAgree(Listing(f.pending.Keys), f.pending, calls, timestamp);
  }

  /** Flushing at the end of a block makes exactly the block's missing results. */
  lemma FlushEndsBlock(ms: seq<Message>, a: nat, now: int)
    requires a < |ms| && ms[a].Assistant?
    ensures Flush(Fill(ms[..NextAssistant(ms, a + 1)]), BlockTime(ms, a, now)).out == Front(ms, a) + Block(ms, a, now)
  {
    var e := NextAssistant(ms, a + 1);
    var calls := Await(map[], Calls(ms[a].content));
    var answered := ResultIds(ms[a + 1..e]);
    InsideBlock(ms, a, e);
    AwaitKeys(Calls(ms[a].content));
    assert Unanswered(ms, a) == calls.Keys - answered;
    FlushMakes(Fill(ms[..e]), BlockTime(ms, a, now), calls, answered);
    Regrouped(Front(ms, a), AllGiven(ms[a..e]), MadeFor(ms, a, now));
  }

  lemma Regrouped(x: seq<Slot>, y: seq<Slot>, z: seq<Slot>)
    ensures (x + y) + z == x + (y + z)
  {
  }

  lemma {:induction false} FromBlock(ms: seq<Message>, a: nat, now: int)
    requires a < |ms| && ms[a].Assistant?
    ensures FillAll(ms, now) == Front(ms, a) + Blocks(ms, a, now)
    decreases |ms| - a
  {
    var e := NextAssistant(ms, a + 1);
    FlushEndsBlock(ms, a, now);
    Regrouped(Front(ms, a), Block(ms, a, now), Blocks(ms, e, now));
    if e < |ms| {
      assert FillAll(ms, now) == Front(ms, e) + Blocks(ms, e, now) by { FromBlock(ms, e, now); }
      assert Front(ms, e) == Front(ms, a) + Block(ms, a, now);
    } else {
      assert Fill(ms).last == ms[|ms| - 1].timestamp by {
        InsideBlock(ms, a, e);
        assert ms[..e] == ms;
      }
      assert FillAll(ms, now) == Front(ms, a) + Block(ms, a, now) by { assert ms[..e] == ms; }
    }
  }

  lemma {:induction false} BeforeBlocks(ms: seq<Message>, i: nat)
    requires i <= NextAssistant(ms, 0)
    ensures Fill(ms[..i]).out == AllGiven(ms[..i]) && Fill(ms[..i]).pending == map[]
  {
    if i > 0 {
      BeforeBlocks(ms, i - 1);
      assert ms[..i][..i - 1] == ms[..i - 1];
      assert AllGiven(ms[..i]) == AllGiven(ms[..i - 1]) + [Given(ms[i - 1])];
    }
  }

  /** The output is the messages before the first assistant message and then block after block:
      nothing else is inserted anywhere, and nothing is missing. */
  lemma FillIsBlockwise(ms: seq<Message>, now: int)
    ensures FillAll(ms, now) == AllGiven(ms[..NextAssistant(ms, 0)]) + Blocks(ms, NextAssistant(ms, 0), now)
  {
    var a := NextAssistant(ms, 0);
    BeforeBlocks(ms, a);
    if a < |ms| {
      NothingToFlush(Fill(ms[..a]), ms[a].timestamp);
      FromBlock(ms, a, now);
    } else {
      assert ms[..a] == ms;
      NothingToFlush(Fill(ms), if Fill(ms).last == 0 then now else Fill(ms).last);
      assert AllGiven(ms) + [] == AllGiven(ms);
    }
  }

  // ---- where a made result stands ----

  lemma {:induction false} SyntheticAt(ids: seq<string>, pending: map<string, ToolCall>, timestamp: int)
    requires forall id :: id in ids ==> id in pending
    ensures var all := SyntheticAll(ids, pending, timestamp);
            |all| == |ids| && forall i :: 0 <= i < |ids| ==> all[i] == Made(Synthetic(ids[i], pending[ids[i]], timestamp))
  {
    if ids != [] {
      SyntheticAt(ids[..|ids| - 1], pending, timestamp);
    }
  }

  lemma MadeSlots(ms: seq<Message>, a: nat, now: int)
    requires a < |ms| && ms[a].Assistant?
    ensures var made, ids := MadeFor(ms, a, now), Listing(Unanswered(ms, a));
            && |made| == |ids|
            && forall i :: 0 <= i < |ids| ==> made[i].Made? && made[i].m.ToolResult? && made[i].m.callId == ids[i]
  {
    AwaitKeys(Calls(ms[a].content));
    forall id { ListingHas(Unanswered(ms, a), id); }
    SyntheticAt(Listing(Unanswered(ms, a)), Await(map[], Calls(ms[a].content)), BlockTime(ms, a, now));
  }

  /** The calls and results of one block of the output. */
  lemma BlockSlots(ms: seq<Message>, a: nat, now: int)
    requires a < |ms| && ms[a].Assistant?
    ensures var b, given, ids := Block(ms, a, now), NextAssistant(ms, a + 1) - a, Listing(Unanswered(ms, a));
            && given > 0 && |b| == given + |ids|
            && (forall j :: 0 <= j < given ==> b[j] == Given(ms[a + j]))
            && (forall j :: given <= j < |b| ==> b[j].Made? && b[j].m.ToolResult? && b[j].m.callId == ids[j - given])
  {
    MadeSlots(ms, a, now);
  }

  /** Slot k stands in the block that starts at s and ends before t, as its only result for that
      call; behind it come only made results with greater ids. */
  ghost predicate OnlyResult(slots: seq<Slot>, s: nat, k: nat, t: nat) {
    && s < k < t <= |slots| && (t < |slots| ==> slots[t].m.Assistant?)
    && slots[s].m.Assistant? && slots[k].m.ToolResult? && slots[k].m.callId in CallIds(slots[s].m)
    && (forall j :: s < j < t ==> !slots[j].m.Assistant?)
    && (forall j :: s < j < t && j != k ==> !(slots[j].m.ToolResult? && slots[j].m.callId == slots[k].m.callId))
    && (forall j :: k < j < t ==> slots[j].Made? && slots[j].m.ToolResult? && AtMost(slots[k].m.callId, slots[j].m.callId))
  }

  lemma MadeInBlock(ms: seq<Message>, a: nat, now: int, k: nat)
    requires a < |ms| && ms[a].Assistant? && k < |Block(ms, a, now)| && Block(ms, a, now)[k].Made?
    ensures OnlyResult(Block(ms, a, now), 0, k, |Block(ms, a, now)|)
    ensures Block(ms, a, now)[0] == Given(ms[a]) && Block(ms, a, now)[k].m.callId in Unanswered(ms, a)
  {
    var b, e := Block(ms, a, now), NextAssistant(ms, a + 1);
    var given, ids := e - a, Listing(Unanswered(ms, a));
    BlockSlots(ms, a, now);
    ListingIsSorted(Unanswered(ms, a));
    var id := ids[k - given];
    ListingHas(Unanswered(ms, a), id);
    forall j | 0 < j < |b| ensures !b[j].m.Assistant? && (j != k ==> !(b[j].m.ToolResult? && b[j].m.callId == id)) {
      if j < given {
        assert b[j] == Given(ms[a + j]);
        GivenDoesNotAnswer(ms, a, j, id);
      }
    }
    forall j | k < j < |b| ensures b[j].Made? && b[j].m.ToolResult? && AtMost(id, b[j].m.callId) {
      assert AtMost(ids[k - given], ids[j - given]);
    }
  }

  lemma GivenDoesNotAnswer(ms: seq<Message>, a: nat, j: nat, id: string)
    requires a < |ms| && id in Unanswered(ms, a) && 0 < j < NextAssistant(ms, a + 1) - a
    ensures !(ms[a + j].ToolResult? && ms[a + j].callId == id)
  {
    var inner := ms[a + 1..NextAssistant(ms, a + 1)];
    ResultIdsMeans(inner, id);
    assert !AnswersAt(inner, j - 1, id);
    assert inner[j - 1] == ms[a + j];
  }

  /** The slots from s up to t are the block b, and another block or nothing comes behind them. */
  ghost predicate Stands(slots: seq<Slot>, b: seq<Slot>, s: nat, t: nat) {
    s <= t <= |slots| && slots[s..t] == b && (t < |slots| ==> slots[t].m.Assistant?)
  }

  lemma Shifted(front: seq<Slot>, slots: seq<Slot>, b: seq<Slot>, s: nat, t: nat)
    requires Stands(slots, b, s, t)
    ensures Stands(front + slots, b, |front| + s, |front| + t)
  {
    assert (front + slots)[|front| + s..|front| + t] == slots[s..t];
  }

  lemma FirstBlock(ms: seq<Message>, a: nat, now: int, first: seq<Slot>, rest: seq<Slot>)
    requires a < |ms| && ms[a].Assistant? && first == Block(ms, a, now) && rest == Blocks(ms, NextAssistant(ms, a + 1), now)
    ensures Stands(first + rest, first, 0, |first|)
  {
    var e := NextAssistant(ms, a + 1);
    assert (first + rest)[0..|first|] == first;
    if e < |ms| {
      BlockSlots(ms, e, now);
      assert rest[0] == Block(ms, e, now)[0];
    }
  }

  lemma {:induction false} AllAreGiven(ms: seq<Message>)
    ensures Givens(AllGiven(ms)) == ms
  {
    if ms != [] {
      AllAreGiven(ms[..|ms| - 1]);
      assert AllGiven(ms)[..|ms| - 1] == AllGiven(ms[..|ms| - 1]);
    }
  }

  lemma {:induction false} NoneIsGiven(slots: seq<Slot>)
    requires forall i :: 0 <= i < |slots| ==> slots[i].Made?
    ensures Givens(slots) == []
  {
    if slots != [] {
      NoneIsGiven(slots[..|slots| - 1]);
    }
  }

  /** A block has its own messages and no others. */
  lemma GivensOfBlock(ms: seq<Message>, a: nat, now: int)
    requires a < |ms| && ms[a].Assistant?
    ensures Givens(Block(ms, a, now)) == ms[a..NextAssistant(ms, a + 1)]
  {
    var inner := ms[a..NextAssistant(ms, a + 1)];
    MadeSlots(ms, a, now);
    AllAreGiven(inner);
    NoneIsGiven(MadeFor(ms, a, now));
    GivensConcat(AllGiven(inner), MadeFor(ms, a, now));
  }

  /** How many messages of the input stand before slot s. */
  ghost function GivenBefore(slots: seq<Slot>, s: nat): nat
    requires s <= |slots|
  {
    |Givens(slots[..s])|
  }

  /** Every slot from the first assistant message on stands in some block. */
  lemma {:induction false} FindBlock(ms: seq<Message>, a: nat, now: int, front: seq<Slot>, all: seq<Slot>, k: nat)
    returns (b: nat, s: nat, t: nat)
    requires a <= |ms| && (a < |ms| ==> ms[a].Assistant?) && all == Blocks(ms, a, now) && |front| <= k < |front + all|
    requires |Givens(front)| == a
    ensures b < |ms| && ms[b].Assistant? && Stands(front + all, Block(ms, b, now), s, t) && s <= k < t
    ensures GivenBefore(front + all, s) == b
    decreases |ms| - a
  {
    var first, rest := Block(ms, a, now), Blocks(ms, NextAssistant(ms, a + 1), now);
    if k < |front| + |first| {
      FirstBlock(ms, a, now, first, rest);
      Shifted(front, first + rest, first, 0, |first|);
      b, s, t := a, |front|, |front| + |first|;
      assert (front + all)[..s] == front;
    } else {
      Regrouped(front, first, rest);
      GivensOfBlock(ms, a, now);
      GivensConcat(front, first);
      b, s, t := FindBlock(ms, NextAssistant(ms, a + 1), now, front + first, rest, k);
    }
  }

  lemma MadeAt(ms: seq<Message>, now: int, slots: seq<Slot>, a: nat, s: nat, t: nat, k: nat)
    requires a < |ms| && ms[a].Assistant? && Stands(slots, Block(ms, a, now), s, t) && s <= k < t && slots[k].Made?
    ensures OnlyResult(slots, s, k, t) && slots[s] == Given(ms[a]) && slots[k].m.callId in Unanswered(ms, a)
  {
    assert forall j :: s <= j < t ==> slots[j] == slots[s..t][j - s];
    MadeInBlock(ms, a, now, k - s);
  }

  lemma MadeInBlocks(ms: seq<Message>, f: nat, now: int, front: seq<Slot>, all: seq<Slot>, k: nat) returns (a: nat, s: nat, t: nat)
    requires f <= |ms| && (f < |ms| ==> ms[f].Assistant?) && all == Blocks(ms, f, now)
    requires |front| <= k < |front + all| && (front + all)[k].Made? && |Givens(front)| == f
    ensures a < |ms| && OnlyResult(front + all, s, k, t) && (front + all)[s] == Given(ms[a]) && GivenBefore(front + all, s) == a
    ensures (front + all)[k].m.callId in Unanswered(ms, a)
  {
    a, s, t := FindBlock(ms, f, now, front, all, k);
    MadeAt(ms, now, front + all, a, s, t, k);
  }

  /** Every result that the pass makes stands in the block of an assistant message with that call,
      the one with that many messages before it, which no message of the block answers; it is the only result for the call there, and behind
      it come only made results in the order of their ids. */
  lemma MadeOnlyForGaps(ms: seq<Message>, now: int, k: nat) returns (a: nat, s: nat, t: nat)
    requires k < |FillAll(ms, now)| && FillAll(ms, now)[k].Made?
    ensures a < |ms| && OnlyResult(FillAll(ms, now), s, k, t)
    ensures FillAll(ms, now)[s] == Given(ms[a]) && GivenBefore(FillAll(ms, now), s) == a
    ensures FillAll(ms, now)[k].m.callId in Unanswered(ms, a)
  {
    var f := NextAssistant(ms, 0);
    FillIsBlockwise(ms, now);
    AllAreGiven(ms[..f]);
    a, s, t := MadeInBlocks(ms, f, now, AllGiven(ms[..f]), Blocks(ms, f, now), k);
  }

  // ---- a second application changes nothing ----

  lemma SlotsAreStable(ms: seq<Message>, now: int, target: Model)
    requires forall i :: 0 <= i < |ms| ==> Stable(ms[i], target)
    ensures forall k :: 0 <= k < |FillAll(ms, now)| ==> Stable(FillAll(ms, now)[k].m, target)
  {
    var slots := FillAll(ms, now);
    forall k | 0 <= k < |slots|
      ensures Stable(slots[k].m, target)
    {
      if slots[k].Made? {
        var a, s, t := MadeOnlyForGaps(ms, now, k);
      } else {
        FillKeepsGivens(ms);
        FlushKeepsGivens(Fill(ms), if Fill(ms).last == 0 then now else Fill(ms).last);
        GivenIsGiven(slots, k);
      }
    }
  }

  lemma {:induction false} GivenIsGiven(slots: seq<Slot>, k: nat)
    requires k < |slots| && slots[k].Given?
    ensures slots[k].m in Givens(slots)
  {
    if k < |slots| - 1 {
      GivenIsGiven(slots[..|slots| - 1], k);
    }
  }

  /** Without a normalizer, transforming twice is transforming once, at whatever time. */
  lemma TransformIsIdempotent(ms: seq<Message>, target: Model, now: int, later: int)
    ensures Transformed(Transformed(ms, target, None, now), target, None, later) == Transformed(ms, target, None, now)
  {
    var rewritten := Rewrite(ms, target, None).out;
    var once := Transformed(ms, target, None, now);
    RewriteIsStable(ms, target);
    SlotsAreStable(rewritten, now, target);
    StableRewritesToItself(once, target);
    FillCompletes(rewritten, now);
    CompleteIsUnfilled(once, later);
  }
}
