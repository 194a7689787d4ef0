/** What the transform promises about every conversation. */
module TransformFacts {
  import opened Wrappers
  import opened StringOrder
  import opened Conversation
  import opened Transform

  // ---- every call is answered ----

  lemma {:induction false} AwaitKeys(cs: seq<ToolCall>)
    ensures Await(map[], cs).Keys == set c | c in cs :: c.id
  {
    if cs != [] {
      var init, last := cs[..|cs| - 1], cs[|cs| - 1];
      AwaitKeys(init);
      assert forall c :: c in cs <==> c in init || c == last by {
        assert cs == init + [last];
      }
    }
  }

  /** The pass waits for exactly the open calls. */
  lemma {:induction false} PendingIsOpen(ms: seq<Message>)
    ensures Fill(ms).pending.Keys == OpenIds(ms)
  {
    if ms != [] {
      PendingIsOpen(ms[..|ms| - 1]);
      var m := ms[|ms| - 1];
      if m.Assistant? {
        AwaitKeys(Calls(m.content));
      }
    }
  }

  lemma SlotSnoc(out: seq<Slot>, slot: Slot)
    ensures Messages(out + [slot]) == Messages(out) + [slot.m]
  {
  }

  lemma OneMoreResult(out: seq<Slot>, m: Message)
    requires m.ToolResult? && Settled(Messages(out))
    ensures Settled(Messages(out + [Made(m)]))
    ensures OpenIds(Messages(out + [Made(m)])) == OpenIds(Messages(out)) - {m.callId}
  {
    SlotSnoc(out, Made(m));
    SettledSnoc(Messages(out), m);
    OpenIdsSnoc(Messages(out), m);
  }

  lemma {:induction false} SyntheticCloses(out: seq<Slot>, ids: seq<string>, pending: map<string, ToolCall>, timestamp: int)
    requires forall id :: id in ids ==> id in pending
    requires Settled(Messages(out))
    ensures Settled(Messages(out + SyntheticAll(ids, pending, timestamp)))
    ensures forall id :: id in OpenIds(Messages(out + SyntheticAll(ids, pending, timestamp))) <==>
                         id in OpenIds(Messages(out)) && id !in ids
  {
    if ids == [] {
      assert out + SyntheticAll(ids, pending, timestamp) == out;
    } else {
      var init, last := ids[..|ids| - 1], ids[|ids| - 1];
      SyntheticCloses(out, init, pending, timestamp);
      var before := out + SyntheticAll(init, pending, timestamp);
      var m := Synthetic(last, pending[last], timestamp);
      assert out + SyntheticAll(ids, pending, timestamp) == before + [Made(m)];
      OneMoreResult(before, m);
      assert ids == init + [last];
    }
  }

  lemma FlushCloses(f: Filled, timestamp: int)
    requires Settled(Messages(f.out)) && OpenIds(Messages(f.out)) == f.pending.Keys
    ensures Complete(Messages(Flush(f, timestamp).out))
  {
    forall id { ListingHas(f.pending.Keys, id); }
    SyntheticCloses(f.out, Listing(f.pending.Keys), f.pending, timestamp);
  }

  lemma {:induction false} FillSettles(ms: seq<Message>)
    ensures Settled(Messages(Fill(ms).out)) && OpenIds(Messages(Fill(ms).out)) == OpenIds(ms)
  {
    if ms != [] {
      var init, m := ms[..|ms| - 1], ms[|ms| - 1];
      FillSettles(init);
      PendingIsOpen(init);
      var f := Fill(init);
      var before := if m.Assistant? then Flush(f, m.timestamp).out else f.out;
      if m.Assistant? {
        FlushCloses(f, m.timestamp);
      }
      assert Fill(ms).out == before + [Given(m)];
      MessagesConcat(before, [Given(m)]);
      assert Messages([Given(m)]) == [m];
      SettledSnoc(Messages(before), m);
      OpenIdsSnoc(Messages(before), m);
    }
  }

  lemma FillCompletes(ms: seq<Message>, now: int)
    ensures Complete(Messages(FillAll(ms, now)))
  {
    FillSettles(ms);
    PendingIsOpen(ms);
    FlushCloses(Fill(ms), if Fill(ms).last == 0 then now else Fill(ms).last);
  }

  /** In the transformed conversation every tool call of every assistant message has a result
      before the next assistant message or the end, whatever the input was. */
  lemma TransformAnswersAll(ms: seq<Message>, target: Model, norm: Option<Normalizer>, now: int)
    ensures AllAnswered(Transformed(ms, target, norm, now))
  {
    FillCompletes(Rewrite(ms, target, norm).out, now);
    CompleteAnswersAll(Transformed(ms, target, norm, now));
  }

  // ---- nothing else changes ----

  /** The input's messages among the slots. */
  function Givens(slots: seq<Slot>): seq<Message> {
    if slots == [] then []
    else
      var last := slots[|slots| - 1];
      Givens(slots[..|slots| - 1]) + if last.Given? then [last.m] else []
  }

  lemma {:induction false} GivensConcat(a: seq<Slot>, b: seq<Slot>)
    ensures Givens(a + b) == Givens(a) + Givens(b)
  {
    if b == [] {
      assert a + b == a;
    } else {
      GivensConcat(a, b[..|b| - 1]);
      assert (a + b)[..|a + b| - 1] == a + b[..|b| - 1];
    }
  }

  lemma {:induction false} SyntheticGivesNothing(ids: seq<string>, pending: map<string, ToolCall>, timestamp: int)
    requires forall id :: id in ids ==> id in pending
    ensures Givens(SyntheticAll(ids, pending, timestamp)) == []
  {
    if ids != [] {
      var last := ids[|ids| - 1];
      SyntheticGivesNothing(ids[..|ids| - 1], pending, timestamp);
      GivensSnoc(SyntheticAll(ids[..|ids| - 1], pending, timestamp), Made(Synthetic(last, pending[last], timestamp)));
    }
  }

  lemma GivensSnoc(slots: seq<Slot>, x: Slot)
    ensures Givens(slots + [x]) == Givens(slots) + if x.Given? then [x.m] else []
  {
    assert (slots + [x])[..|slots|] == slots;
  }

  lemma FlushKeepsGivens(f: Filled, timestamp: int)
    ensures Givens(Flush(f, timestamp).out) == Givens(f.out)
  {
    forall id { ListingHas(f.pending.Keys, id); }
    SyntheticGivesNothing(Listing(f.pending.Keys), f.pending, timestamp);
    GivensConcat(f.out, SyntheticAll(Listing(f.pending.Keys), f.pending, timestamp));
  }

  lemma {:induction false} FillKeepsGivens(ms: seq<Message>)
    ensures Givens(Fill(ms).out) == ms
  {
    if ms != [] {
      var init, m := ms[..|ms| - 1], ms[|ms| - 1];
      FillKeepsGivens(init);
      var f := Fill(init);
      if m.Assistant? {
        FlushKeepsGivens(f, m.timestamp);
      }
      var before := if m.Assistant? then Flush(f, m.timestamp).out else f.out;
      assert Fill(ms).out == before + [Given(m)];
      GivensSnoc(before, Given(m));
      assert ms == init + [m];
    }
  }

  /** The rewritten messages all survive, in their order: without the synthetic results the
      output is the rewritten input. */
  lemma TransformKeepsOrder(ms: seq<Message>, target: Model, norm: Option<Normalizer>, now: int)
    ensures Givens(FillAll(Rewrite(ms, target, norm).out, now)) == Rewrite(ms, target, norm).out
  {
    var rewritten := Rewrite(ms, target, norm).out;
    FillKeepsGivens(rewritten);
    var f := Fill(rewritten);
    FlushKeepsGivens(f, if f.last == 0 then now else f.last);
  }

  // ---- a second application changes nothing ----

  /** A message that the first pass leaves as it is. */
  ghost predicate Stable(m: Message, target: Model) {
    Retained(m) && Rewritten(m, map[], target, None) == m
  }

  lemma {:induction false} RenamesNothing(ids: map<string, string>, bs: seq<Block>, m: Message, target: Model)
    requires m.Assistant?
    ensures Renames(ids, bs, m, target, None) == ids
  {
    if bs != [] {
      RenamesNothing(ids, bs[..|bs| - 1], m, target);
    }
  }

  lemma {:induction false} ContentConcat(a: seq<Block>, b: seq<Block>, m: Message, target: Model, norm: Option<Normalizer>)
    requires m.Assistant?
    ensures NewContent(a + b, m, target, norm) == NewContent(a, m, target, norm) + NewContent(b, m, target, norm)
  {
    if b == [] {
      assert a + b == a;
    } else {
      var front := b[..|b| - 1];
      ContentConcat(a, front, m, target, norm);
      assert (a + b)[..|a + b| - 1] == a + front;
      Regroup(NewContent(a, m, target, norm), NewContent(front, m, target, norm), NewBlock(b[|b| - 1], m, target, norm));
    }
  }

  lemma Regroup(x: seq<Block>, y: seq<Block>, z: seq<Block>)
    ensures (x + y) + z == x + (y + z)
  {
  }

  /** Rewriting rewritten blocks for the same target is the identity. The two messages may differ
      in content as long as they came from the same model. */
  lemma {:induction false} ContentStable(bs: seq<Block>, m: Message, m': Message, target: Model)
    requires m.Assistant? && m'.Assistant? && SameModel(m, target) == SameModel(m', target)
    ensures NewContent(NewContent(bs, m, target, None), m', target, None) == NewContent(bs, m, target, None)
  {
    if bs != [] {
      var init, b := bs[..|bs| - 1], bs[|bs| - 1];
      ContentStable(init, m, m', target);
      var nb := NewBlock(b, m, target, None);
      ContentConcat(NewContent(init, m, target, None), nb, m', target, None);
      assert NewContent(nb, m', target, None) == nb by {
        if nb != [] {
          assert nb == [nb[0]] && nb[..0] == [];
          assert NewBlock(nb[0], m', target, None) == nb;
        }
      }
    }
  }

  lemma RewrittenIsStable(m: Message, target: Model)
    requires Retained(m)
    ensures Stable(Rewritten(m, map[], target, None), target)
  {
    if m.Assistant? {
      ContentStable(m.content, m, Rewritten(m, map[], target, None), target);
    }
  }

  lemma {:induction false} RewriteIsStable(ms: seq<Message>, target: Model)
    ensures Rewrite(ms, target, None).ids == map[]
    ensures forall i :: 0 <= i < |Rewrite(ms, target, None).out| ==> Stable(Rewrite(ms, target, None).out[i], target)
  {
    if ms != [] {
      var m := ms[|ms| - 1];
      RewriteIsStable(ms[..|ms| - 1], target);
      if Retained(m) {
        RewrittenIsStable(m, target);
        if m.Assistant? {
          RenamesNothing(map[], m.content, m, target);
        }
      }
    }
  }

  lemma {:induction false} StableRewritesToItself(ms: seq<Message>, target: Model)
    requires forall i :: 0 <= i < |ms| ==> Stable(ms[i], target)
    ensures Rewrite(ms, target, None).out == ms
  {
    if ms != [] {
      StableRewritesToItself(ms[..|ms| - 1], target);
      RewriteIsStable(ms[..|ms| - 1], target);
      assert Stable(ms[|ms| - 1], target);
      assert ms == ms[..|ms| - 1] + [ms[|ms| - 1]];
    }
  }

  /** The pass adds nothing to a settled conversation. */
  lemma {:induction false} SettledIsUnfilled(ms: seq<Message>)
    requires Settled(ms)
    ensures Messages(Fill(ms).out) == ms
  {
    if ms != [] {
      var init, m := ms[..|ms| - 1], ms[|ms| - 1];
      SettledIsUnfilled(init);
      PendingIsOpen(init);
      var f := Fill(init);
      if m.Assistant? {
        NothingToFlush(f, m.timestamp);
      }
      assert Fill(ms).out == f.out + [Given(m)];
      MessagesConcat(f.out, [Given(m)]);
      assert Messages([Given(m)]) == [m];
      assert ms == init + [m];
    }
  }

  lemma NothingToFlush(f: Filled, timestamp: int)
    requires f.pending.Keys == {}
    ensures Flush(f, timestamp).out == f.out
  {
    assert Listing(f.pending.Keys) == [];
  }

  lemma CompleteIsUnfilled(ms: seq<Message>, now: int)
    requires Complete(ms)
    ensures Messages(FillAll(ms, now)) == ms
  {
    SettledIsUnfilled(ms);
    PendingIsOpen(ms);
    NothingToFlush(Fill(ms), if Fill(ms).last == 0 then now else Fill(ms).last);
  }
}
