/** Renaming tool calls for another model keeps every result with its call. */
module TransformRenaming {
  import opened Wrappers
  import opened Conversation
  import opened Transform
  import opened TransformFacts

  /** Message `a` survives and has a tool call number `p`. */
  ghost predicate CallOf(ms: seq<Message>, a: nat, p: nat) {
    a < |ms| && ms[a].Assistant? && Retained(ms[a]) && p < |Calls(ms[a].content)|
  }

  ghost function IdAt(ms: seq<Message>, a: nat, p: nat): string
    requires CallOf(ms, a, p)
  {
    Calls(ms[a].content)[p].id
  }

  ghost function NewIdAt(ms: seq<Message>, a: nat, p: nat, target: Model, norm: Option<Normalizer>): string
    requires CallOf(ms, a, p)
  {
    NewId(ms[a], IdAt(ms, a, p), target, norm)
  }

  ghost predicate DistinctCalls(ms: seq<Message>) {
    forall a: nat, p: nat, b: nat, q: nat ::
      CallOf(ms, a, p) && CallOf(ms, b, q) && IdAt(ms, a, p) == IdAt(ms, b, q) ==> a == b && p == q
  }

  ghost predicate IsCallId(ms: seq<Message>, id: string) {
    exists a: nat, p: nat :: CallOf(ms, a, p) && IdAt(ms, a, p) == id
  }

  /** The renaming is injective on the ids of the conversation; ids of results whose call does
      not survive are not renamed. */
  ghost predicate InjectiveRenaming(ms: seq<Message>, target: Model, norm: Option<Normalizer>) {
    && (forall a: nat, p: nat, b: nat, q: nat ::
          CallOf(ms, a, p) && CallOf(ms, b, q)
          && NewIdAt(ms, a, p, target, norm) == NewIdAt(ms, b, q, target, norm)
          ==> IdAt(ms, a, p) == IdAt(ms, b, q))
    && (forall r: nat, b: nat, q: nat ::
          r < |ms| && ms[r].ToolResult? && CallOf(ms, b, q) && !IsCallId(ms, ms[r].callId)
          ==> NewIdAt(ms, b, q, target, norm) != ms[r].callId)
  }

  // ---- what the id map holds ----

  ghost predicate HasCall(bs: seq<Block>, id: string) {
    exists c :: c in Calls(bs) && c.id == id
  }

  lemma {:induction false} RenamesHold(ids: map<string, string>, bs: seq<Block>, m: Message, target: Model,
                                       norm: Option<Normalizer>, id: string)
    requires m.Assistant?
    ensures HasCall(bs, id) && id !in ids ==> Lookup(Renames(ids, bs, m, target, norm), id) == NewId(m, id, target, norm)
    ensures !HasCall(bs, id) ==> (id in Renames(ids, bs, m, target, norm) <==> id in ids)
    ensures !HasCall(bs, id) ==> Lookup(Renames(ids, bs, m, target, norm), id) == Lookup(ids, id)
  {
    if bs != [] {
      var init, b := bs[..|bs| - 1], bs[|bs| - 1];
      RenamesHold(ids, init, m, target, norm, id);
      assert Calls(bs) == Calls(init) + if b.Call? then [b.call] else [];
      assert HasCall(bs, id) <==> HasCall(init, id) || (b.Call? && b.call.id == id) by {
        if HasCall(init, id) {
          var c :| c in Calls(init) && c.id == id;
          assert c in Calls(bs);
        }
        if b.Call? {
          assert b.call in Calls(bs);
        }
      }
      if !HasCall(init, id) && id !in ids {
        assert id !in Renames(ids, init, m, target, norm);
      }
    }
  }

  lemma CallIdIsHere(ms: seq<Message>, n: nat, id: string)
    requires n < |ms| && ms[n].Assistant? && Retained(ms[n]) && HasCall(ms[n].content, id)
    ensures exists p: nat :: CallOf(ms, n, p) && IdAt(ms, n, p) == id
  {
    var c :| c in Calls(ms[n].content) && c.id == id;
    var p :| 0 <= p < |Calls(ms[n].content)| && Calls(ms[n].content)[p] == c;
    assert CallOf(ms, n, p) && IdAt(ms, n, p) == id;
  }

  lemma DistinctPrefix(ms: seq<Message>, n: nat)
    requires DistinctCalls(ms) && n <= |ms|
    ensures DistinctCalls(ms[..n])
    ensures forall a: nat, p: nat :: CallOf(ms[..n], a, p) <==> a < n && CallOf(ms, a, p)
    ensures forall a: nat, p: nat :: CallOf(ms[..n], a, p) ==> IdAt(ms[..n], a, p) == IdAt(ms, a, p)
  {
    forall a: nat, p: nat | CallOf(ms[..n], a, p)
      ensures CallOf(ms, a, p) && IdAt(ms[..n], a, p) == IdAt(ms, a, p)
    {
    }
  }

  lemma StillCallId(ms: seq<Message>, n: nat, id: string)
    requires DistinctCalls(ms) && n <= |ms|
    ensures IsCallId(ms[..n], id) ==> IsCallId(ms, id)
  {
    DistinctPrefix(ms, n);
    if a: nat, p: nat :| CallOf(ms[..n], a, p) && IdAt(ms[..n], a, p) == id {
      assert CallOf(ms, a, p) && IdAt(ms, a, p) == id;
    }
  }

  lemma CalledOnce(ms: seq<Message>, n: nat, q: nat)
    requires DistinctCalls(ms) && CallOf(ms, n, q)
    ensures !IsCallId(ms[..n], IdAt(ms, n, q))
  {
    DistinctPrefix(ms, n);
    forall a: nat, p: nat | CallOf(ms[..n], a, p)
      ensures IdAt(ms[..n], a, p) != IdAt(ms, n, q)
    {
      assert CallOf(ms, a, p);
    }
  }

  /** After any prefix the map sends every call id of the prefix to its new id. */
  lemma {:induction false} MapHolds(ms: seq<Message>, target: Model, norm: Option<Normalizer>, id: string)
    requires DistinctCalls(ms)
    ensures forall a: nat, p: nat :: CallOf(ms, a, p) && IdAt(ms, a, p) == id ==>
              Lookup(Rewrite(ms, target, norm).ids, id) == NewIdAt(ms, a, p, target, norm)
    ensures !IsCallId(ms, id) ==> id !in Rewrite(ms, target, norm).ids
  {
    if ms != [] {
      var n := |ms| - 1;
      var init, m := ms[..n], ms[n];
      DistinctPrefix(ms, n);
      MapHolds(init, target, norm, id);
      var ids := Rewrite(init, target, norm).ids;
      if m.Assistant? && Retained(m) {
        RenamesHold(ids, m.content, m, target, norm, id);
        if HasCall(m.content, id) {
          CallIdIsHere(ms, n, id);
          var q: nat :| CallOf(ms, n, q) && IdAt(ms, n, q) == id;
          CalledOnce(ms, n, q);
        } else {
          forall a: nat, p: nat | CallOf(ms, a, p) && IdAt(ms, a, p) == id
            ensures CallOf(init, a, p)
          {
            assert Calls(ms[a].content)[p] in Calls(ms[a].content);
          }
        }
      }
      StillCallId(ms, n, id);
    }
  }

  // ---- where messages go ----

  /** The position of a surviving message in the output. */
  function Place(ms: seq<Message>, i: nat): nat
    requires i <= |ms|
  {
    if i == 0 then 0 else Place(ms, i - 1) + if Retained(ms[i - 1]) then 1 else 0
  }

  lemma {:induction false} PlaceInPrefix(ms: seq<Message>, n: nat, i: nat)
    requires i <= n <= |ms|
    ensures Place(ms[..n], i) == Place(ms, i)
  {
    if i > 0 {
      PlaceInPrefix(ms, n, i - 1);
    }
  }

  lemma {:induction false} RewriteAt(ms: seq<Message>, target: Model, norm: Option<Normalizer>)
    ensures |Rewrite(ms, target, norm).out| == Place(ms, |ms|)
    ensures forall i :: 0 <= i < |ms| && Retained(ms[i]) ==>
              && Place(ms, i) < |Rewrite(ms, target, norm).out|
              && Rewrite(ms, target, norm).out[Place(ms, i)] == Rewritten(ms[i], Rewrite(ms[..i], target, norm).ids, target, norm)
  {
    if ms != [] {
      var n := |ms| - 1;
      var init := ms[..n];
      RewriteAt(init, target, norm);
      PlaceInPrefix(ms, n, n);
      forall i | 0 <= i < |ms| && Retained(ms[i])
        ensures Place(ms, i) < |Rewrite(ms, target, norm).out|
        ensures Rewrite(ms, target, norm).out[Place(ms, i)] == Rewritten(ms[i], Rewrite(ms[..i], target, norm).ids, target, norm)
      {
        PlaceInPrefix(ms, n, i);
        if i < n {
          assert init[i] == ms[i] && init[..i] == ms[..i];
        }
      }
    }
  }

  /** Rewriting keeps a message's calls, in order, under their new ids. */
  lemma {:induction false} CallsOfNewContent(bs: seq<Block>, m: Message, target: Model, norm: Option<Normalizer>)
    requires m.Assistant?
    ensures |Calls(NewContent(bs, m, target, norm))| == |Calls(bs)|
    ensures forall p :: 0 <= p < |Calls(bs)| ==>
              && Calls(NewContent(bs, m, target, norm))[p].id == NewId(m, Calls(bs)[p].id, target, norm)
              && Calls(NewContent(bs, m, target, norm))[p].name == Calls(bs)[p].name
  {
    if bs != [] {
      var init, b := bs[..|bs| - 1], bs[|bs| - 1];
      CallsOfNewContent(init, m, target, norm);
      CallsOfNewBlock(NewContent(init, m, target, norm), b, m, target, norm);
    }
  }

  lemma CallsOfNewBlock(before: seq<Block>, b: Block, m: Message, target: Model, norm: Option<Normalizer>)
    requires m.Assistant?
    ensures Calls(before + NewBlock(b, m, target, norm))
         == Calls(before) + if b.Call? then [NewBlock(b, m, target, norm)[0].call] else []
  {
    var nb := NewBlock(b, m, target, norm);
    if nb == [] {
      assert before + nb == before;
    } else {
      assert nb == [nb[0]];
      CallsSnoc(before, nb[0]);
    }
  }

  /** The id of result `r` and of call `q` of message `b` in the rewritten conversation. */
  lemma RewrittenIds(ms: seq<Message>, target: Model, norm: Option<Normalizer>, r: nat, b: nat, q: nat)
    requires r < |ms| && ms[r].ToolResult? && CallOf(ms, b, q)
    ensures var out := Rewrite(ms, target, norm).out;
            && Place(ms, r) < |out| && Place(ms, b) < |out|
            && out[Place(ms, r)] == ms[r].(callId := Lookup(Rewrite(ms[..r], target, norm).ids, ms[r].callId))
            && out[Place(ms, b)].Assistant? && q < |Calls(out[Place(ms, b)].content)|
            && Calls(out[Place(ms, b)].content)[q].id == NewIdAt(ms, b, q, target, norm)
  {
    RewriteAt(ms, target, norm);
    CallsOfNewContent(ms[b].content, ms[b], target, norm);
  }

  // ---- through the second pass ----

  /** Where the n-th message that was not made stands. */
  function GivenAt(slots: seq<Slot>, n: nat): (k: nat)
    requires n < |Givens(slots)|
    ensures k < |slots| && slots[k] == Given(Givens(slots)[n])
  {
    var init := slots[..|slots| - 1];
    if n < |Givens(init)| then GivenAt(init, n) else |slots| - 1
  }

  lemma {:induction false} GivenAtRises(slots: seq<Slot>, n: nat, m: nat)
    requires n < m < |Givens(slots)|
    ensures GivenAt(slots, n) < GivenAt(slots, m)
  {
    var init := slots[..|slots| - 1];
    if m < |Givens(init)| {
      GivenAtRises(init, n, m);
    }
  }

  /** Where message `i` of the conversation stands in the transformed one. */
  ghost function Spot(ms: seq<Message>, target: Model, norm: Option<Normalizer>, now: int, i: nat): (k: nat)
    requires i < |ms| && Retained(ms[i])
    ensures k < |Transformed(ms, target, norm, now)|
    ensures Place(ms, i) < |Rewrite(ms, target, norm).out|
    ensures Transformed(ms, target, norm, now)[k] == Rewrite(ms, target, norm).out[Place(ms, i)]
  {
    RewriteAt(ms, target, norm);
    TransformKeepsOrder(ms, target, norm, now);
    GivenAt(FillAll(Rewrite(ms, target, norm).out, now), Place(ms, i))
  }

  lemma {:induction false} PlaceRises(ms: seq<Message>, i: nat, j: nat)
    requires i < j <= |ms| && Retained(ms[i])
    ensures Place(ms, i) < Place(ms, j)
  {
    if i < j - 1 {
      PlaceRises(ms, i, j - 1);
    }
  }

  /** The conversation keeps its order. */
  lemma SpotRises(ms: seq<Message>, target: Model, norm: Option<Normalizer>, now: int, i: nat, j: nat)
    requires i < j < |ms| && Retained(ms[i]) && Retained(ms[j])
    ensures Spot(ms, target, norm, now, i) < Spot(ms, target, norm, now, j)
  {
    RewriteAt(ms, target, norm);
    TransformKeepsOrder(ms, target, norm, now);
    PlaceRises(ms, i, j);
    GivenAtRises(FillAll(Rewrite(ms, target, norm).out, now), Place(ms, i), Place(ms, j));
  }

  /** A result that follows its call follows that call in the transformed conversation, names it
      and no other. */
  lemma ResultKeepsItsCall(ms: seq<Message>, target: Model, norm: Option<Normalizer>, now: int,
                           a: nat, p: nat, r: nat, b: nat, q: nat)
    requires DistinctCalls(ms) && InjectiveRenaming(ms, target, norm)
    requires CallOf(ms, a, p) && CallOf(ms, b, q)
    requires a < r < |ms| && ms[r].ToolResult? && ms[r].callId == IdAt(ms, a, p)
    ensures Spot(ms, target, norm, now, a) < Spot(ms, target, norm, now, r)
    ensures var out, k, c := Transformed(ms, target, norm, now), Spot(ms, target, norm, now, r), Spot(ms, target, norm, now, b);
            && out[k].ToolResult? && out[c].Assistant? && q < |Calls(out[c].content)|
            && (out[k].callId == Calls(out[c].content)[q].id <==> a == b && p == q)
  {
    RewrittenIds(ms, target, norm, r, b, q);
    DistinctPrefix(ms, r);
    assert CallOf(ms[..r], a, p);
    MapHolds(ms[..r], target, norm, ms[r].callId);
    assert NewIdAt(ms[..r], a, p, target, norm) == NewIdAt(ms, a, p, target, norm);
    SpotRises(ms, target, norm, now, a, r);
  }

  /** A result without a surviving call stays as it is and answers nobody else's call. */
  lemma OrphanStaysOrphan(ms: seq<Message>, target: Model, norm: Option<Normalizer>, now: int, r: nat, b: nat, q: nat)
    requires DistinctCalls(ms) && InjectiveRenaming(ms, target, norm)
    requires r < |ms| && ms[r].ToolResult? && !IsCallId(ms, ms[r].callId) && CallOf(ms, b, q)
    ensures var out, k, c := Transformed(ms, target, norm, now), Spot(ms, target, norm, now, r), Spot(ms, target, norm, now, b);
            && out[k] == ms[r] && out[c].Assistant? && q < |Calls(out[c].content)|
            && Calls(out[c].content)[q].id != out[k].callId
  {
    RewrittenIds(ms, target, norm, r, b, q);
    DistinctPrefix(ms, r);
    StillCallId(ms, r, ms[r].callId);
    MapHolds(ms[..r], target, norm, ms[r].callId);
  }
}
