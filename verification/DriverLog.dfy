/** The shape of the log that the native driver writes, as an automaton over its messages, and
    what the transform has to add to such a log. */
module DriverLog {
  import opened Wrappers
  import opened Conversation
  import opened Transform
  import opened TransformFacts
  import opened TransformRenaming
  import opened TransformBlocks

  /** Tells by name which tools end a turn. */
  type Terminal = string -> bool

  /** Nothing is owed; or results are owed for calls `next`, `next + 1`, ...; or a message came
      that does not belong. */
  datatype Status = Quiet | Owing(calls: seq<ToolCall>, next: nat) | Broken

  predicate Answers(m: Message, c: ToolCall) {
    m.ToolResult? && m.callId == c.id && m.toolName == c.name
  }

  function After(st: Status, m: Message, terminal: Terminal): Status {
    match st
    case Quiet =>
      if m.User? then Quiet
      else if m.Assistant? then (if Calls(m.content) == [] then Quiet else Owing(Calls(m.content), 0))
      else Broken
    case Owing(calls, k) =>
      if k < |calls| && Answers(m, calls[k]) then
        if terminal(calls[k].name) || k + 1 == |calls| then Quiet else Owing(calls, k + 1)
      else Broken
    case Broken => Broken
  }

  function StatusOf(log: seq<Message>, terminal: Terminal): Status {
    if log == [] then Quiet else After(StatusOf(log[..|log| - 1], terminal), log[|log| - 1], terminal)
  }

  lemma StatusSnoc(log: seq<Message>, m: Message, terminal: Terminal)
    ensures StatusOf(log + [m], terminal) == After(StatusOf(log, terminal), m, terminal)
  {
    assert (log + [m])[..|log|] == log;
  }

  // ---- what the automaton means ----

  /** The messages behind `a` answer the first `n` of the calls, in order. */
  ghost predicate Answering(log: seq<Message>, a: nat, cs: seq<ToolCall>, n: nat) {
    && a + n < |log| && n <= |cs|
    && forall j :: a < j <= a + n ==> Answers(log[j], cs[j - a - 1])
  }

  /** None of the first `n` calls is terminal. */
  ghost predicate NoneTerminal(cs: seq<ToolCall>, n: int, terminal: Terminal)
    requires n <= |cs|
  {
    forall k :: 0 <= k < n ==> !terminal(cs[k].name)
  }

  /** Message `a` is followed by the results of its first `n` calls and by no other result; these
      are all its calls, unless the last of them is terminal, which only the last can be. */
  ghost predicate FinishedBlock(log: seq<Message>, a: nat, n: nat, terminal: Terminal) {
    && a < |log| && log[a].Assistant?
    && var cs := Calls(log[a].content);
    && Answering(log, a, cs, n) && NoneTerminal(cs, n - 1, terminal)
    && (n == |cs| || (n > 0 && terminal(cs[n - 1].name)))
    && (a + 1 + n < |log| ==> !log[a + 1 + n].ToolResult?)
    && StatusOf(log[..a + 1 + n], terminal) == Quiet
  }

  lemma AnsweringMore(init: seq<Message>, log: seq<Message>, a: nat, cs: seq<ToolCall>, n: nat)
    requires Answering(init, a, cs, n) && |init| == a + 1 + n && n < |cs|
    requires |log| == |init| + 1 && init == log[..|init|] && Answers(log[|init|], cs[n])
    ensures Answering(log, a, cs, n + 1)
  {
    assert forall j :: 0 <= j < |init| ==> init[j] == log[j];
  }

  /** While results are owed, the log ends in the message that asked and the results so far. */
  lemma {:induction false} OwingMeans(log: seq<Message>, terminal: Terminal)
    requires StatusOf(log, terminal).Owing?
    ensures var st := StatusOf(log, terminal);
            OwedAt(log, |log| - 1 - st.next, st.calls, st.next, terminal)
  {
    var n := |log| - 1;
    var init := log[..n];
    var before := StatusOf(init, terminal);
    if before.Owing? {
      OwingMeans(init, terminal);
      OneMoreOwed(init, log, n - 1 - before.next, before.calls, before.next, terminal);
    } else {
      assert OwedAt(log, n, Calls(log[n].content), 0, terminal);
    }
  }

  ghost predicate OwedAt(log: seq<Message>, a: int, cs: seq<ToolCall>, n: nat, terminal: Terminal) {
    && 0 <= a && a + 1 + n == |log| && n < |cs|
    && log[a].Assistant? && Calls(log[a].content) == cs
    && Answering(log, a, cs, n) && NoneTerminal(cs, n, terminal)
    && StatusOf(log[..a], terminal) == Quiet
  }

  lemma OneMoreOwed(init: seq<Message>, log: seq<Message>, a: int, cs: seq<ToolCall>, n: nat, terminal: Terminal)
    requires OwedAt(init, a, cs, n, terminal) && n + 1 < |cs|
    requires |log| == |init| + 1 && init == log[..|init|] && Answers(log[|init|], cs[n]) && !terminal(cs[n].name)
    ensures OwedAt(log, a, cs, n + 1, terminal)
  {
    assert init[..a] == log[..a] && init[a] == log[a];
    AnsweringMore(init, log, a, cs, n);
  }

  lemma BlockInLonger(init: seq<Message>, log: seq<Message>, a: nat, n: nat, terminal: Terminal)
    requires init <= log && FinishedBlock(init, a, n, terminal)
    requires |init| < |log| ==> !log[|init|].ToolResult?
    ensures FinishedBlock(log, a, n, terminal)
  {
    assert forall k :: 0 <= k < |init| ==> init[k] == log[k];
    assert init[..a + 1 + n] == log[..a + 1 + n];
  }

  /** In a quiet log every assistant message is followed by the results of its calls in order,
      all of them unless cut at a terminal tool. */
  lemma {:induction false} QuietMeans(log: seq<Message>, terminal: Terminal, a: nat)
    requires StatusOf(log, terminal) == Quiet && a < |log| && log[a].Assistant?
    ensures exists n: nat :: FinishedBlock(log, a, n, terminal)
    decreases |log|
  {
    var n := |log| - 1;
    var init := log[..n];
    var before := StatusOf(init, terminal);
    if before.Owing? {
      OwingMeans(init, terminal);
      var b := n - 1 - before.next;
      assert init[..b] == log[..b];
      if a < b {
        QuietBefore(log, terminal, a, b);
      } else {
        AnsweringMore(init, log, b, before.calls, before.next);
        LastBlock(log, terminal, a, b, before.next + 1);
      }
    } else if a < n {
      QuietBefore(log, terminal, a, n);
    } else {
      LastAlone(log, terminal, a);
    }
  }

  lemma LastAlone(log: seq<Message>, terminal: Terminal, a: nat)
    requires StatusOf(log, terminal) == Quiet && |log| == a + 1 && log[a].Assistant? && Calls(log[a].content) == []
    ensures FinishedBlock(log, a, 0, terminal)
  {
    assert log[..a + 1] == log;
  }

  lemma {:induction false} QuietBefore(log: seq<Message>, terminal: Terminal, a: nat, b: nat)
    requires a < b < |log| && log[a].Assistant? && !log[b].ToolResult?
    requires StatusOf(log[..b], terminal) == Quiet
    ensures exists n: nat :: FinishedBlock(log, a, n, terminal)
    decreases |log|, 0
  {
    QuietMeans(log[..b], terminal, a);
    var len: nat :| FinishedBlock(log[..b], a, len, terminal);
    BlockInLonger(log[..b], log, a, len, terminal);
  }

  lemma LastBlock(log: seq<Message>, terminal: Terminal, a: nat, b: nat, n: nat)
    requires b < |log| && log[b].Assistant? && a < |log| && log[a].Assistant? && a >= b && n > 0
    requires StatusOf(log, terminal) == Quiet
    requires var cs := Calls(log[b].content);
             && Answering(log, b, cs, n) && |log| == b + 1 + n && NoneTerminal(cs, n - 1, terminal)
             && (n == |cs| || terminal(cs[n - 1].name))
    ensures FinishedBlock(log, a, n, terminal)
  {
    assert log[..|log|] == log;
  }

  // ---- what the transform adds ----

  /** Every message of the rewritten log comes from one of the log. */
  lemma {:induction false} Origin(log: seq<Message>, i: nat, target: Model, norm: Option<Normalizer>)
    requires i < |Rewrite(log, target, norm).out|
    ensures exists a: nat :: a < |log| && Retained(log[a]) && Place(log, a) == i
  {
    var n := |log| - 1;
    RewriteAt(log, target, norm);
    RewriteAt(log[..n], target, norm);
    if i < |Rewrite(log[..n], target, norm).out| {
      Origin(log[..n], i, target, norm);
      var a: nat :| a < n && Retained(log[..n][a]) && Place(log[..n], a) == i;
      PlaceInPrefix(log, n, a);
    } else {
      PlaceInPrefix(log, n, n);
    }
  }

  /** Results are never dropped, so they stay right behind their call. */
  lemma {:induction false} PlaceOfResults(log: seq<Message>, a: nat, k: nat)
    requires a < |log| && Retained(log[a]) && a + k < |log|
    requires forall j :: a < j <= a + k ==> log[j].ToolResult?
    ensures Place(log, a + k) == Place(log, a) + k
  {
    if k > 0 {
      PlaceOfResults(log, a, k - 1);
    }
  }

  /** A result in the log is the same result in the rewritten log. */
  lemma ResultStays(log: seq<Message>, target: Model, r: nat)
    requires r < |log| && log[r].ToolResult?
    ensures Place(log, r) < |Rewrite(log, target, None).out|
    ensures Rewrite(log, target, None).out[Place(log, r)] == log[r]
  {
    RewriteAt(log, target, None);
    assert Rewrite(log[..r], target, None).ids == map[] by { RewriteIsStable(log[..r], target); }
  }

  /** The messages behind `a` are results of the first `n` of the calls, by id. */
  ghost predicate ResultsBehind(out: seq<Message>, a: nat, cs: seq<ToolCall>, n: nat) {
    && a + n < |out| && n <= |cs|
    && forall j :: a < j <= a + n ==> out[j].ToolResult? && out[j].callId == cs[j - a - 1].id
  }

  /** The results of a block are right behind the call in the rewritten log too. */
  lemma RewrittenBlock(log: seq<Message>, target: Model, a: nat, cs: seq<ToolCall>, n: nat)
    requires a < |log| && Retained(log[a]) && Answering(log, a, cs, n)
    ensures ResultsBehind(Rewrite(log, target, None).out, Place(log, a), cs, n)
  {
    var out := Rewrite(log, target, None).out;
    var d := Place(log, a);
    assert d < |out| by { RewriteAt(log, target, None); }
    forall j | d < j <= d + n
      ensures j < |out| && out[j].ToolResult? && out[j].callId == cs[j - d - 1].id
    {
      BlockResult(log, target, a, cs, n, j - d);
    }
    if n > 0 {
      BlockResult(log, target, a, cs, n, n);
    }
  }

  lemma BlockResult(log: seq<Message>, target: Model, a: nat, cs: seq<ToolCall>, n: nat, k: nat)
    requires a < |log| && Retained(log[a]) && Answering(log, a, cs, n) && 0 < k <= n
    ensures var out, j := Rewrite(log, target, None).out, Place(log, a) + k;
            j < |out| && out[j].ToolResult? && out[j].callId == cs[k - 1].id
  {
    assert forall j :: a < j <= a + k ==> Answers(log[j], cs[j - a - 1]);
    PlaceOfResults(log, a, k);
    ResultStays(log, target, a + k);
  }

  lemma {:induction false} NextAtLeast(ms: seq<Message>, i: nat, j: nat)
    requires i <= j <= |ms| && forall k :: i <= k < j ==> !ms[k].Assistant?
    ensures NextAssistant(ms, i) >= j
    decreases j - i
  {
    if i < j {
      NextAtLeast(ms, i + 1, j);
    }
  }

  /** The results right behind a message are none of the calls its block leaves unanswered. */
  lemma BlockAnswers(out: seq<Message>, a: nat, cs: seq<ToolCall>, n: nat, id: string)
    requires a < |out| && ResultsBehind(out, a, cs, n) && id in Unanswered(out, a)
    ensures forall q :: 0 <= q < n ==> cs[q].id != id
  {
    var e := NextAssistant(out, a + 1);
    NextAtLeast(out, a + 1, a + 1 + n);
    forall q | 0 <= q < n ensures cs[q].id != id {
      GivenDoesNotAnswer(out, a, q + 1, id);
      assert out[a + 1 + q].callId == cs[q].id;
    }
  }

  /** Call p of message a was cut off: a terminal call ended the block before it, after n results,
      none of which is for its id. */
  ghost predicate CutOff(log: seq<Message>, a: nat, n: nat, p: nat, terminal: Terminal) {
    && FinishedBlock(log, a, n, terminal)
    && var cs := Calls(log[a].content);
       && 0 < n <= p < |cs| && terminal(cs[n - 1].name)
       && forall q :: 0 <= q < n ==> cs[q].id != cs[p].id
  }

  /** Slot k is the one result for call p of message a, in the block of that message, which keeps
      its place among the messages retained. */
  ghost predicate StandsFor(log: seq<Message>, slots: seq<Slot>, target: Model, k: nat, a: nat, p: nat, s: nat, t: nat) {
    && a < |log| && log[a].Assistant? && p < |Calls(log[a].content)|
    && OnlyResult(slots, s, k, t) && slots[k].m.callId == Calls(log[a].content)[p].id
    && slots[s] == Given(Rewritten(log[a], map[], target, None)) && GivenBefore(slots, s) == Place(log, a)
  }

  lemma RewrittenFrom(log: seq<Message>, target: Model, a: nat)
    requires a < |log| && Retained(log[a])
    ensures Place(log, a) < |Rewrite(log, target, None).out|
    ensures Rewrite(log, target, None).out[Place(log, a)] == Rewritten(log[a], map[], target, None)
  {
    RewriteAt(log, target, None);
    assert Rewrite(log[..a], target, None).ids == map[] by { RewriteIsStable(log[..a], target); }
  }

  lemma CalledAt(m: Message, target: Model, id: string) returns (p: nat)
    requires m.Assistant? && id in CallIds(Rewritten(m, map[], target, None))
    ensures p < |Calls(m.content)| && Calls(m.content)[p].id == id
  {
    CallsOfNewContent(m.content, m, target, None);
    var ncs := Calls(Rewritten(m, map[], target, None).content);
    var c :| c in ncs && c.id == id;
    p :| 0 <= p < |ncs| && ncs[p] == c;
  }

  /** A made result at k is the one result for a call that a terminal tool cut off, in its block. */
  ghost predicate ForCutOff(log: seq<Message>, slots: seq<Slot>, target: Model, terminal: Terminal, k: nat) {
    exists a: nat, n: nat, p: nat, s: nat, t: nat ::
      CutOff(log, a, n, p, terminal) && StandsFor(log, slots, target, k, a, p, s, t)
  }

  /** At a quiet moment every result that the transform makes up is the one result for a call that
      a terminal tool cut off, and it stands in the block of that call. */
  lemma QuietNeedsLittle(log: seq<Message>, target: Model, terminal: Terminal, now: int)
    requires StatusOf(log, terminal) == Quiet
    ensures var slots := FillAll(Rewrite(log, target, None).out, now);
            forall k :: 0 <= k < |slots| && slots[k].Made? ==> ForCutOff(log, slots, target, terminal, k)
  {
    var out := Rewrite(log, target, None).out;
    var slots := FillAll(out, now);
    forall k | 0 <= k < |slots| && slots[k].Made?
      ensures ForCutOff(log, slots, target, terminal, k)
    {
      var a, s, t := MadeOnlyForGaps(out, now, k);
      MadeForCutOff(log, target, terminal, out, slots, k, a, s, t);
    }
  }

  lemma MadeForCutOff(log: seq<Message>, target: Model, terminal: Terminal, out: seq<Message>, slots: seq<Slot>,
                      k: nat, b: nat, s: nat, t: nat)
    requires StatusOf(log, terminal) == Quiet && out == Rewrite(log, target, None).out
    requires b < |out| && OnlyResult(slots, s, k, t) && slots[s] == Given(out[b]) && GivenBefore(slots, s) == b
    requires slots[k].Made? && slots[k].m.callId in Unanswered(out, b)
    ensures ForCutOff(log, slots, target, terminal, k)
  {
    Origin(log, b, target, None);
    var a: nat :| a < |log| && Retained(log[a]) && Place(log, a) == b;
    RewrittenFrom(log, target, a);
    assert log[a].Assistant?;
    var n, p := CutOffCall(log, target, terminal, a, slots[k].m.callId);
    assert StandsFor(log, slots, target, k, a, p, s, t);
  }

  lemma CutOffCall(log: seq<Message>, target: Model, terminal: Terminal, a: nat, id: string) returns (n: nat, p: nat)
    requires StatusOf(log, terminal) == Quiet && a < |log| && log[a].Assistant? && Retained(log[a])
    requires Place(log, a) < |Rewrite(log, target, None).out|
    requires id in Unanswered(Rewrite(log, target, None).out, Place(log, a))
    ensures CutOff(log, a, n, p, terminal) && Calls(log[a].content)[p].id == id
  {
    var out, cs := Rewrite(log, target, None).out, Calls(log[a].content);
    QuietMeans(log, terminal, a);
    n :| FinishedBlock(log, a, n, terminal);
    RewrittenFrom(log, target, a);
    p := CalledAt(log[a], target, id);
    RewrittenBlock(log, target, a, cs, n);
    BlockAnswers(out, Place(log, a), cs, n, id);
  }

  // ---- exactly what stands behind each message ----

  /** No assistant message ended in an error or was aborted. */
  ghost predicate AllRetained(log: seq<Message>) {
    forall i :: 0 <= i < |log| ==> Retained(log[i])
  }

  lemma {:induction false} PlaceIsIndex(log: seq<Message>, i: nat)
    requires AllRetained(log) && i <= |log|
    ensures Place(log, i) == i
  {
    if i > 0 {
      PlaceIsIndex(log, i - 1);
    }
  }

  lemma RewrittenOneByOne(log: seq<Message>, target: Model)
    requires AllRetained(log)
    ensures var out := Rewrite(log, target, None).out;
            |out| == |log| && forall i :: 0 <= i < |log| ==> out[i] == Rewritten(log[i], map[], target, None)
  {
    RewriteAt(log, target, None);
    PlaceIsIndex(log, |log|);
    forall i | 0 <= i < |log| ensures Rewrite(log, target, None).out[i] == Rewritten(log[i], map[], target, None) {
      PlaceIsIndex(log, i);
      RewrittenFrom(log, target, i);
    }
  }

  lemma {:induction false} BrokenStays(log: seq<Message>, i: nat, terminal: Terminal)
    requires i <= |log| && StatusOf(log[..i], terminal) == Broken
    ensures StatusOf(log, terminal) == Broken
    decreases |log| - i
  {
    if i == |log| {
      assert log[..i] == log;
    } else {
      assert log[..i + 1] == log[..i] + [log[i]];
      StatusSnoc(log[..i], log[i], terminal);
      BrokenStays(log, i + 1, terminal);
    }
  }

  /** From a quiet moment to the next assistant message there are only user messages. */
  lemma {:induction false} OnlyUsers(log: seq<Message>, terminal: Terminal, i: nat, j: nat)
    requires i <= |log| && i <= j <= NextAssistant(log, i) && StatusOf(log, terminal) != Broken
    requires StatusOf(log[..i], terminal) == Quiet
    ensures StatusOf(log[..j], terminal) == Quiet && forall k :: i <= k < j ==> log[k].User?
    decreases j
  {
    if i < j {
      OnlyUsers(log, terminal, i, j - 1);
      assert log[..j] == log[..j - 1] + [log[j - 1]];
      StatusSnoc(log[..j - 1], log[j - 1], terminal);
      if StatusOf(log[..j], terminal) == Broken {
        BrokenStays(log, j, terminal);
      }
    }
  }

  function Ids(cs: seq<ToolCall>): set<string> {
    set c | c in cs :: c.id
  }

  /** The ids of the calls from n on that are not among the first n. */
  function SkippedIds(cs: seq<ToolCall>, n: nat): set<string>
    requires n <= |cs|
  {
    Ids(cs) - Ids(cs[..n])
  }

  /** Behind assistant message a come n results in the order of its calls, then only user messages
      up to the next one; rewriting leaves all of them; and what the block leaves unanswered, for
      which the transform makes one result each, are the ids of the calls that were cut off. */
  ghost predicate BlockIs(log: seq<Message>, target: Model, terminal: Terminal, a: nat, n: nat) {
    && FinishedBlock(log, a, n, terminal)
    && var e, out := NextAssistant(log, a + 1), Rewrite(log, target, None).out;
       && a + 1 + n <= e && (forall j :: a + n < j < e ==> log[j].User?)
       && |out| == |log| && out[a] == Rewritten(log[a], map[], target, None)
       && NextAssistant(out, a + 1) == e && out[a + 1..e] == log[a + 1..e]
       && Unanswered(out, a) == SkippedIds(Calls(log[a].content), n)
  }

  lemma QuietBlock(log: seq<Message>, target: Model, terminal: Terminal, a: nat) returns (n: nat)
    requires StatusOf(log, terminal) == Quiet && AllRetained(log) && a < |log| && log[a].Assistant?
    ensures BlockIs(log, target, terminal, a, n)
  {
    QuietMeans(log, terminal, a);
    n :| FinishedBlock(log, a, n, terminal);
    BlockReaches(log, a, n, terminal);
    OnlyUsersBehind(log, terminal, a, n);
    AnsweredIds(log, a, n, terminal);
    RewrittenBlockIs(log, target, a);
  }

  /** Rewriting a log without errors changes nothing in a block but its first message. */
  lemma RewrittenBlockIs(log: seq<Message>, target: Model, a: nat)
    requires AllRetained(log) && a < |log| && log[a].Assistant?
    ensures var out := Rewrite(log, target, None).out;
            && |out| == |log| && out[a] == Rewritten(log[a], map[], target, None)
            && NextAssistant(out, a + 1) == NextAssistant(log, a + 1)
            && out[a + 1..NextAssistant(out, a + 1)] == log[a + 1..NextAssistant(log, a + 1)]
            && CallIds(out[a]) == Ids(Calls(log[a].content))
  {
    var out := Rewrite(log, target, None).out;
    RewrittenOneByOne(log, target);
    SameNext(log, out, target, a + 1);
    SameInside(log, out, target, a + 1, NextAssistant(log, a + 1));
    SameIds(log[a], target);
  }

  lemma SameInside(log: seq<Message>, out: seq<Message>, target: Model, i: nat, e: nat)
    requires i <= e <= |log| == |out| && forall j :: 0 <= j < |log| ==> out[j] == Rewritten(log[j], map[], target, None)
    requires forall j :: i <= j < e ==> !log[j].Assistant?
    ensures out[i..e] == log[i..e]
  {
    assert forall j :: i <= j < e ==> out[j] == log[j];
  }

  lemma BlockReaches(log: seq<Message>, a: nat, n: nat, terminal: Terminal)
    requires FinishedBlock(log, a, n, terminal)
    ensures a + 1 + n <= NextAssistant(log, a + 1)
  {
    forall k | a + 1 <= k < a + 1 + n ensures !log[k].Assistant? {
      assert Answers(log[k], Calls(log[a].content)[k - a - 1]);
    }
    NextAtLeast(log, a + 1, a + 1 + n);
  }

  lemma OnlyUsersBehind(log: seq<Message>, terminal: Terminal, a: nat, n: nat)
    requires StatusOf(log, terminal) == Quiet && FinishedBlock(log, a, n, terminal) && a + 1 + n <= NextAssistant(log, a + 1)
    ensures forall j :: a + n < j < NextAssistant(log, a + 1) ==> log[j].User?
  {
    NextFromLater(log, a + 1, a + 1 + n);
    OnlyUsers(log, terminal, a + 1 + n, NextAssistant(log, a + 1));
  }

  lemma {:induction false} NextFromLater(ms: seq<Message>, i: nat, j: nat)
    requires i <= j <= |ms| && j <= NextAssistant(ms, i)
    ensures NextAssistant(ms, j) == NextAssistant(ms, i)
    decreases j - i
  {
    if i < j {
      NextFromLater(ms, i + 1, j);
    }
  }

  lemma {:induction false} SameNext(log: seq<Message>, out: seq<Message>, target: Model, i: nat)
    requires |out| == |log| && i <= |log| && forall j :: 0 <= j < |log| ==> out[j] == Rewritten(log[j], map[], target, None)
    ensures NextAssistant(out, i) == NextAssistant(log, i)
    decreases |log| - i
  {
    if i < |log| && !log[i].Assistant? {
      SameNext(log, out, target, i + 1);
    }
  }

  lemma IdsMeans(cs: seq<ToolCall>, id: string)
    ensures id in Ids(cs) <==> exists q :: 0 <= q < |cs| && cs[q].id == id
  {
    if id in Ids(cs) {
      var c :| c in cs && c.id == id;
      var q :| 0 <= q < |cs| && cs[q] == c;
    }
  }

  lemma SameIds(m: Message, target: Model)
    requires m.Assistant?
    ensures CallIds(Rewritten(m, map[], target, None)) == Ids(Calls(m.content))
  {
    CallsOfNewContent(m.content, m, target, None);
    var cs, ncs := Calls(m.content), Calls(Rewritten(m, map[], target, None).content);
    forall id ensures id in Ids(ncs) <==> id in Ids(cs) {
      IdsMeans(cs, id);
      IdsMeans(ncs, id);
    }
    assert Ids(ncs) == Ids(cs);
  }

  lemma AnsweredIds(log: seq<Message>, a: nat, n: nat, terminal: Terminal)
    requires FinishedBlock(log, a, n, terminal) && a + 1 + n <= NextAssistant(log, a + 1)
    requires forall j :: a + n < j < NextAssistant(log, a + 1) ==> log[j].User?
    ensures ResultIds(log[a + 1..NextAssistant(log, a + 1)]) == Ids(Calls(log[a].content)[..n])
  {
    var cs, inner := Calls(log[a].content)[..n], log[a + 1..NextAssistant(log, a + 1)];
    forall j | 0 <= j < |inner| ensures if j < n then Answers(inner[j], cs[j]) else inner[j].User? {
      assert inner[j] == log[a + 1 + j];
    }
    AnsweredExactly(inner, cs);
  }

  lemma AnsweredExactly(inner: seq<Message>, cs: seq<ToolCall>)
    requires |cs| <= |inner|
    requires forall j :: 0 <= j < |inner| ==> if j < |cs| then Answers(inner[j], cs[j]) else inner[j].User?
    ensures ResultIds(inner) == Ids(cs)
  {
    forall id ensures id in ResultIds(inner) <==> id in Ids(cs) {
      ResultIdsMeans(inner, id);
      IdsMeans(cs, id);
      if q :| 0 <= q < |cs| && cs[q].id == id {
        assert AnswersAt(inner, q, id);
      }
    }
  }
}
