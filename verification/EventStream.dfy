/** The stream of events a provider sends, and the one result it ends in. */
module EventStreams {
  import opened Wrappers
  import opened Conversation

  datatype StreamEvent =
    | Start
    | TextDelta(text: string)
    | ThinkingDelta(text: string)
    | ToolStart(index: int, call: ToolCall)
    | ToolDelta(index: int, delta: string, partial: Option<ToolCall>)
    | ToolEnd(index: int, call: ToolCall)
    | Done(message: Option<Message>)
    | Failed(message: Option<Message>)

  datatype Failure = ProviderFailure(text: string) | PlainFailure | ClosedEarly

  datatype Outcome = Outcome(message: Message, failure: Option<Failure>)

  /** An assistant message without content that says what went wrong. */
  function ErrorMessage(model: Model, text: string, now: int): Message {
    Assistant([], model.api, model.provider, model.id, 0, Error, text, now)
  }

  const CLOSED_EARLY: string := "event stream closed without terminal done/error event"

  function ClosedOutcome(now: int): Outcome {
    Outcome(ErrorMessage(Model("", "", ""), CLOSED_EARLY, now), Some(ClosedEarly))
  }

  /** The outcome that an event ends the stream with, if it does. */
  function Terminal(e: StreamEvent): Option<Outcome> {
    match e
    case Done(Some(m)) => Some(Outcome(m, None))
    case Failed(Some(m)) =>
      Some(Outcome(m, Some(if m.Assistant? && m.stop.Error? then ProviderFailure(m.errorMessage) else PlainFailure)))
    case _ => None
  }

  function FirstOutcome(events: seq<StreamEvent>): Option<Outcome> {
    if events == [] then None
    else
      var first := FirstOutcome(events[..|events| - 1]);
      if first.Some? then first else Terminal(events[|events| - 1])
  }

  lemma FirstOutcomeSnoc(events: seq<StreamEvent>, e: StreamEvent)
    ensures FirstOutcome(events + [e]) == if FirstOutcome(events).Some? then FirstOutcome(events) else Terminal(e)
  {
    assert (events + [e])[..|events|] == events;
  }

  /** The outcome is that of the first terminal event, and there is none without such an event. */
  lemma {:induction false} FirstOutcomeMeans(events: seq<StreamEvent>)
    ensures FirstOutcome(events).None? <==> forall i :: 0 <= i < |events| ==> Terminal(events[i]).None?
    ensures FirstOutcome(events).Some? ==>
              exists i :: 0 <= i < |events| && Terminal(events[i]) == FirstOutcome(events)
                       && forall j :: 0 <= j < i ==> Terminal(events[j]).None?
  {
    if events != [] {
      var front, last := events[..|events| - 1], |events| - 1;
      FirstOutcomeMeans(front);
      if FirstOutcome(front).Some? {
        var i :| 0 <= i < |front| && Terminal(front[i]) == FirstOutcome(front)
              && forall j :: 0 <= j < i ==> Terminal(front[j]).None?;
        assert Terminal(events[i]) == FirstOutcome(events);
        assert forall j :: 0 <= j < i ==> events[j] == front[j];
      } else {
        assert forall j :: 0 <= j < last ==> events[j] == front[j];
        assert Terminal(events[last]) == FirstOutcome(events);
      }
    }
  }

  class EventStream {
    /** Everything sent on the event channel. */
    var events: seq<StreamEvent>
    /** What waits in the result channel, which has room for one. */
    var result: seq<Outcome>
    var terminated: bool
    var closed: bool
    /** Everything ever put into the result channel. */
    ghost var published: seq<Outcome>
    /** When it was closed. */
    ghost var closedAt: int

    /** One result at most is ever published: that of the first terminal event, or the one that
        closing the stream puts in its place. */
    ghost predicate Valid()
      reads this
    {
      && terminated == (published != [])
      && |published| <= 1
      && (result == published || result == [])
      && (FirstOutcome(events).Some? ==> published == [FirstOutcome(events).value])
      && (FirstOutcome(events).None? ==>
            published == if closed then [ClosedOutcome(closedAt)] else [])
    }

    constructor ()
      ensures Valid() && events == [] && published == [] && result == [] && !closed && !terminated
    {
      events, result, terminated, closed := [], [], false, false;
      published := [];
    }

    /** Sending on a closed channel is a run-time error in the source. */
    method Send(e: StreamEvent)
      requires Valid() && !closed
      modifies this
      ensures Valid() && !closed && events == old(events) + [e]
      ensures published == if old(terminated) || Terminal(e).None? then old(published) else [Terminal(e).value]
      ensures result == if old(terminated) || Terminal(e).None? then old(result) else [Terminal(e).value]
      ensures terminated == (old(terminated) || Terminal(e).Some?)
    {
      FirstOutcomeSnoc(events, e);
      events := events + [e];
      var outcome := Terminal(e);
      if outcome.Some? && !terminated {
        terminated := true;
        result := [outcome.value];
        published := [outcome.value];
      }
    }

    /** However often it is called, a closed stream has published exactly one result. */
    method Close(now: int)
      requires Valid()
      modifies this
      ensures Valid() && closed && terminated && |published| == 1 && events == old(events)
      ensures old(published) != [] ==> published == old(published) && result == old(result)
      ensures old(published) == [] ==> published == result == [ClosedOutcome(now)]
    {
      if closed {
        return;
      }
      closed, closedAt := true, now;
      if !terminated {
        terminated := true;
        result := [ClosedOutcome(now)];
        published := [ClosedOutcome(now)];
      }
    }

    /** Waits for the result and takes it. */
    method Result() returns (o: Outcome)
      requires Valid() && result != []
      modifies this`result
      ensures Valid() && result == [] && [o] == published
    {
      o := result[0];
      result := result[1..];
    }
  }
}
