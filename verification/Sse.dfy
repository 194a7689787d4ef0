/** Server-sent events: a line-based description of what a byte stream means, and the buffered
    scanner that computes it. Bytes are modelled as characters. */
module Sse {
  import opened Wrappers

  datatype Event = Event(kind: string, data: string, id: string, retry: string)

  datatype ScanError = ReadFailed | LineTooLarge | EventTooLarge

  /** The longest line and the longest event that are accepted, in bytes. */
  datatype Limits = Limits(maxLine: nat, maxEvent: nat)

  const DEFAULT_LIMITS := Limits(0x10_0000, 0x40_0000)

  /** The byte order mark in UTF-8. */
  const BOM: string := "\U{EF}\U{BB}\U{BF}"

  // ---- lines ----

  /** The length of the first line, with its newline if it has one. */
  function LineLen(s: string): (n: nat)
    ensures n <= |s| && (s != [] ==> n > 0)
  {
    if s == [] then 0 else if s[0] == '\n' then 1 else 1 + LineLen(s[1..])
  }

  /** The stream ends before this line does. */
  predicate Unfinished(line: string) {
    line == [] || line[|line| - 1] != '\n'
  }

  function TrimEnd(s: string): string {
    if s != [] && (s[|s| - 1] == '\r' || s[|s| - 1] == '\n') then TrimEnd(s[..|s| - 1]) else s
  }

  /** A raw line without its ending and, at the start of the stream, without its mark. */
  function Clean(raw: string, first: bool): string {
    TrimEnd(if first && BOM <= raw then raw[|BOM|..] else raw)
  }

  function IndexOf(s: string, c: char): Option<nat> {
    if s == [] then None
    else if s[0] == c then Some(0)
    else
      var i := IndexOf(s[1..], c);
      if i.Some? then Some(i.value + 1) else None
  }

  lemma {:induction false} IndexOfMeans(s: string, c: char)
    ensures IndexOf(s, c).Some? ==> IndexOf(s, c).value < |s| && s[IndexOf(s, c).value] == c
    ensures IndexOf(s, c).Some? ==> c !in s[..IndexOf(s, c).value]
    ensures IndexOf(s, c).None? <==> c !in s
  {
    if s != [] && s[0] != c {
      IndexOfMeans(s[1..], c);
      assert s == [s[0]] + s[1..];
      if IndexOf(s, c).Some? {
        assert s[..IndexOf(s, c).value] == [s[0]] + s[1..][..IndexOf(s[1..], c).value];
      }
    }
  }

  /** A line's field and value: the value starts behind the first colon and at most one space. */
  function FieldOf(line: string): (string, string) {
    var i := IndexOf(line, ':');
    IndexOfMeans(line, ':');
    if i.None? then (line, "")
    else
      var value := line[i.value + 1..];
      (line[..i.value], if value != [] && value[0] == ' ' then value[1..] else value)
  }

  // ---- events ----

  /** An event under construction: its fields, how many data lines it has, and its size. */
  datatype Partial = Partial(data: string, count: nat, kind: string, id: string, retry: string, bytes: nat)

  const EMPTY := Partial("", 0, "", "", "", 0)

  predicate Dispatches(p: Partial) {
    p.count > 0 || p.kind != "" || p.id != "" || p.retry != ""
  }

  function EventOf(p: Partial): Event {
    Event(p.kind, p.data, p.id, p.retry)
  }

  function AddField(p: Partial, field: string, value: string): Partial {
    var q := p.(bytes := p.bytes + |field| + |value|);
    if field == "event" then q.(kind := value)
    else if field == "data" then
      q.(data := p.data + (if p.count > 0 then "\n" else "") + value, count := p.count + 1)
    else if field == "id" then q.(id := value)
    else if field == "retry" then q.(retry := value)
    else q
  }

  /** What one line leads to: the event is still open, or there is one, or the stream ends. */
  datatype Verdict = Open(p: Partial) | Emit(event: Event) | AtEnd | Bad(error: ScanError)

  function Dispatched(p: Partial): Verdict {
    if Dispatches(p) then Emit(EventOf(p)) else AtEnd
  }

  function OnLine(raw: string, fails: bool, first: bool, lim: Limits, p: Partial): Verdict {
    var line := Clean(raw, first);
    if Unfinished(raw) && fails then Bad(ReadFailed)
    else if |raw| > lim.maxLine then Bad(LineTooLarge)
    else if line == [] then
      if Dispatches(p) then Emit(EventOf(p)) else if Unfinished(raw) then AtEnd else Open(p)
    else if line[0] == ':' then
      if Unfinished(raw) then Dispatched(p) else Open(p)
    else
      var q := AddField(p, FieldOf(line).0, FieldOf(line).1);
      if q.bytes > lim.maxEvent then Bad(EventTooLarge)
      else if Unfinished(raw) then Dispatched(q)
      else Open(q)
  }

  datatype Scanned = Scanned(verdict: Verdict, rest: string)

  /** Reads the stream line by line up to the next event. */
  function Scan(s: string, fails: bool, first: bool, lim: Limits, p: Partial): Scanned
    decreases |s|
  {
    var raw, rest := s[..LineLen(s)], s[LineLen(s)..];
    var v := OnLine(raw, fails, first, lim, p);
    if v.Open? && raw != [] then Scan(rest, fails, false, lim, v.p) else Scanned(v, rest)
  }

  /** The event under construction is within its limit. */
  ghost predicate Within(p: Partial, lim: Limits) {
    |p.data| + 3 * p.count <= p.bytes <= lim.maxEvent
  }

  lemma LineBounds(raw: string, fails: bool, first: bool, lim: Limits, p: Partial)
    requires Within(p, lim)
    ensures var v := OnLine(raw, fails, first, lim, p);
            && (v.Open? ==> Within(v.p, lim) && raw != [])
            && (v.Emit? ==> |v.event.data| <= lim.maxEvent && (raw != [] || Dispatches(p)))
  {
  }

  /** Every event takes up some of the stream, and no event holds more data than allowed. */
  lemma {:induction false} ScanBounds(s: string, fails: bool, first: bool, lim: Limits, p: Partial)
    requires Within(p, lim)
    ensures var r := Scan(s, fails, first, lim, p);
            && !r.verdict.Open?
            && |r.rest| <= |s| && r.rest == s[|s| - |r.rest|..]
            && (r.verdict.Emit? ==> |r.verdict.event.data| <= lim.maxEvent)
            && (r.verdict.Emit? && !Dispatches(p) ==> |r.rest| < |s|)
    decreases |s|
  {
    var raw := s[..LineLen(s)];
    LineBounds(raw, fails, first, lim, p);
    var v := OnLine(raw, fails, first, lim, p);
    if v.Open? {
      ScanBounds(s[LineLen(s)..], fails, false, lim, v.p);
    }
  }

  /** All events of a stream, and the error it ends in, if any. */
  function ScanAll(s: string, fails: bool, first: bool, lim: Limits): (seq<Event>, Option<ScanError>)
    decreases |s|
  {
    ScanBounds(s, fails, first, lim, EMPTY);
    var r := Scan(s, fails, first, lim, EMPTY);
    match r.verdict
    case Emit(e) =>
      var (es, err) := ScanAll(r.rest, fails, false, lim);
      ([e] + es, err)
    case Bad(err) => ([], Some(err))
    case _ => ([], None)
  }

  /** On any stream whatsoever, no event's data exceeds the limit. */
  lemma {:induction false} ScanAllBounds(s: string, fails: bool, first: bool, lim: Limits)
    ensures forall i :: 0 <= i < |ScanAll(s, fails, first, lim).0| ==>
              |ScanAll(s, fails, first, lim).0[i].data| <= lim.maxEvent
    decreases |s|
  {
    ScanBounds(s, fails, first, lim, EMPTY);
    var r := Scan(s, fails, first, lim, EMPTY);
    if r.verdict.Emit? {
      ScanAllBounds(r.rest, fails, false, lim);
    }
  }
}
