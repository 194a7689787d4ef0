/** The scanner over a buffered reader whose buffer may fill up anywhere. */
module SseScanner {
  import opened Wrappers
  import opened Sse

  lemma {:induction false} LineLenSkips(a: string, b: string)
    requires '\n' !in a
    ensures LineLen(a + b) == |a| + LineLen(b)
  {
    if a == [] {
      assert a + b == b;
    } else {
      assert a[0] in a;
      LineLenSkips(a[1..], b);
      assert (a + b)[1..] == a[1..] + b;
    }
  }

  /** How a read of one line from the buffer can come out. */
  datatype SliceStatus = Delimited | BufferFull | EndOfInput

  /** A buffered reader. `boundary` tells at which positions of the stream the buffer is full
      before the delimiter was found. */
  class BufReader {
    const input: string
    const fails: bool
    const boundary: nat -> bool
    var pos: nat

    ghost predicate Valid()
      reads this
    {
      pos <= |input|
    }

    function Rest(): string
      requires Valid()
      reads this
    {
      input[pos..]
    }

    constructor (input: string, fails: bool, boundary: nat -> bool)
      ensures Valid() && Rest() == input && this.input == input && this.fails == fails && this.boundary == boundary
    {
      this.input := input;
      this.fails := fails;
      this.boundary := boundary;
      pos := 0;
    }

    method ReadSlice() returns (line: string, status: SliceStatus)
      requires Valid()
      modifies this`pos
      ensures Valid() && line + Rest() == old(Rest())
      ensures status.Delimited? ==> line == old(Rest())[..LineLen(old(Rest()))] && !Unfinished(line)
      ensures !status.Delimited? ==> '\n' !in line
      ensures status.BufferFull? ==> line != []
      ensures status.EndOfInput? ==> Rest() == []
    {
      var i := pos;
      while i < |input|
        invariant pos <= i <= |input| && pos == old(pos)
        invariant '\n' !in input[pos..i]
      {
        if input[i] == '\n' {
          line := input[pos..i + 1];
          assert Rest() == input[pos..i] + input[i..];
          LineLenSkips(input[pos..i], input[i..]);
          pos := i + 1;
          return line, Delimited;
        }
        i := i + 1;
        assert input[pos..i] == input[pos..i - 1] + [input[i - 1]];
        if boundary(i) {
          line := input[pos..i];
          pos := i;
          return line, BufferFull;
        }
      }
      line := input[pos..];
      pos := |input|;
      return line, EndOfInput;
    }
  }

  class Scanner {
    const r: BufReader
    var event: Event
    var err: Option<ScanError>
    var dataConverted: bool
    var limits: Limits
    var bomStripped: bool
    var dataBuf: string
    var lineBuf: string

    constructor (r: BufReader)
      ensures this.r == r && err.None? && !bomStripped && limits == DEFAULT_LIMITS
    {
      this.r := r;
      event := Event("", "", "", "");
      err, dataConverted, bomStripped, dataBuf, lineBuf := None, false, false, "", "";
      limits := DEFAULT_LIMITS;
    }

    method SetLimits(maxLine: int, maxEvent: int)
      modifies this`limits
      ensures limits.maxLine == if maxLine > 0 then maxLine else old(limits.maxLine)
      ensures limits.maxEvent == if maxEvent > 0 then maxEvent else old(limits.maxEvent)
    {
      if maxLine > 0 {
        limits := limits.(maxLine := maxLine);
      }
      if maxEvent > 0 {
        limits := limits.(maxEvent := maxEvent);
      }
    }

    /** Puts a line together again, however many times the buffer filled up inside it. */
    method ReadLine() returns (line: string, ended: bool)
      requires r.Valid()
      modifies r`pos, this`lineBuf
      ensures r.Valid()
      ensures var s := old(r.Rest());
              line == s[..LineLen(s)] && r.Rest() == s[LineLen(s)..] && ended == Unfinished(line)
    {
      ghost var s := r.Rest();
      var status;
      line, status := r.ReadSlice();
      if status != BufferFull {
        WholeLine(s, "", line, r.Rest(), status);
        return line, status == EndOfInput;
      }
      lineBuf := line;
      while status == BufferFull
        invariant r.Valid() && Pieced(s, lineBuf, r.Rest(), status)
        decreases if status == BufferFull then 1 + |r.Rest()| else 0
      {
        ghost var before := lineBuf;
        line, status := r.ReadSlice();
        lineBuf := lineBuf + line;
        Piece(s, before, line, r.Rest(), status);
      }
      return lineBuf, status == EndOfInput;
    }

    /** What was put together so far and what is left. */
    static ghost predicate Pieced(s: string, line: string, rest: string, status: SliceStatus) {
      if status.BufferFull? then line + rest == s && '\n' !in line
      else line == s[..LineLen(s)] && rest == s[LineLen(s)..] && (status == EndOfInput <==> Unfinished(line))
    }

    static lemma Piece(s: string, before: string, line: string, rest: string, status: SliceStatus)
      requires s == before + (line + rest) && '\n' !in before
      requires status.Delimited? ==> line == (line + rest)[..LineLen(line + rest)] && !Unfinished(line)
      requires !status.Delimited? ==> '\n' !in line
      requires status.EndOfInput? ==> rest == []
      ensures Pieced(s, before + line, rest, status)
    {
      if !status.BufferFull? {
        WholeLine(s, before, line, rest, status);
      }
    }

    /** A slice that ends at the delimiter or at the end of the input completes the line. */
    static lemma WholeLine(s: string, before: string, line: string, rest: string, status: SliceStatus)
      requires s == before + (line + rest) && '\n' !in before
      requires status.Delimited? ==> line == (line + rest)[..LineLen(line + rest)] && !Unfinished(line)
      requires status.EndOfInput? ==> rest == [] && '\n' !in line
      requires !status.BufferFull?
      ensures before + line == s[..LineLen(s)] && rest == s[LineLen(s)..]
      ensures status.EndOfInput? <==> Unfinished(before + line)
    {
      LineLenSkips(before, line + rest);
      if status.EndOfInput? {
        LineLenSkips(before + line, []);
        assert s == before + line + [];
      } else {
        assert |line| == LineLen(line + rest);
      }
    }

    /** Parses up to the next event. What comes out depends on the stream alone, not on where the
        buffer filled up. */
    method Next() returns (ok: bool)
      requires r.Valid()
      modifies this`event, this`err, this`dataConverted, this`bomStripped, this`dataBuf, this`lineBuf, r`pos
      ensures r.Valid()
      ensures old(err).Some? ==> !ok && err == old(err) && r.Rest() == old(r.Rest())
      ensures old(err).None? ==>
                var res := Scan(old(r.Rest()), r.fails, !old(bomStripped), limits, EMPTY);
                && r.Rest() == res.rest && (err.None? ==> bomStripped)
                && ok == res.verdict.Emit?
                && (ok ==> event.(data := dataBuf) == res.verdict.event && !dataConverted)
                && err == if res.verdict.Bad? then Some(res.verdict.error) else None
    {
      if err.Some? {
        return false;
      }
      dataBuf := "";
      dataConverted := false;
      var p := EMPTY;
      ghost var res := Scan(r.Rest(), r.fails, !bomStripped, limits, EMPTY);
      while true
        invariant r.Valid() && err.None? && limits == old(limits) && !dataConverted
        invariant Within(p, limits) && p.data == dataBuf
        invariant Scan(r.Rest(), r.fails, !bomStripped, limits, p) == res
        decreases |r.Rest()|
      {
        ScanUnfolds(r.Rest(), r.fails, !bomStripped, limits, p);
        var verdict := NextLine(p);
        match verdict
        case Open(q) =>
          p := q;
        case Emit(e) =>
          event := Event(e.kind, "", e.id, e.retry);
          return true;
        case AtEnd =>
          return false;
        case Bad(error) =>
          err := Some(error);
          return false;
      }
    }

    static lemma ScanUnfolds(s: string, fails: bool, first: bool, lim: Limits, p: Partial)
      requires Within(p, lim)
      ensures var v, rest := OnLine(s[..LineLen(s)], fails, first, lim, p), s[LineLen(s)..];
              && (v.Open? ==> Within(v.p, lim) && |rest| < |s|)
              && Scan(s, fails, first, lim, p) == if v.Open? then Scan(rest, fails, false, lim, v.p) else Scanned(v, rest)
    {
      LineBounds(s[..LineLen(s)], fails, first, lim, p);
    }

    /** One round of the loop: reads a line and handles it. */
    method NextLine(p: Partial) returns (v: Verdict)
      requires r.Valid() && p.data == dataBuf
      modifies this`bomStripped, this`dataBuf, this`lineBuf, r`pos
      ensures r.Valid()
      ensures var s := old(r.Rest());
              && r.Rest() == s[LineLen(s)..]
              && v == OnLine(s[..LineLen(s)], r.fails, !old(bomStripped), limits, p)
      ensures !v.Bad? ==> bomStripped
      ensures v.Open? ==> dataBuf == v.p.data
      ensures v.Emit? ==> dataBuf == v.event.data
    {
      var line, ended := ReadLine();
      v := ProcessLine(line, ended, p);
    }

    /** What a line does to the event under construction. */
    method ProcessLine(raw: string, ended: bool, p: Partial) returns (v: Verdict)
      requires p.data == dataBuf && ended == Unfinished(raw)
      modifies this`bomStripped, this`dataBuf
      ensures v == OnLine(raw, r.fails, !old(bomStripped), limits, p)
      ensures !v.Bad? ==> bomStripped
      ensures v.Open? ==> dataBuf == v.p.data
      ensures v.Emit? ==> dataBuf == v.event.data
    {
      if ended && r.fails {
        return Bad(ReadFailed);
      }
      if |raw| > limits.maxLine {
        return Bad(LineTooLarge);
      }
      var line := raw;
      if !bomStripped {
        if BOM <= line {
          line := line[|BOM|..];
        }
        bomStripped := true;
      }
      line := TrimEnd(line);
      if |line| == 0 {
        if Dispatches(p) {
          return Emit(EventOf(p));
        }
        return if ended then AtEnd else Open(p);
      }
      if line[0] == ':' {
        return if ended then Dispatched(p) else Open(p);
      }
      var (field, value) := FieldOf(line);
      if p.bytes + |field| + |value| > limits.maxEvent {
        return Bad(EventTooLarge);
      }
      var q := StoreField(p, field, value);
      return if ended then Dispatched(q) else Open(q);
    }

    method StoreField(p: Partial, field: string, value: string) returns (q: Partial)
      requires p.data == dataBuf
      modifies this`dataBuf
      ensures q == AddField(p, field, value) && dataBuf == q.data
    {
      q := p.(bytes := p.bytes + |field| + |value|);
      if field == "event" {
        q := q.(kind := value);
      } else if field == "data" {
        if p.count > 0 {
          dataBuf := dataBuf + "\n";
        }
        dataBuf := dataBuf + value;
        q := q.(data := dataBuf, count := p.count + 1);
      } else if field == "id" {
        q := q.(id := value);
      } else if field == "retry" {
        q := q.(retry := value);
      }
    }

    /** The event with its data, which is converted when it is first asked for. */
    method GetEvent() returns (e: Event)
      modifies this`event, this`dataConverted
      ensures dataConverted && e == event
      ensures e == if old(dataConverted) then old(event) else old(event).(data := dataBuf)
    {
      if !dataConverted {
        event := event.(data := dataBuf);
        dataConverted := true;
      }
      return event;
    }
  }

  /** Scans a whole stream. It terminates, and wherever the buffer boundaries fall it returns the
      events that the stream means. */
  method ScanStream(input: string, fails: bool, boundary: nat -> bool, maxLine: int, maxEvent: int)
    returns (events: seq<Event>, err: Option<ScanError>)
    ensures var lim := Limits(if maxLine > 0 then maxLine else DEFAULT_LIMITS.maxLine,
                              if maxEvent > 0 then maxEvent else DEFAULT_LIMITS.maxEvent);
            && (events, err) == ScanAll(input, fails, true, lim)
            && forall i :: 0 <= i < |events| ==> |events[i].data| <= lim.maxEvent
  {
    var r := new BufReader(input, fails, boundary);
    var scanner := new Scanner(r);
    scanner.SetLimits(maxLine, maxEvent);
    ScanAllBounds(input, fails, true, scanner.limits);
    events := Collect(scanner);
    err := scanner.err;
  }

  lemma ScanAllUnfolds(s: string, fails: bool, first: bool, lim: Limits)
    ensures var r := Scan(s, fails, first, lim, EMPTY);
            && (r.verdict.Emit? ==>
                  && |r.rest| < |s|
                  && ScanAll(s, fails, first, lim).0 == [r.verdict.event] + ScanAll(r.rest, fails, false, lim).0
                  && ScanAll(s, fails, first, lim).1 == ScanAll(r.rest, fails, false, lim).1)
            && (!r.verdict.Emit? ==>
                  && ScanAll(s, fails, first, lim).0 == []
                  && ScanAll(s, fails, first, lim).1 == if r.verdict.Bad? then Some(r.verdict.error) else None)
  {
    ScanBounds(s, fails, first, lim, EMPTY);
  }

  /** What is left for a scanner to return. */
  ghost function Remaining(scanner: Scanner): (seq<Event>, Option<ScanError>)
    requires scanner.r.Valid()
    reads scanner, scanner.r
  {
    ScanAll(scanner.r.Rest(), scanner.r.fails, !scanner.bomStripped, scanner.limits)
  }

  /** Next and Event together take the head off what remains. */
  method Pull(scanner: Scanner) returns (e: Option<Event>)
    requires scanner.r.Valid() && scanner.err.None?
    modifies scanner, scanner.r
    ensures scanner.r.Valid() && scanner.limits == old(scanner.limits)
    ensures e.Some? ==> scanner.err.None? && |scanner.r.Rest()| < |old(scanner.r.Rest())|
    ensures e.Some? ==> old(Remaining(scanner)) == ([e.value] + Remaining(scanner).0, Remaining(scanner).1)
    ensures e.None? ==> old(Remaining(scanner)) == ([], scanner.err)
  {
    ScanAllUnfolds(scanner.r.Rest(), scanner.r.fails, !scanner.bomStripped, scanner.limits);
    var ok := scanner.Next();
    if !ok {
      return None;
    }
    var event := scanner.GetEvent();
    return Some(event);
  }

  /** Calls Next until it returns false. */
  method Collect(scanner: Scanner) returns (events: seq<Event>)
    requires scanner.r.Valid() && scanner.err.None?
    modifies scanner, scanner.r
    ensures scanner.limits == old(scanner.limits)
    ensures (events, scanner.err) == old(Remaining(scanner))
  {
    ghost var all := Remaining(scanner);
    events := [];
    assert all.0 == events + all.0;
    while true
      invariant scanner.r.Valid() && scanner.err.None? && scanner.limits == old(scanner.limits)
      invariant all == (events + Remaining(scanner).0, Remaining(scanner).1)
      decreases |scanner.r.Rest()|
    {
      ghost var before := Remaining(scanner);
      var e := Pull(scanner);
      if e.None? {
        assert events + before.0 == events;
        break;
      }
      Moves(events, before.0);
      events := events + [e.value];
    }
  }

  lemma Moves(done: seq<Event>, left: seq<Event>)
    requires left != []
    ensures done + left == (done + [left[0]]) + left[1..]
  {
  }
}
