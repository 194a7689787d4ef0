/** A printer for server-sent events, and the round trip through the scanner. */
module SsePrinter {
  import opened Wrappers
  import opened Sse
  import opened SseScanner

  /** A value that fits on a line: no newline in it and no carriage return behind it. */
  predicate CleanValue(v: string) {
    '\n' !in v && (v != "" ==> v[|v| - 1] != '\r')
  }

  /** Data whose lines are all clean: no carriage return stands at the end of a line. */
  predicate CleanData(d: string) {
    forall i :: 0 <= i < |d| && d[i] == '\r' ==> i + 1 < |d| && d[i + 1] != '\n'
  }

  predicate CleanEvent(e: Event) {
    CleanValue(e.kind) && CleanValue(e.id) && CleanValue(e.retry) && CleanData(e.data)
  }

  // ---- printing ----

  function Line(field: string, value: string): string {
    field + ": " + value + "\n"
  }

  /** One data line for each line of the data. */
  function DataText(d: string): string {
    IndexOfMeans(d, '\n');
    var i := IndexOf(d, '\n');
    if i.None? then Line("data", d) else Line("data", d[..i.value]) + DataText(d[i.value + 1..])
  }

  /** A line for a field that is not empty. */
  function FieldText(field: string, value: string): string {
    if value == "" then "" else Line(field, value)
  }

  /** An event is printed with its data, unless they are empty and it has something else. */
  predicate PrintsData(e: Event) {
    e.data != "" || (e.kind == "" && e.id == "" && e.retry == "")
  }

  function BodyText(e: Event): string {
    (if PrintsData(e) then DataText(e.data) else "") + "\n"
  }

  function Print(e: Event): string {
    FieldText("event", e.kind) + (FieldText("id", e.id) + (FieldText("retry", e.retry) + BodyText(e)))
  }

  function PrintAll(es: seq<Event>): string {
    if es == [] then "" else Print(es[0]) + PrintAll(es[1..])
  }

  function Newlines(d: string): nat {
    if d == [] then 0 else (if d[0] == '\n' then 1 else 0) + Newlines(d[1..])
  }

  predicate LinesFit(d: string, maxLine: nat) {
    IndexOfMeans(d, '\n');
    var i := IndexOf(d, '\n');
    if i.None? then |Line("data", d)| <= maxLine
    else |Line("data", d[..i.value])| <= maxLine && LinesFit(d[i.value + 1..], maxLine)
  }

  function FieldBytes(field: string, value: string): nat {
    if value == "" then 0 else |field| + |value|
  }

  function DataBytes(d: string): nat {
    |"data"| + |d| + 3 * Newlines(d)
  }

  /** What the scanner counts of the fields printed before the data. */
  function HeaderBytes(e: Event): nat {
    FieldBytes("event", e.kind) + FieldBytes("id", e.id) + FieldBytes("retry", e.retry)
  }

  predicate HeaderFits(e: Event, maxLine: nat) {
    && |FieldText("event", e.kind)| <= maxLine
    && |FieldText("id", e.id)| <= maxLine
    && |FieldText("retry", e.retry)| <= maxLine
  }

  /** Every printed line and the event as a whole are within the scanner's limits. */
  predicate Fits(e: Event, lim: Limits) {
    && lim.maxLine > 0 && HeaderFits(e, lim.maxLine)
    && (PrintsData(e) ==> LinesFit(e.data, lim.maxLine))
    && HeaderBytes(e) + (if PrintsData(e) then DataBytes(e.data) else 0) <= lim.maxEvent
  }

  // ---- one line ----

  lemma {:induction false} IndexOfSkips(a: string, b: string, c: char)
    requires c !in a && b != [] && b[0] == c
    ensures IndexOf(a + b, c) == Some(|a|)
  {
    if a == [] {
      assert a + b == b;
    } else {
      assert a[0] in a;
      IndexOfSkips(a[1..], b, c);
      assert (a + b)[1..] == a[1..] + b;
    }
  }

  lemma FieldOfLine(field: string, value: string)
    requires ':' !in field
    ensures FieldOf(field + ": " + value) == (field, value)
  {
    var line := field + ": " + value;
    assert line == field + (": " + value);
    IndexOfSkips(field, ": " + value, ':');
    assert line[..|field|] == field;
    assert line[|field| + 1..] == [' '] + value;
    assert ([' '] + value)[1..] == value;
  }

  lemma TrimNewline(body: string)
    requires body != [] && body[|body| - 1] != '\r' && body[|body| - 1] != '\n'
    ensures TrimEnd(body + "\n") == body
  {
    assert (body + "\n")[..|body|] == body;
  }

  /** A field name the printer uses. */
  predicate Named(field: string) {
    field == "event" || field == "id" || field == "retry" || field == "data"
  }

  lemma NamesAreSafe(field: string, value: string)
    requires Named(field)
    ensures ':' !in field && '\n' !in field && field != "" && field[0] != ':'
    ensures !(BOM <= Line(field, value))
  {
    assert Line(field, value)[0] == field[0];
  }

  lemma LineOf(field: string, value: string, first: bool)
    requires Named(field) && CleanValue(value)
    ensures '\n' !in field + ": " + value
    ensures Clean(Line(field, value), first) == field + ": " + value
  {
    var body := field + ": " + value;
    NamesAreSafe(field, value);
    assert body[|body| - 1] == (if value == "" then ' ' else value[|value| - 1]);
    assert value != "" ==> value[|value| - 1] in value;
    TrimNewline(body);
  }

  lemma FirstLine(body: string, t: string)
    requires '\n' !in body
    ensures LineLen(body + "\n" + t) == |body| + 1
    ensures (body + "\n" + t)[..|body| + 1] == body + "\n"
    ensures (body + "\n" + t)[|body| + 1..] == t
  {
    assert body + "\n" + t == body + ("\n" + t);
    LineLenSkips(body, "\n" + t);
  }

  /** Scanning a printed line adds its field to the event under construction. */
  lemma ScanLine(field: string, value: string, t: string, fails: bool, first: bool, lim: Limits, p: Partial)
    requires Named(field) && CleanValue(value)
    requires |Line(field, value)| <= lim.maxLine
    requires AddField(p, field, value).bytes <= lim.maxEvent
    ensures Scan(Line(field, value) + t, fails, first, lim, p) == Scan(t, fails, false, lim, AddField(p, field, value))
  {
    var body := field + ": " + value;
    LineOf(field, value, first);
    FirstLine(body, t);
    NamesAreSafe(field, value);
    assert body[0] == field[0];
    FieldOfLine(field, value);
    assert Line(field, value) == body + "\n";
    assert OnLine(body + "\n", fails, first, lim, p) == Open(AddField(p, field, value));
  }

  // ---- the data ----

  function AddData(p: Partial, d: string): Partial
    decreases |d|
  {
    IndexOfMeans(d, '\n');
    var i := IndexOf(d, '\n');
    if i.None? then AddField(p, "data", d) else AddData(AddField(p, "data", d[..i.value]), d[i.value + 1..])
  }

  lemma {:induction false} NewlinesOf(a: string, b: string)
    requires '\n' !in a
    ensures Newlines(a + b) == Newlines(b)
  {
    if a == [] {
      assert a + b == b;
    } else {
      assert a[0] in a;
      NewlinesOf(a[1..], b);
      assert (a + b)[1..] == a[1..] + b;
    }
  }

  /** Cuts the data at its first newline. */
  lemma CutData(d: string, i: nat)
    requires i < |d| && d[i] == '\n' && '\n' !in d[..i]
    ensures d == d[..i] + "\n" + d[i + 1..]
    ensures Newlines(d) == 1 + Newlines(d[i + 1..])
    ensures CleanData(d) ==> CleanValue(d[..i]) && CleanData(d[i + 1..])
  {
    var rest := d[i + 1..];
    assert d == d[..i] + ("\n" + rest);
    NewlinesOf(d[..i], "\n" + rest);
    assert ("\n" + rest)[1..] == rest;
    if CleanData(d) {
      CutClean(d, i);
    }
  }

  lemma CutClean(d: string, i: nat)
    requires i < |d| && d[i] == '\n' && '\n' !in d[..i] && CleanData(d)
    ensures CleanValue(d[..i]) && CleanData(d[i + 1..])
  {
    var rest := d[i + 1..];
    forall k | 0 <= k < |rest| && rest[k] == '\r' ensures k + 1 < |rest| && rest[k + 1] != '\n' {
      assert d[i + 1 + k] == '\r';
    }
  }

  /** Adding the data line by line adds the data. */
  lemma {:induction false} AddDataMeans(p: Partial, d: string)
    ensures AddData(p, d) == p.(data := p.data + (if p.count > 0 then "\n" else "") + d,
                                count := p.count + 1 + Newlines(d),
                                bytes := p.bytes + |"data" + d| + 3 * Newlines(d))
    decreases |d|
  {
    IndexOfMeans(d, '\n');
    var i := IndexOf(d, '\n');
    if i.None? {
      NewlinesOf(d, "");
      assert d + "" == d;
    } else {
      CutData(d, i.value);
      AddDataMeans(AddField(p, "data", d[..i.value]), d[i.value + 1..]);
      Rejoined(p.data + if p.count > 0 then "\n" else "", d, i.value);
    }
  }

  lemma Regrouped(x: string, y: string, z: string)
    ensures x + y + z == x + (y + z)
  {
  }

  lemma Rejoined(before: string, d: string, i: nat)
    requires i < |d| && d[i] == '\n'
    ensures before + d[..i] + "\n" + d[i + 1..] == before + d
  {
  }

  lemma {:induction false} ScanData(d: string, t: string, fails: bool, first: bool, lim: Limits, p: Partial)
    requires CleanData(d) && LinesFit(d, lim.maxLine) && AddData(p, d).bytes <= lim.maxEvent
    ensures Scan(DataText(d) + t, fails, first, lim, p) == Scan(t, fails, false, lim, AddData(p, d))
    decreases |d|
  {
    IndexOfMeans(d, '\n');
    var i := IndexOf(d, '\n');
    if i.None? {
      ScanLine("data", d, t, fails, first, lim, p);
    } else {
      var head, rest := d[..i.value], d[i.value + 1..];
      CutData(d, i.value);
      AddDataMeans(AddField(p, "data", head), rest);
      Regrouped(Line("data", head), DataText(rest), t);
      ScanLine("data", head, DataText(rest) + t, fails, first, lim, p);
      ScanData(rest, t, fails, false, lim, AddField(p, "data", head));
    }
  }

  // ---- events ----

  function AddText(p: Partial, field: string, value: string): Partial {
    if value == "" then p else AddField(p, field, value)
  }

  function Header(e: Event): Partial {
    AddText(AddText(AddText(EMPTY, "event", e.kind), "id", e.id), "retry", e.retry)
  }

  /** Scanning a line that is there only for a value. */
  lemma ScanText(field: string, value: string, t: string, fails: bool, first: bool, lim: Limits, p: Partial)
    requires Named(field) && CleanValue(value) && |FieldText(field, value)| <= lim.maxLine
    requires AddText(p, field, value).bytes <= lim.maxEvent
    ensures Scan(FieldText(field, value) + t, fails, first, lim, p) ==
            Scan(t, fails, first && value == "", lim, AddText(p, field, value))
  {
    if value == "" {
      assert FieldText(field, value) + t == t;
    } else {
      ScanLine(field, value, t, fails, first, lim, p);
    }
  }

  /** No header line was printed, so the stream is still at its start. */
  predicate AtStart(e: Event, first: bool) {
    first && e.kind == "" && e.id == "" && e.retry == ""
  }

  lemma ScanHeader(e: Event, t: string, fails: bool, first: bool, lim: Limits)
    requires CleanEvent(e) && Fits(e, lim)
    ensures Scan(FieldText("event", e.kind) + (FieldText("id", e.id) + (FieldText("retry", e.retry) + t)), fails, first, lim, EMPTY)
         == Scan(t, fails, AtStart(e, first), lim, Header(e))
    ensures EventOf(Header(e)) == e.(data := "") && Header(e).count == 0 && Header(e).bytes == HeaderBytes(e)
  {
    var p1 := AddText(EMPTY, "event", e.kind);
    var p2 := AddText(p1, "id", e.id);
    ScanText("event", e.kind, FieldText("id", e.id) + (FieldText("retry", e.retry) + t), fails, first, lim, EMPTY);
    ScanText("id", e.id, FieldText("retry", e.retry) + t, fails, first && e.kind == "", lim, p1);
    ScanText("retry", e.retry, t, fails, first && e.kind == "" && e.id == "", lim, p2);
  }

  lemma BlankLine(t: string, fails: bool, lim: Limits, p: Partial)
    requires Dispatches(p) && lim.maxLine > 0
    ensures Scan("\n" + t, fails, false, lim, p) == Scanned(Emit(EventOf(p)), t)
  {
    FirstLine("", t);
    assert "" + "\n" + t == "\n" + t;
    assert "" + "\n" == "\n";
    assert TrimEnd("\n") == "";
  }

  lemma ScanBody(e: Event, t: string, fails: bool, first: bool, lim: Limits, h: Partial)
    requires CleanEvent(e) && Fits(e, lim) && EventOf(h) == e.(data := "") && h.count == 0 && h.bytes == HeaderBytes(e)
    requires first ==> PrintsData(e)
    ensures Scan(BodyText(e) + t, fails, first, lim, h) == Scanned(Emit(e), t)
  {
    if PrintsData(e) {
      AddDataMeans(h, e.data);
      assert "" + "" + e.data == e.data;
      assert EventOf(AddData(h, e.data)) == e;
      assert BodyText(e) + t == DataText(e.data) + ("\n" + t);
      ScanData(e.data, "\n" + t, fails, first, lim, h);
      BlankLine(t, fails, lim, AddData(h, e.data));
    } else {
      assert BodyText(e) + t == "\n" + t;
      BlankLine(t, fails, lim, h);
    }
  }

  lemma ScanPrinted(e: Event, t: string, fails: bool, first: bool, lim: Limits)
    requires CleanEvent(e) && Fits(e, lim)
    ensures Scan(Print(e) + t, fails, first, lim, EMPTY) == Scanned(Emit(e), t)
  {
    assert Print(e) + t == FieldText("event", e.kind) + (FieldText("id", e.id) + (FieldText("retry", e.retry) + (BodyText(e) + t)));
    ScanHeader(e, BodyText(e) + t, fails, first, lim);
    ScanBody(e, t, fails, AtStart(e, first), lim, Header(e));
  }

  /** Printing any clean events and scanning the text gives them back, and nothing else. */
  lemma {:induction false} RoundTrip(es: seq<Event>, fails: bool, first: bool, lim: Limits)
    requires forall e :: e in es ==> CleanEvent(e) && Fits(e, lim)
    ensures ScanAll(PrintAll(es), fails, first, lim) == (es, if fails then Some(ReadFailed) else None)
  {
    if es == [] {
      assert Clean("", first) == "";
    } else {
      ScanPrinted(es[0], PrintAll(es[1..]), fails, first, lim);
      RoundTrip(es[1..], fails, false, lim);
      assert es == [es[0]] + es[1..];
    }
  }

  // ---- what the scanner can emit ----

  ghost predicate CleanPartial(p: Partial) {
    CleanEvent(EventOf(p))
  }

  lemma {:induction false} LineHasOneNewline(s: string)
    ensures forall i :: 0 <= i < LineLen(s) - 1 ==> s[i] != '\n'
  {
    if s != [] && s[0] != '\n' {
      LineHasOneNewline(s[1..]);
      forall i | 0 <= i < LineLen(s) - 1 ensures s[i] != '\n' {
        assert i > 0 ==> s[i] == s[1..][i - 1];
      }
    }
  }

  lemma {:induction false} TrimEndCuts(s: string)
    ensures TrimEnd(s) <= s
    ensures TrimEnd(s) != [] ==> var c := TrimEnd(s)[|TrimEnd(s)| - 1]; c != '\r' && c != '\n'
  {
    if s != [] && (s[|s| - 1] == '\r' || s[|s| - 1] == '\n') {
      TrimEndCuts(s[..|s| - 1]);
    }
  }

  lemma LineIsClean(s: string, first: bool)
    ensures CleanValue(Clean(s[..LineLen(s)], first))
  {
    var raw := s[..LineLen(s)];
    var body := if first && BOM <= raw then raw[|BOM|..] else raw;
    var line := Clean(raw, first);
    LineHasOneNewline(s);
    TrimEndCuts(body);
    forall i | 0 <= i < |line| ensures line[i] != '\n' {
      assert line[i] == body[i];
      assert body[i] == raw[|raw| - |body| + i];
    }
  }

  lemma ValueIsClean(line: string)
    requires CleanValue(line)
    ensures CleanValue(FieldOf(line).1)
  {
    IndexOfMeans(line, ':');
    var v := FieldOf(line).1;
    assert v == line[|line| - |v|..] || v == "";
  }

  lemma AddFieldKeepsClean(p: Partial, field: string, value: string)
    requires CleanPartial(p) && CleanValue(value)
    ensures CleanPartial(AddField(p, field, value))
  {
    var q := AddField(p, field, value);
    if field == "data" {
      forall i | 0 <= i < |q.data| && q.data[i] == '\r' ensures i + 1 < |q.data| && q.data[i + 1] != '\n' {
        var start := |q.data| - |value|;
        if i >= start {
          assert value[i - start] == '\r';
          assert i + 1 < |q.data| ==> q.data[i + 1] == value[i + 1 - start] && value[i + 1 - start] in value;
        } else if i < |p.data| {
          assert p.data[i] == '\r';
        }
      }
    }
  }

  lemma {:induction false} ScanEmitsClean(s: string, fails: bool, first: bool, lim: Limits, p: Partial)
    requires CleanPartial(p)
    ensures var v := Scan(s, fails, first, lim, p).verdict; v.Emit? ==> CleanEvent(v.event)
    decreases |s|
  {
    var raw := s[..LineLen(s)];
    var line := Clean(raw, first);
    LineIsClean(s, first);
    ValueIsClean(line);
    AddFieldKeepsClean(p, FieldOf(line).0, FieldOf(line).1);
    var v := OnLine(raw, fails, first, lim, p);
    if v.Open? && raw != [] {
      ScanEmitsClean(s[LineLen(s)..], fails, false, lim, v.p);
    }
  }

  /** Whatever the stream, every event it gives is one the printer can print: the events of
      streams are exactly the clean ones. */
  lemma {:induction false} EventsAreClean(s: string, fails: bool, first: bool, lim: Limits)
    ensures forall e :: e in ScanAll(s, fails, first, lim).0 ==> CleanEvent(e)
    decreases |s|
  {
    ScanBounds(s, fails, first, lim, EMPTY);
    ScanEmitsClean(s, fails, first, lim, EMPTY);
    var r := Scan(s, fails, first, lim, EMPTY);
    if r.verdict.Emit? {
      EventsAreClean(r.rest, fails, false, lim);
    }
  }

  // ---- how much room scanned events need ----

  /** The same limits with room for the space and the newline that the printer adds, and for the
      colon that a data line may lack. */
  function Roomier(lim: Limits): Limits {
    Limits(lim.maxLine + 3, lim.maxEvent)
  }

  lemma {:induction false} NewlinesConcat(a: string, b: string)
    ensures Newlines(a + b) == Newlines(a) + Newlines(b)
  {
    if a == [] {
      assert a + b == b;
    } else {
      NewlinesConcat(a[1..], b);
      assert (a + b)[1..] == a[1..] + b;
    }
  }

  lemma NoNewlines(v: string)
    requires '\n' !in v
    ensures Newlines(v) == 0
  {
    NewlinesOf(v, "");
    assert v + "" == v;
  }

  /** One more line fits if it fits alone. */
  lemma {:induction false} LinesFitSnoc(d: string, v: string, maxLine: nat)
    requires LinesFit(d, maxLine) && '\n' !in v && |Line("data", v)| <= maxLine
    ensures LinesFit(d + "\n" + v, maxLine)
    decreases |d|
  {
    IndexOfMeans(d, '\n');
    var i, all := IndexOf(d, '\n'), d + "\n" + v;
    if i.None? {
      assert all == d + ("\n" + v);
      IndexOfSkips(d, "\n" + v, '\n');
      assert all[..|d|] == d && all[|d| + 1..] == v;
      IndexOfMeans(v, '\n');
    } else {
      var n := i.value;
      assert all == d[..n] + (d[n..] + "\n" + v);
      IndexOfSkips(d[..n], d[n..] + "\n" + v, '\n');
      assert all[..n] == d[..n] && all[n + 1..] == d[n + 1..] + "\n" + v;
      LinesFitSnoc(d[n + 1..], v, maxLine);
    }
  }

  /** What is known of an event under construction: its fields came from lines within the limit,
      and what printing them would count was counted. */
  ghost predicate RoomFor(p: Partial, lim: Limits) {
    var e := EventOf(p);
    && HeaderFits(e, lim.maxLine + 3)
    && (if p.count == 0 then p.data == "" else LinesFit(p.data, lim.maxLine + 3))
    && HeaderBytes(e) + (if p.count == 0 then 0 else DataBytes(p.data)) <= p.bytes <= lim.maxEvent
  }

  /** A value is shorter than its line by its field and the colon. */
  lemma ValueIsShorter(line: string)
    ensures var (field, value) := FieldOf(line);
            |field| + |value| <= |line| && (value != "" ==> |field| + 1 + |value| <= |line|)
  {
    IndexOfMeans(line, ':');
  }

  lemma DataKeepsRoom(p: Partial, value: string, lim: Limits, q: Partial)
    requires RoomFor(p, lim) && CleanValue(value) && q == AddField(p, "data", value) && q.bytes <= lim.maxEvent
    requires |Line("data", value)| <= lim.maxLine + 3
    ensures RoomFor(q, lim)
  {
    NoNewlines(value);
    IndexOfMeans(value, '\n');
    if p.count > 0 {
      LinesFitSnoc(p.data, value, lim.maxLine + 3);
      NewlinesConcat(p.data + "\n", value);
      NewlinesConcat(p.data, "\n");
      assert DataBytes(q.data) == DataBytes(p.data) + 4 + |value|;
    } else {
      assert q.data == value;
    }
  }

  lemma AddFieldKeepsRoom(p: Partial, field: string, value: string, lim: Limits)
    requires RoomFor(p, lim) && CleanValue(value) && AddField(p, field, value).bytes <= lim.maxEvent
    requires |field| + |value| <= lim.maxLine && (value != "" ==> |field| + 1 + |value| <= lim.maxLine)
    ensures RoomFor(AddField(p, field, value), lim)
  {
    if field == "data" {
      DataKeepsRoom(p, value, lim, AddField(p, field, value));
    }
  }

  lemma RoomIsEnough(p: Partial, lim: Limits)
    requires RoomFor(p, lim) && Dispatches(p)
    ensures Fits(EventOf(p), Roomier(lim))
  {
  }

  lemma {:induction false} ScanEmitsFitting(s: string, fails: bool, first: bool, lim: Limits, p: Partial)
    requires RoomFor(p, lim)
    ensures var v := Scan(s, fails, first, lim, p).verdict; v.Emit? ==> Fits(v.event, Roomier(lim))
    decreases |s|
  {
    var raw := s[..LineLen(s)];
    LineKeepsRoom(s, raw, fails, first, lim, p);
    var v := OnLine(raw, fails, first, lim, p);
    if v.Open? && raw != [] {
      ScanEmitsFitting(s[LineLen(s)..], fails, false, lim, v.p);
    }
  }

  lemma LineKeepsRoom(s: string, raw: string, fails: bool, first: bool, lim: Limits, p: Partial)
    requires RoomFor(p, lim) && raw == s[..LineLen(s)]
    ensures var v := OnLine(raw, fails, first, lim, p);
            (v.Open? ==> RoomFor(v.p, lim)) && (v.Emit? ==> Fits(v.event, Roomier(lim)))
  {
    var line := Clean(raw, first);
    var q := AddField(p, FieldOf(line).0, FieldOf(line).1);
    if Dispatches(p) {
      RoomIsEnough(p, lim);
    }
    if |raw| <= lim.maxLine && q.bytes <= lim.maxEvent {
      FieldKeepsRoom(s, raw, first, lim, p, line);
      if Dispatches(q) {
        RoomIsEnough(q, lim);
      }
    }
  }

  lemma FieldKeepsRoom(s: string, raw: string, first: bool, lim: Limits, p: Partial, line: string)
    requires RoomFor(p, lim) && raw == s[..LineLen(s)] && line == Clean(raw, first) && |raw| <= lim.maxLine
    requires AddField(p, FieldOf(line).0, FieldOf(line).1).bytes <= lim.maxEvent
    ensures RoomFor(AddField(p, FieldOf(line).0, FieldOf(line).1), lim)
  {
    LineIsClean(s, first);
    ValueIsClean(line);
    ValueIsShorter(line);
    TrimEndCuts(if first && BOM <= raw then raw[|BOM|..] else raw);
    AddFieldKeepsRoom(p, FieldOf(line).0, FieldOf(line).1, lim);
  }

  /** Every event of any stream can be printed for a scanner with a little more room. */
  lemma {:induction false} EventsFit(s: string, fails: bool, first: bool, lim: Limits)
    ensures forall e :: e in ScanAll(s, fails, first, lim).0 ==> Fits(e, Roomier(lim))
    decreases |s|
  {
    ScanBounds(s, fails, first, lim, EMPTY);
    ScanEmitsFitting(s, fails, first, lim, EMPTY);
    var r := Scan(s, fails, first, lim, EMPTY);
    if r.verdict.Emit? {
      EventsFit(r.rest, fails, false, lim);
    }
  }

  /** Scanning any stream, printing its events and scanning again, with a little more room for
      lines, changes nothing. */
  lemma PrintNormalises(s: string, fails: bool, lim: Limits)
    ensures ScanAll(PrintAll(ScanAll(s, fails, true, lim).0), false, true, Roomier(lim)) == (ScanAll(s, fails, true, lim).0, None)
  {
    EventsAreClean(s, fails, true, lim);
    EventsFit(s, fails, true, lim);
    RoundTrip(ScanAll(s, fails, true, lim).0, false, true, Roomier(lim));
  }
}
