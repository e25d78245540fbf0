/** The event-stream parser: lines ended by LF, CR or CRLF, fields `event` and
    `data`, comments, and a blank line that dispatches the event.  A stream is a
    string of bytes. */
module Sse {
  import opened Wrappers

  const STREAM_CAP: nat := 524288
  const EVENT_CAP: nat := 262144
  const EVENT_LIMIT: nat := 4096
  const BOM := [0xEF as char, 0xBB as char, 0xBF as char]

  datatype Event = Event(name: string, data: string)

  /** The event being read. */
  datatype Pending = Pending(name: string, data: string, named: bool, hasData: bool)

  const BLANK := Pending("", "", false, false)

  predicate IsBreak(c: char) { c == '\r' || c == '\n' }

  /** The first line break at or after `at`, or the length when there is none. */
  function FindBreak(raw: string, at: nat): (end: nat)
    requires at <= |raw|
    ensures at <= end <= |raw|
    ensures end < |raw| ==> IsBreak(raw[end])
    ensures forall i :: at <= i < end ==> !IsBreak(raw[i])
    decreases |raw| - at
  {
    if at == |raw| || IsBreak(raw[at]) then at else FindBreak(raw, at + 1)
  }

  /** The position after the line break at `end`; CRLF is one break. */
  function AfterBreak(raw: string, end: nat): (next: nat)
    requires end < |raw|
    ensures end < next <= |raw|
  {
    if raw[end] == '\r' && end + 1 < |raw| && raw[end + 1] == '\n' then end + 2 else end + 1
  }

  function FindColon(line: string, at: nat): (i: nat)
    requires at <= |line|
    ensures at <= i <= |line|
    ensures i < |line| ==> line[i] == ':'
    ensures forall j :: at <= j < i ==> line[j] != ':'
    decreases |line| - at
  {
    if at == |line| || line[at] == ':' then at else FindColon(line, at + 1)
  }

  function FieldValue(line: string, colon: nat): string
    requires colon <= |line|
  {
    var value := if colon == |line| then "" else line[colon + 1..];
    if value != "" && value[0] == ' ' then value[1..] else value
  }

  predicate NameOk(name: string) {
    0 < |name| <= 128 && forall c | c in name :: 33 as char <= c <= 126 as char
  }

  /** One complete line. */
  function Line(line: string, p: Pending, done: seq<Event>): Result<(Pending, seq<Event>)> {
    if line == "" then
      if p.hasData then
        if |done| < EVENT_LIMIT then Ok((BLANK, done + [Event(p.name, p.data)])) else Err("stream_event_count")
      else if p.named then Err("stream_event_without_data")
      else Ok((BLANK, done))
    else if line[0] == ':' then Ok((p, done))
    else
      var colon := FindColon(line, 0);
      var key, value := line[..colon], FieldValue(line, colon);
      if key == "event" then
        if !p.named && NameOk(value) then Ok((p.(name := value, named := true), done)) else Err("stream_event_name")
      else if key == "data" then
        var data := (if p.hasData then p.data + "\n" else p.data) + value;
        if |data| <= EVENT_CAP then Ok((p.(data := data, hasData := true), done)) else Err("stream_event_limit")
      else Err("stream_sse_field")
  }

  function Finish(p: Pending, done: seq<Event>): Result<seq<Event>> {
    if p.named || p.hasData then Err("stream_unterminated_event")
    else if done == [] then Err("stream_empty")
    else Ok(done)
  }

  function Scan(raw: string, at: nat, p: Pending, done: seq<Event>): Result<seq<Event>>
    requires at <= |raw|
    decreases |raw| - at
  {
    if at == |raw| then Finish(p, done) else
    var end := FindBreak(raw, at);
    if end == |raw| then Err("stream_unterminated_line") else
    var (p', done') :- Line(raw[at..end], p, done);
    Scan(raw, AfterBreak(raw, end), p', done')
  }

  lemma ScanEnd(raw: string, p: Pending, done: seq<Event>)
    ensures Scan(raw, |raw|, p, done) == Finish(p, done)
  {
  }

  lemma ScanStep(raw: string, at: nat, p: Pending, done: seq<Event>)
    requires at < |raw|
    ensures var end := FindBreak(raw, at);
            if end == |raw| then Scan(raw, at, p, done) == Err("stream_unterminated_line")
            else var step := Line(raw[at..end], p, done);
                 Scan(raw, at, p, done) ==
                   if step.Err? then Err(step.code) else Scan(raw, AfterBreak(raw, end), step.value.0, step.value.1)
  {
  }

  function Start(raw: string): (at: nat)
    ensures at <= |raw|
  {
    if BOM <= raw then 3 else 0
  }

  function Events(raw: string, utf8: string -> bool): Result<seq<Event>> {
    var fits := 0 < |raw| <= STREAM_CAP;
    :- Need(fits, "stream_body_limit");
    :- Need(0 as char !in raw, "stream_nul");
    :- Need(utf8(raw), "stream_invalid_utf8");
    Scan(raw, Start(raw), BLANK, [])
  }

  /** A line that is neither blank nor a comment. */
  method Field(line: string, p: Pending) returns (r: Result<Pending>)
    requires line != "" && line[0] != ':'
    ensures forall done :: Line(line, p, done) == if r.Ok? then Ok((r.value, done)) else Err(r.code)
  {
    var colon := FindColon(line, 0);
    var key, value := line[..colon], if colon == |line| then "" else line[colon + 1..];
    if value != "" && value[0] == ' ' {
      value := value[1..];
    }
    var current := p;
    if key == "event" {
      :- Need(!current.named && NameOk(value), "stream_event_name");
      current := current.(name := value, named := true);
    } else if key == "data" {
      if current.hasData {
        current := current.(data := current.data + "\n");
      }
      current := current.(data := current.data + value, hasData := true);
      :- Need(|current.data| <= EVENT_CAP, "stream_event_limit");
    } else {
      return Err("stream_sse_field");
    }
    r := Ok(current);
  }

  /** The scanning loop; `at` strictly increases. */
  method ScanLines(raw: string, start: nat) returns (r: Result<seq<Event>>)
    requires start <= |raw|
    ensures r == Scan(raw, start, BLANK, [])
  {
    hide Scan, FindBreak, FindColon, FieldValue, NameOk;
    var at := start;
    var result: seq<Event> := [];
    var current := BLANK;
    while at < |raw|
      invariant at <= |raw|
      invariant Scan(raw, at, current, result) == Scan(raw, start, BLANK, [])
      decreases |raw| - at
    {
      ScanStep(raw, at, current, result);
      var end := FindBreak(raw, at);
      :- Need(end < |raw|, "stream_unterminated_line");
      var line := raw[at..end];
      at := end + 1;
      if raw[end] == '\r' && at < |raw| && raw[at] == '\n' {
        at := at + 1;
      }
      if line == "" {
        if current.hasData {
          :- Need(|result| < EVENT_LIMIT, "stream_event_count");
          result := result + [Event(current.name, current.data)];
        } else {
          :- Need(!current.named, "stream_event_without_data");
        }
        current := BLANK;
      } else if line[0] != ':' {
        current :- Field(line, current);
      }
    }
    ScanEnd(raw, current, result);
    :- Need(!current.named && !current.hasData, "stream_unterminated_event");
    :- Need(result != [], "stream_empty");
    r := Ok(result);
  }

  method ParseEvents(raw: string, utf8: string -> bool) returns (r: Result<seq<Event>>)
    ensures r == Events(raw, utf8)
  {
    var fits := 0 < |raw| <= STREAM_CAP;
    :- Need(fits, "stream_body_limit");
    :- Need(0 as char !in raw, "stream_nul");
    :- Need(utf8(raw), "stream_invalid_utf8");
    r := ScanLines(raw, if BOM <= raw then 3 else 0);
  }

  // ----- Rendering -----

  datatype Terminator = Lf | Cr | CrLf {
    function Text(): string {
      match this
      case Lf => "\n"
      case Cr => "\r"
      case CrLf => "\r\n"
    }
  }

  function Join(lines: seq<string>, t: Terminator): string {
    if lines == [] then "" else lines[0] + t.Text() + Join(lines[1..], t)
  }

  function FindLf(s: string, at: nat): (i: nat)
    requires at <= |s|
    ensures at <= i <= |s|
    ensures i < |s| ==> s[i] == '\n'
    ensures forall j :: at <= j < i ==> s[j] != '\n'
    decreases |s| - at
  {
    if at == |s| || s[at] == '\n' then at else FindLf(s, at + 1)
  }

  /** One `data` line for each line of the data. */
  function DataLines(data: string): seq<string>
    decreases |data|
  {
    var i := FindLf(data, 0);
    if i == |data| then ["data: " + data] else ["data: " + data[..i]] + DataLines(data[i + 1..])
  }

  function EventLines(e: Event): seq<string> {
    (if e.name == "" then [] else ["event: " + e.name]) + DataLines(e.data) + [""]
  }

  function AllLines(es: seq<Event>): seq<string> {
    if es == [] then [] else EventLines(es[0]) + AllLines(es[1..])
  }

  predicate IsComment(line: string) { line != "" && line[0] == ':' }

  function WithoutComments(lines: seq<string>): seq<string> {
    if lines == [] then []
    else if IsComment(lines[0]) then WithoutComments(lines[1..])
    else [lines[0]] + WithoutComments(lines[1..])
  }

  predicate Legal(e: Event) {
    && (e.name == "" || NameOk(e.name))
    && |e.data| <= EVENT_CAP
    && '\r' !in e.data && 0 as char !in e.data
  }

  predicate AllLegal(es: seq<Event>) { forall i | 0 <= i < |es| :: Legal(es[i]) }

  predicate IsLine(line: string) { forall i | 0 <= i < |line| :: !IsBreak(line[i]) && line[i] != 0 as char }

  function Lines(lines: seq<string>, p: Pending, done: seq<Event>): Result<seq<Event>> {
    if lines == [] then Finish(p, done) else
    var (p', done') :- Line(lines[0], p, done);
    Lines(lines[1..], p', done')
  }

  lemma JoinStart(lines: seq<string>, t: Terminator)
    requires forall l | l in lines :: IsLine(l)
    ensures t == Cr && Join(lines, t) != "" ==> Join(lines, t)[0] != '\n'
  {
    if lines != [] && lines[0] != "" {
      assert IsLine(lines[0]);
    }
  }

  lemma DropTwo(s: string, at: nat, a: string, b: string, c: string)
    requires at <= |s| && s[at..] == a + b + c
    ensures at + |a| + |b| <= |s| && s[at + |a| + |b|..] == c
  {
    assert s[at..][|a| + |b|..] == c;
  }

  /** Splitting the joined lines gives the lines back. */
  lemma {:induction false} ScanJoined(raw: string, at: nat, lines: seq<string>, t: Terminator, p: Pending,
                                      done: seq<Event>)
    requires at <= |raw| && raw[at..] == Join(lines, t)
    requires forall l | l in lines :: IsLine(l)
    ensures Scan(raw, at, p, done) == Lines(lines, p, done)
    decreases |lines|
  {
    if lines != [] {
      var line, rest := lines[0], Join(lines[1..], t);
      var end := at + |line|;
      assert raw[at..] == line + t.Text() + rest;
      assert raw[at..end] == line;
      assert IsLine(line) && forall i :: at <= i < end ==> raw[i] == line[i - at];
      assert raw[end] == t.Text()[0];
      assert FindBreak(raw, at) == end;
      var next := AfterBreak(raw, end);
      DropTwo(raw, at, line, t.Text(), rest);
      JoinStart(lines[1..], t);
      assert next == end + |t.Text()|;
      var step := Line(line, p, done);
      if step.Ok? {
        ScanJoined(raw, next, lines[1..], t, step.value.0, step.value.1);
      }
    }
  }

  lemma {:induction false} CommentsSkipped(lines: seq<string>, p: Pending, done: seq<Event>)
    ensures Lines(lines, p, done) == Lines(WithoutComments(lines), p, done)
  {
    if lines != [] {
      if IsComment(lines[0]) {
        CommentsSkipped(lines[1..], p, done);
      } else {
        var rest := WithoutComments(lines[1..]);
        assert ([lines[0]] + rest)[1..] == rest;
        var step := Line(lines[0], p, done);
        if step.Ok? {
          CommentsSkipped(lines[1..], step.value.0, step.value.1);
        }
      }
    }
  }

  lemma EventLine(name: string, p: Pending, done: seq<Event>)
    requires NameOk(name) && !p.named
    ensures Line("event: " + name, p, done) == Ok((p.(name := name, named := true), done))
  {
    var line := "event: " + name;
    assert line[5] == ':' && forall j :: 0 <= j < 5 ==> line[j] != ':';
    assert FindColon(line, 0) == 5;
    assert line[..5] == "event" && line[6..] == " " + name && (" " + name)[1..] == name;
  }

  /** The event once `data` has been appended as one more line. */
  function WithData(p: Pending, data: string): Pending {
    p.(data := (if p.hasData then p.data + "\n" else p.data) + data, hasData := true)
  }

  lemma DataLine(value: string, p: Pending, done: seq<Event>)
    requires |WithData(p, value).data| <= EVENT_CAP
    ensures Line("data: " + value, p, done) == Ok((WithData(p, value), done))
  {
    var line := "data: " + value;
    assert line[4] == ':' && forall j :: 0 <= j < 4 ==> line[j] != ':';
    assert FindColon(line, 0) == 4;
    assert line[..4] == "data" && line[5..] == " " + value && (" " + value)[1..] == value;
  }

  lemma OneLine(line: string, rest: seq<string>, p: Pending, done: seq<Event>, p': Pending, done': seq<Event>)
    requires Line(line, p, done) == Ok((p', done'))
    ensures Lines([line] + rest, p, done) == Lines(rest, p', done')
  {
    assert ([line] + rest)[1..] == rest;
  }

  lemma SplitData(p: Pending, head: string, tail: string)
    ensures WithData(WithData(p, head), tail) == WithData(p, head + "\n" + tail)
  {
    var before := if p.hasData then p.data + "\n" else p.data;
    assert before + head + "\n" + tail == before + (head + "\n" + tail);
  }

  lemma {:induction false} DataParsed(data: string, p: Pending, done: seq<Event>, rest: seq<string>)
    requires |WithData(p, data).data| <= EVENT_CAP
    ensures Lines(DataLines(data) + rest, p, done) == Lines(rest, WithData(p, data), done)
    decreases |data|
  {
    hide Line, Lines;
    var i := FindLf(data, 0);
    if i == |data| {
      DataLine(data, p, done);
      OneLine("data: " + data, rest, p, done, WithData(p, data), done);
    } else {
      var head, tail := data[..i], data[i + 1..];
      assert data == head + "\n" + tail;
      SplitData(p, head, tail);
      DataLine(head, p, done);
      OneLine("data: " + head, DataLines(tail) + rest, p, done, WithData(p, head), done);
      assert DataLines(data) + rest == ["data: " + head] + (DataLines(tail) + rest);
      DataParsed(tail, WithData(p, head), done, rest);
    }
  }

  lemma BodyParsed(e: Event, p: Pending, done: seq<Event>, rest: seq<string>)
    requires Legal(e) && |done| < EVENT_LIMIT && p == Pending(e.name, "", e.name != "", false)
    ensures Lines(DataLines(e.data) + ([""] + rest), p, done) == Lines(rest, BLANK, done + [e])
  {
    var whole := Pending(e.name, e.data, e.name != "", true);
    assert WithData(p, e.data) == whole by {
      assert "" + e.data == e.data;
    }
    DataParsed(e.data, p, done, [""] + rest);
    OneLine("", rest, whole, done, BLANK, done + [e]);
  }

  lemma Regroup<T>(a: seq<T>, b: seq<T>, c: seq<T>, d: seq<T>)
    ensures a + b + c + d == a + (b + (c + d))
    ensures [] + b == b
  {
  }

  lemma EventParsed(e: Event, done: seq<Event>, rest: seq<string>)
    requires Legal(e) && |done| < EVENT_LIMIT
    ensures Lines(EventLines(e) + rest, BLANK, done) == Lines(rest, BLANK, done + [e])
  {
    var p := Pending(e.name, "", e.name != "", false);
    var body := DataLines(e.data) + ([""] + rest);
    BodyParsed(e, p, done, rest);
    hide Line, Lines, DataLines;
    if e.name != "" {
      EventLine(e.name, BLANK, done);
      Regroup(["event: " + e.name], DataLines(e.data), [""], rest);
      OneLine("event: " + e.name, body, BLANK, done, p, done);
    } else {
      Regroup([], DataLines(e.data), [""], rest);
      Regroup([], body, [], []);
    }
  }

  lemma NoLines(done: seq<Event>)
    requires done != []
    ensures Lines([], BLANK, done) == Ok(done)
  {
  }

  lemma {:induction false} EventsParsed(es: seq<Event>, done: seq<Event>)
    requires AllLegal(es)
    requires 0 < |done + es| <= EVENT_LIMIT
    ensures Lines(AllLines(es), BLANK, done) == Ok(done + es)
    decreases |es|
  {
    hide Line, Lines, Legal, EventLines;
    if es == [] {
      assert done + es == done;
      NoLines(done);
    } else {
      EventParsed(es[0], done, AllLines(es[1..]));
      assert done + [es[0]] + es[1..] == done + es;
      EventsParsed(es[1..], done + [es[0]]);
    }
  }

  // A rendered stream starts with a comment or a field, so never with the mark.
  lemma NoMark(lines: seq<string>, es: seq<Event>, t: Terminator)
    requires es != [] && WithoutComments(lines) == AllLines(es)
    ensures !(BOM <= Join(lines, t))
  {
    assert DataLines(es[0].data)[0][..6] == "data: ";
    assert AllLines(es)[0] == EventLines(es[0])[0];
    var first := lines[0];
    assert first != "" && first[0] in {':', 'e', 'd'};
    assert Join(lines, t)[0] == first[0];
  }

  lemma {:induction false} JoinedHasNoNul(lines: seq<string>, t: Terminator)
    requires forall l | l in lines :: IsLine(l)
    ensures 0 as char !in Join(lines, t)
  {
    if lines != [] {
      JoinedHasNoNul(lines[1..], t);
      assert IsLine(lines[0]);
    }
  }

  /** Any rendering of legal events parses back to exactly those events: either
      mark or none, any uniform line break, comments anywhere. */
  lemma RoundTrip(es: seq<Event>, lines: seq<string>, t: Terminator, mark: bool, utf8: string -> bool)
    requires 0 < |es| <= EVENT_LIMIT && AllLegal(es)
    requires WithoutComments(lines) == AllLines(es) && forall l | l in lines :: IsLine(l)
    requires var raw := (if mark then BOM else "") + Join(lines, t);
             |raw| <= STREAM_CAP && utf8(raw)
    ensures Events((if mark then BOM else "") + Join(lines, t), utf8) == Ok(es)
  {
    var text := Join(lines, t);
    var raw := (if mark then BOM else "") + text;
    NoMark(lines, es, t);
    JoinedHasNoNul(lines, t);
    assert lines != [] && text != "";
    assert raw[Start(raw)..] == text;
    ScanJoined(raw, Start(raw), lines, t, BLANK, []);
    CommentsSkipped(lines, BLANK, []);
    EventsParsed(es, []);
    assert [] + es == es;
  }

  // ----- Soundness -----

  predicate LegalPending(p: Pending) {
    && (if p.named then NameOk(p.name) else p.name == "")
    && (if p.hasData then |p.data| <= EVENT_CAP && '\r' !in p.data && 0 as char !in p.data else p.data == "")
  }

  lemma LineKeepsLegal(line: string, p: Pending, done: seq<Event>)
    requires LegalPending(p) && '\r' !in line && 0 as char !in line && Line(line, p, done).Ok?
    requires |done| <= EVENT_LIMIT && AllLegal(done)
    ensures var (p', done') := Line(line, p, done).value;
            LegalPending(p') && |done'| <= EVENT_LIMIT && AllLegal(done')
  {
  }

  lemma {:induction false} ScannedAreLegal(raw: string, at: nat, p: Pending, done: seq<Event>)
    requires at <= |raw| && 0 as char !in raw && LegalPending(p) && |done| <= EVENT_LIMIT && AllLegal(done)
    requires Scan(raw, at, p, done).Ok?
    ensures var es := Scan(raw, at, p, done).value;
            0 < |es| <= EVENT_LIMIT && AllLegal(es)
    decreases |raw| - at
  {
    if at < |raw| {
      var end := FindBreak(raw, at);
      var line := raw[at..end];
      assert forall i :: 0 <= i < |line| ==> line[i] == raw[at + i];
      LineKeepsLegal(line, p, done);
      var (p', done') := Line(line, p, done).value;
      ScannedAreLegal(raw, AfterBreak(raw, end), p', done');
    }
  }

  /** Only legal events are ever accepted, so every accepted stream can be
      rendered canonically and read again. */
  lemma AcceptedAreLegal(raw: string, utf8: string -> bool)
    requires Events(raw, utf8).Ok?
    ensures var es := Events(raw, utf8).value;
            0 < |es| <= EVENT_LIMIT && AllLegal(es)
  {
    ScannedAreLegal(raw, Start(raw), BLANK, []);
  }

  lemma {:induction false} DataLinesAreLines(data: string)
    requires '\r' !in data && 0 as char !in data
    ensures forall l | l in DataLines(data) :: IsLine(l) && !IsComment(l)
    decreases |data|
  {
    var i := FindLf(data, 0);
    assert forall j :: 0 <= j < |data| ==> data[j] in data;
    if i < |data| {
      assert forall c | c in data[i + 1..] :: c in data;
      DataLinesAreLines(data[i + 1..]);
    }
  }

  lemma {:induction false} AllLinesAreLines(es: seq<Event>)
    requires AllLegal(es)
    ensures forall l | l in AllLines(es) :: IsLine(l) && !IsComment(l)
  {
    if es != [] {
      DataLinesAreLines(es[0].data);
      assert forall j :: 0 <= j < |es[0].name| ==> es[0].name[j] in es[0].name;
      AllLinesAreLines(es[1..]);
    }
  }

  lemma {:induction false} NothingToStrip(lines: seq<string>)
    requires forall l | l in lines :: !IsComment(l)
    ensures WithoutComments(lines) == lines
  {
    if lines != [] {
      NothingToStrip(lines[1..]);
    }
  }

  function Canonical(es: seq<Event>): string {
    Join(AllLines(es), Lf)
  }

  /** The canonical rendering of an accepted stream reads back as the same events. */
  lemma Normalizes(raw: string, utf8: string -> bool)
    requires Events(raw, utf8).Ok?
    requires var text := Canonical(Events(raw, utf8).value); |text| <= STREAM_CAP && utf8(text)
    ensures Events(Canonical(Events(raw, utf8).value), utf8) == Events(raw, utf8)
  {
    var es := Events(raw, utf8).value;
    AcceptedAreLegal(raw, utf8);
    AllLinesAreLines(es);
    NothingToStrip(AllLines(es));
    assert "" + Canonical(es) == Canonical(es);
    RoundTrip(es, AllLines(es), Lf, false, utf8);
  }
}
