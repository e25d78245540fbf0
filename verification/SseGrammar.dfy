/** The exact grammar of accepted event streams: every way an event stream may be
    written, line breaks, spacing and comments included. */
module SseGrammar {
  import opened Wrappers
  import opened Sse

  // ----- Lines with their own line breaks -----

  datatype Ended = Ended(text: string, end: Terminator)

  function Spelled(ls: seq<Ended>): string {
    if ls == [] then "" else ls[0].text + ls[0].end.Text() + Spelled(ls[1..])
  }

  function Texts(ls: seq<Ended>): seq<string> {
    seq(|ls|, k requires 0 <= k < |ls| => ls[k].text)
  }

  predicate BreakFree(line: string) { '\n' !in line && '\r' !in line }

  const LONE_LF := Ended("", Lf)

  /** No line breaks inside lines, and no CR directly before a lone LF: those two would
      be one break. */
  ghost predicate Separate(ls: seq<Ended>) {
    && (forall k :: 0 <= k < |ls| ==> BreakFree(ls[k].text))
    && (forall j, k :: 0 <= j < |ls| && k == j + 1 && k < |ls| && ls[j].end == Cr ==> ls[k] != LONE_LF)
  }

  lemma SpelledStart(ls: seq<Ended>)
    requires Separate(ls) && (ls != [] ==> ls[0] != LONE_LF)
    ensures Spelled(ls) != "" ==> Spelled(ls)[0] != '\n'
  {
    if ls != [] && ls[0].text != "" {
      assert BreakFree(ls[0].text);
    }
  }

  lemma BreakAt(raw: string, at: nat, line: string, end: Terminator, rest: string)
    requires at <= |raw| && raw[at..] == line + end.Text() + rest && BreakFree(line)
    requires end == Cr && rest != "" ==> rest[0] != '\n'
    ensures FindBreak(raw, at) == at + |line| < |raw| && raw[at..at + |line|] == line
    ensures AfterBreak(raw, at + |line|) == at + |line| + |end.Text()| && raw[at + |line| + |end.Text()|..] == rest
  {
    var stop := at + |line|;
    assert raw[at..stop] == line;
    assert forall i :: at <= i < stop ==> raw[i] == line[i - at];
    assert raw[stop] == end.Text()[0];
    DropTwo(raw, at, line, end.Text(), rest);
    assert end == CrLf ==> raw[stop + 1] == '\n';
    assert rest != "" ==> raw[stop + |end.Text()|] == rest[0];
  }

  lemma {:induction false} ScanSpelled(raw: string, at: nat, ls: seq<Ended>, p: Pending, done: seq<Event>)
    requires at <= |raw| && raw[at..] == Spelled(ls) && Separate(ls)
    ensures Scan(raw, at, p, done) == Lines(Texts(ls), p, done)
    decreases |ls|
  {
    hide Line, Scan, FindBreak, AfterBreak;
    if ls == [] {
      ScanEnd(raw, p, done);
    } else {
      var l, rest := ls[0], ls[1..];
      assert Texts(ls)[1..] == Texts(rest);
      SpelledRest(ls);
      BreakAt(raw, at, l.text, l.end, Spelled(rest));
      ScanStep(raw, at, p, done);
      var step := Line(l.text, p, done);
      if step.Ok? {
        ScanSpelled(raw, at + |l.text| + |l.end.Text()|, rest, step.value.0, step.value.1);
      }
    }
  }

  lemma SpelledRest(ls: seq<Ended>)
    requires ls != [] && Separate(ls)
    ensures Separate(ls[1..]) && BreakFree(ls[0].text)
    ensures ls[0].end == Cr && Spelled(ls[1..]) != "" ==> Spelled(ls[1..])[0] != '\n'
  {
    var rest := ls[1..];
    assert Separate(rest) by {
      forall j, k | 0 <= j < |rest| && k == j + 1 && k < |rest| && rest[j].end == Cr ensures rest[k] != LONE_LF {
        assert ls[j + 1] == rest[j] && ls[k + 1] == rest[k];
      }
    }
    if ls[0].end == Cr {
      SpelledStart(rest);
    }
  }

  function EndAt(raw: string, stop: nat): Terminator
    requires stop < |raw|
  {
    if raw[stop] == '\n' then Lf else if AfterBreak(raw, stop) == stop + 2 then CrLf else Cr
  }

  lemma SplitAt(raw: string, at: nat)
    requires at < |raw| && FindBreak(raw, at) < |raw|
    ensures var stop := FindBreak(raw, at);
            var end := EndAt(raw, stop);
            && raw[at..] == raw[at..stop] + end.Text() + raw[AfterBreak(raw, stop)..] && BreakFree(raw[at..stop])
            && (end == Cr && AfterBreak(raw, stop) < |raw| ==> raw[AfterBreak(raw, stop)] != '\n')
  {
    var stop := FindBreak(raw, at);
    var next := AfterBreak(raw, stop);
    assert raw[at..] == raw[at..stop] + raw[stop..next] + raw[next..];
    assert raw[stop..next] == EndAt(raw, stop).Text();
  }

  lemma LoneFirst(ls: seq<Ended>)
    requires ls != [] && (Spelled(ls) != "" ==> Spelled(ls)[0] != '\n')
    ensures ls[0] != LONE_LF
  {
    if ls[0] == LONE_LF {
      assert false;
    }
  }

  lemma SeparateCons(l: Ended, rest: seq<Ended>)
    requires Separate(rest) && BreakFree(l.text)
    requires l.end == Cr && Spelled(rest) != "" ==> Spelled(rest)[0] != '\n'
    ensures Separate([l] + rest)
  {
    var ls := [l] + rest;
    forall j, k | 0 <= j < |ls| && k == j + 1 && k < |ls| && ls[j].end == Cr ensures ls[k] != LONE_LF {
      if j == 0 {
        assert ls[k] == rest[0];
        LoneFirst(rest);
      } else {
        assert ls[j] == rest[j - 1] && ls[k] == rest[k - 1];
      }
    }
  }

  /** Whatever scans is a sequence of terminated lines. */
  lemma {:induction false} ScanSplits(raw: string, at: nat, p: Pending, done: seq<Event>) returns (ls: seq<Ended>)
    requires at <= |raw| && Scan(raw, at, p, done).Ok?
    ensures raw[at..] == Spelled(ls) && Separate(ls)
    decreases |raw| - at
  {
    hide Line, Scan, FindBreak, AfterBreak, EndAt;
    if at == |raw| {
      ls := [];
    } else {
      ScanStep(raw, at, p, done);
      var stop := FindBreak(raw, at);
      var step := Line(raw[at..stop], p, done);
      SplitAt(raw, at);
      var rest := ScanSplits(raw, AfterBreak(raw, stop), step.value.0, step.value.1);
      var l := Ended(raw[at..stop], EndAt(raw, stop));
      assert AfterBreak(raw, stop) < |raw| ==> raw[AfterBreak(raw, stop)] == raw[AfterBreak(raw, stop)..][0];
      SeparateCons(l, rest);
      ls := [l] + rest;
      assert ls[1..] == rest;
    }
  }

  // ----- What a line may be -----

  /** A line between blank lines; a space after the colon is not part of the value. */
  datatype Item =
    | Comment(text: string)
    | Name(name: string, spaced: bool)
    | Data(value: string, spaced: bool)
    | BareData

  function Colon(spaced: bool): string { if spaced then ": " else ":" }

  function Spell(x: Item): string {
    match x
    case Comment(text) => ":" + text
    case Name(name, spaced) => "event" + Colon(spaced) + name
    case Data(value, spaced) => "data" + Colon(spaced) + value
    case BareData => "data"
  }

  /** A value that starts with a space needs the separating space as well. */
  predicate Formed(x: Item) {
    match x
    case Name(name, _) => 1 <= |name| <= 128 && forall c | c in name :: '!' <= c <= '~'
    case Data(value, spaced) => spaced || value == "" || value[0] != ' '
    case _ => true
  }

  function After(p: Pending, x: Item): Pending {
    match x
    case Comment(_) => p
    case Name(name, _) => p.(name := name, named := true)
    case Data(value, _) => WithData(p, value)
    case BareData => WithData(p, "")
  }

  predicate Fits(p: Pending, x: Item) {
    match x
    case Comment(_) => true
    case Name(_, _) => !p.named
    case _ => |After(p, x).data| <= EVENT_CAP
  }

  lemma FieldAt(key: string, value: string, spaced: bool)
    requires ':' !in key && (spaced || value == "" || value[0] != ' ')
    ensures var line := key + Colon(spaced) + value;
            FindColon(line, 0) == |key| < |line| && line[..|key|] == key && FieldValue(line, |key|) == value
  {
    var line := key + Colon(spaced) + value;
    assert forall j :: 0 <= j < |key| ==> line[j] == key[j];
    assert line[|key|] == ':';
    assert line[..|key|] == key;
    assert line[|key| + 1..] == if spaced then " " + value else value;
    assert (" " + value)[1..] == value;
  }

  lemma ItemLine(x: Item, p: Pending, done: seq<Event>)
    requires Formed(x) && Fits(p, x)
    ensures Line(Spell(x), p, done) == Ok((After(p, x), done))
  {
    match x
    case Comment(_) =>
    case Name(name, spaced) =>
      assert name[0] in name;
      FieldAt("event", name, spaced);
    case Data(value, spaced) => FieldAt("data", value, spaced);
    case BareData =>
      assert FindColon("data", 0) == 4;
      assert "data"[..4] == "data";
  }

  lemma FieldSplits(line: string, colon: nat)
    requires colon < |line| && line[colon] == ':'
    ensures var value := FieldValue(line, colon);
            var spaced := colon + 1 < |line| && line[colon + 1] == ' ';
            line == line[..colon] + Colon(spaced) + value && (spaced || value == "" || value[0] != ' ')
  {
    var spaced := colon + 1 < |line| && line[colon + 1] == ' ';
    assert line == line[..colon] + [line[colon]] + line[colon + 1..];
    if spaced {
      assert line[colon + 1..] == " " + line[colon + 2..] && line[colon + 1..][1..] == line[colon + 2..];
      assert ":" + (" " + line[colon + 2..]) == Colon(true) + line[colon + 2..];
    }
  }

  /** Every accepted line that is not blank is one of these. */
  lemma LineItem(line: string, p: Pending, done: seq<Event>) returns (x: Item)
    requires line != "" && Line(line, p, done).Ok?
    ensures line == Spell(x) && Formed(x) && Fits(p, x) && Line(line, p, done) == Ok((After(p, x), done))
  {
    if line[0] == ':' {
      x := Comment(line[1..]);
      assert line == ":" + line[1..];
    } else {
      var colon := FindColon(line, 0);
      var key, value := line[..colon], FieldValue(line, colon);
      if colon == |line| {
        assert key == line;
        x := BareData;
      } else {
        FieldSplits(line, colon);
        var spaced := colon + 1 < |line| && line[colon + 1] == ' ';
        x := if key == "event" then Name(value, spaced) else Data(value, spaced);
      }
    }
  }

  // ----- Blocks of lines -----

  type Block = seq<Item>

  function Names(b: Block): seq<string> {
    if b == [] then []
    else Names(b[..|b| - 1]) + match b[|b| - 1] case Name(name, _) => [name] case _ => []
  }

  function Values(b: Block): seq<string> {
    if b == [] then []
    else Values(b[..|b| - 1]) + match b[|b| - 1] case Data(value, _) => [value] case BareData => [""] case _ => []
  }

  function JoinLf(values: seq<string>): string {
    if values == [] then "" else
    var before := values[..|values| - 1];
    (if before == [] then "" else JoinLf(before) + "\n") + values[|values| - 1]
  }

  function EventOf(b: Block): seq<Event> {
    if Values(b) == [] then [] else [Event(if Names(b) == [] then "" else Names(b)[0], JoinLf(Values(b)))]
  }

  /** At most one name, and only beside data; the data lines together within the cap. */
  ghost predicate BlockOk(b: Block) {
    && (forall k :: 0 <= k < |b| ==> Formed(b[k]))
    && |Names(b)| <= 1 && (Names(b) != [] ==> Values(b) != [])
    && |JoinLf(Values(b))| <= 262_144
  }

  /** What is pending after the lines of an unfinished block. */
  function PendingOf(b: Block): Pending {
    Pending(if Names(b) == [] then "" else Names(b)[|Names(b)| - 1], JoinLf(Values(b)), Names(b) != [], Values(b) != [])
  }

  lemma PendingStep(b: Block, x: Item)
    ensures PendingOf(b + [x]) == After(PendingOf(b), x)
  {
    var c := b + [x];
    assert c[..|c| - 1] == b;
    match x
    case Data(value, _) =>
      assert Values(c)[..|Values(c)| - 1] == Values(b);
    case BareData =>
      assert Values(c)[..|Values(c)| - 1] == Values(b);
    case Name(name, _) =>
      assert Names(c)[|Names(c)| - 1] == name && Values(c) == Values(b);
    case Comment(_) =>
      assert Names(c) == Names(b) && Values(c) == Values(b);
  }

  function SpellAll(b: Block): seq<string> {
    seq(|b|, k requires 0 <= k < |b| => Spell(b[k]))
  }

  /** Blocks each ended by a blank line, then trailing comments. */
  function Written(bs: seq<Block>, tail: Block): seq<string> {
    if bs == [] then SpellAll(tail) else SpellAll(bs[0]) + [""] + Written(bs[1..], tail)
  }

  function EventsOf(bs: seq<Block>): seq<Event> {
    if bs == [] then [] else EventOf(bs[0]) + EventsOf(bs[1..])
  }

  predicate OnlyComments(b: Block) { forall x | x in b :: x.Comment? }

  ghost predicate WellWritten(bs: seq<Block>, tail: Block) {
    (forall k :: 0 <= k < |bs| ==> BlockOk(bs[k])) && OnlyComments(tail)
  }

  lemma {:induction false} PrefixFits(b: Block, k: nat)
    requires k <= |b|
    ensures |Names(b[..k])| <= |Names(b)| && |JoinLf(Values(b[..k]))| <= |JoinLf(Values(b))|
    decreases |b| - k
  {
    if k == |b| {
      assert b[..k] == b;
    } else {
      var n := k + 1;
      PrefixFits(b, n);
      assert b[..n][..k] == b[..k];
      var v := Values(b[..n]);
      if |v| > |Values(b[..k])| {
        assert v[..|v| - 1] == Values(b[..k]);
      } else {
        assert v == Values(b[..k]);
      }
    }
  }

  lemma NameComesFirst(b: Block, x: Item)
    requires x.Name? && |Names(b + [x])| <= 1
    ensures Names(b) == []
  {
    assert (b + [x])[..|b|] == b;
  }

  lemma NextFits(b: Block, k: nat)
    requires k < |b| && |Names(b)| <= 1 && |JoinLf(Values(b))| <= EVENT_CAP
    ensures Fits(PendingOf(b[..k]), b[k])
  {
    hide JoinLf, Names, Values, After;
    var n := k + 1;
    PrefixFits(b, n);
    assert b[..n] == b[..k] + [b[k]];
    PendingStep(b[..k], b[k]);
    if b[k].Name? {
      NameComesFirst(b[..k], b[k]);
    }
  }

  lemma {:induction false} BlockRuns(b: Block, k: nat, rest: seq<string>, done: seq<Event>)
    requires k <= |b| && (forall j :: 0 <= j < |b| ==> Formed(b[j]))
    requires |Names(b)| <= 1 && |JoinLf(Values(b))| <= EVENT_CAP
    ensures Lines(SpellAll(b[k..]) + rest, PendingOf(b[..k]), done) == Lines(rest, PendingOf(b), done)
    decreases |b| - k
  {
    hide Line, Lines, PendingOf, Formed, Fits, Spell, JoinLf, Values, Names;
    if k == |b| {
      assert SpellAll(b[k..]) + rest == rest && b[..k] == b;
    } else {
      var n := k + 1;
      NextFits(b, k);
      ItemLine(b[k], PendingOf(b[..k]), done);
      PendingStep(b[..k], b[k]);
      assert b[..n] == b[..k] + [b[k]];
      assert SpellAll(b[k..]) + rest == [Spell(b[k])] + (SpellAll(b[n..]) + rest);
      OneLine(Spell(b[k]), SpellAll(b[n..]) + rest, PendingOf(b[..k]), done, PendingOf(b[..n]), done);
      BlockRuns(b, n, rest, done);
    }
  }

  lemma BlockEnds(b: Block, done: seq<Event>)
    requires |Names(b)| <= 1 && (Names(b) != [] ==> Values(b) != []) && |done| + |EventOf(b)| <= EVENT_LIMIT
    ensures Line("", PendingOf(b), done) == Ok((BLANK, done + EventOf(b)))
  {
    hide JoinLf, Names, Values;
    assert done + [] == done;
  }

  lemma NothingPending()
    ensures PendingOf([]) == BLANK
  {
  }

  lemma {:induction false} CommentsLeaveNothing(b: Block)
    ensures OnlyComments(b) <==> Names(b) == [] && Values(b) == []
    decreases |b|
  {
    if b != [] {
      CommentsLeaveNothing(b[..|b| - 1]);
      assert b == b[..|b| - 1] + [b[|b| - 1]];
    }
  }

  lemma TailRuns(tail: Block, done: seq<Event>)
    requires OnlyComments(tail)
    ensures Lines(SpellAll(tail), BLANK, done) == Finish(BLANK, done)
  {
    hide Lines, Line;
    CommentsLeaveNothing(tail);
    BlockRuns(tail, 0, [], done);
    assert tail[0..] == tail && tail[..0] == [] && SpellAll(tail) + [] == SpellAll(tail);
    FinishLines(BLANK, done);
  }

  lemma FinishLines(p: Pending, done: seq<Event>)
    ensures Lines([], p, done) == Finish(p, done)
  {
  }

  /** A well-written text yields its blocks' events. */
  lemma {:induction false} WrittenRuns(bs: seq<Block>, tail: Block, done: seq<Event>)
    requires WellWritten(bs, tail) && 0 < |done + EventsOf(bs)| <= EVENT_LIMIT
    ensures Lines(Written(bs, tail), BLANK, done) == Ok(done + EventsOf(bs))
    decreases |bs|
  {
    hide Line, Lines, BlockOk, EventOf, SpellAll, PendingOf, OnlyComments;
    if bs == [] {
      assert done + EventsOf(bs) == done;
      TailRuns(tail, done);
    } else {
      var b, more := bs[0], done + EventOf(bs[0]);
      var after := Written(bs[1..], tail);
      assert more + EventsOf(bs[1..]) == done + EventsOf(bs);
      OkBlock(b);
      BlockRuns(b, 0, [""] + after, done);
      assert b[0..] == b && b[..0] == [];
      NothingPending();
      assert Written(bs, tail) == SpellAll(b) + ([""] + after);
      BlockEnds(b, done);
      OneLine("", after, PendingOf(b), done, BLANK, more);
      WrittenRuns(bs[1..], tail, more);
    }
  }

  lemma OkBlock(b: Block)
    requires BlockOk(b)
    ensures (forall j :: 0 <= j < |b| ==> Formed(b[j])) && |Names(b)| <= 1 && (Names(b) != [] ==> Values(b) != [])
    ensures |JoinLf(Values(b))| <= EVENT_CAP
  {
  }

  // ----- The other way -----

  /** An unfinished block so far. */
  ghost predicate Partial(b: Block) {
    (forall k :: 0 <= k < |b| ==> Formed(b[k])) && |Names(b)| <= 1 && |JoinLf(Values(b))| <= EVENT_CAP
  }

  lemma PartialStep(b: Block, x: Item)
    requires Partial(b) && Formed(x) && Fits(PendingOf(b), x)
    ensures Partial(b + [x])
  {
    var c := b + [x];
    PendingStep(b, x);
    assert c[..|c| - 1] == b;
    hide JoinLf, Formed;
  }

  lemma BlankEnds(b: Block, done: seq<Event>)
    requires Partial(b) && Line("", PendingOf(b), done).Ok? && |done| <= EVENT_LIMIT
    ensures BlockOk(b) && Line("", PendingOf(b), done) == Ok((BLANK, done + EventOf(b))) &&
            |done + EventOf(b)| <= EVENT_LIMIT
  {
    hide JoinLf, Names, Values, Formed;
    assert done + [] == done;
  }

  /** Whatever lines are accepted after `cur`, they complete it to a well-written text. */
  lemma {:induction false} LinesSplit(lines: seq<string>, cur: Block, done: seq<Event>)
    returns (bs: seq<Block>, tail: Block)
    requires Partial(cur) && |done| <= EVENT_LIMIT && Lines(lines, PendingOf(cur), done).Ok?
    ensures WellWritten(bs, tail) && SpellAll(cur) + lines == Written(bs, tail)
    ensures Lines(lines, PendingOf(cur), done).value == done + EventsOf(bs) && 0 < |done + EventsOf(bs)| <= EVENT_LIMIT
    decreases |lines|
  {
    hide Line, BlockOk, Partial, EventOf, SpellAll, PendingOf, OnlyComments;
    if lines == [] {
      bs, tail := [], cur;
      EndsInComments(cur, done);
      assert SpellAll(cur) + lines == SpellAll(cur) && done + EventsOf(bs) == done;
    } else if lines[0] == "" {
      BlankEnds(cur, done);
      var more := done + EventOf(cur);
      EmptyPartial();
      var rest: seq<Block>;
      rest, tail := LinesSplit(lines[1..], [], more);
      bs := [cur] + rest;
      assert bs[1..] == rest;
      EmptySpelling();
      assert SpellAll([]) + lines[1..] == lines[1..];
      assert lines == [""] + lines[1..];
      assert SpellAll(cur) + lines == SpellAll(cur) + [""] + lines[1..];
      assert more + EventsOf(rest) == done + EventsOf(bs);
    } else {
      var x := LineItem(lines[0], PendingOf(cur), done);
      PartialStep(cur, x);
      PendingStep(cur, x);
      bs, tail := LinesSplit(lines[1..], cur + [x], done);
      SpellingGrows(cur, x);
      assert SpellAll(cur) + lines == SpellAll(cur) + [Spell(x)] + lines[1..];
    }
  }

  lemma EmptyPartial()
    ensures Partial([]) && PendingOf([]) == BLANK
  {
  }

  lemma EmptySpelling()
    ensures SpellAll([]) == []
  {
  }

  lemma SpellingGrows(b: Block, x: Item)
    ensures SpellAll(b + [x]) == SpellAll(b) + [Spell(x)]
  {
    hide Spell;
  }

  lemma EndsInComments(cur: Block, done: seq<Event>)
    requires Finish(PendingOf(cur), done).Ok?
    ensures OnlyComments(cur) && Finish(PendingOf(cur), done) == Ok(done) && done != []
  {
    CommentsLeaveNothing(cur);
    hide JoinLf, Names, Values, OnlyComments;
  }

  // ----- The whole stream -----

  /** `raw` is a written event stream: an optional mark, then terminated lines that form
      blocks and trailing comments. */
  ghost predicate IsStream(raw: string, mark: bool, ls: seq<Ended>, bs: seq<Block>, tail: Block) {
    && raw == (if mark then [239 as char, 187 as char, 191 as char] else "") + Spelled(ls) && Separate(ls)
    && Texts(ls) == Written(bs, tail) && WellWritten(bs, tail)
  }

  lemma WrittenStart(bs: seq<Block>, tail: Block)
    requires Written(bs, tail) != []
    ensures var l := Written(bs, tail)[0]; l == "" || l[0] in {':', 'e', 'd'}
  {
    if bs == [] {
      assert Written(bs, tail)[0] == Spell(tail[0]);
    } else if bs[0] != [] {
      assert Written(bs, tail)[0] == Spell(bs[0][0]);
    } else {
      assert Written(bs, tail)[0] == "";
    }
  }

  lemma NoMarkInside(ls: seq<Ended>, bs: seq<Block>, tail: Block)
    requires Texts(ls) == Written(bs, tail)
    ensures !(BOM <= Spelled(ls))
  {
    hide Written;
    if ls != [] {
      assert Texts(ls)[0] == ls[0].text;
      WrittenStart(bs, tail);
      var c := Spelled(ls)[0];
      assert c in {':', 'e', 'd', '\r', '\n'};
    }
  }

  /** The exact grammar: a text within the caps is accepted with these events if and only
      if it can be written as blocks whose events they are. */
  lemma EventsIff(raw: string, utf8: string -> bool, es: seq<Event>)
    ensures Events(raw, utf8) == Ok(es) <==>
              && 0 < |raw| <= 524_288 && 0 as char !in raw && utf8(raw) && 0 < |es| <= 4096
              && exists mark, ls, bs, tail :: IsStream(raw, mark, ls, bs, tail) && es == EventsOf(bs)
  {
    hide Scan, Spelled, Texts, Separate, Written, WellWritten, EventsOf, Lines;
    if Events(raw, utf8) == Ok(es) {
      var ls := ScanSplits(raw, Start(raw), BLANK, []);
      ScanSpelled(raw, Start(raw), ls, BLANK, []);
      EmptyPartial();
      var bs, tail := LinesSplit(Texts(ls), [], []);
      EmptySpelling();
      assert SpellAll([]) + Texts(ls) == Texts(ls) && [] + EventsOf(bs) == EventsOf(bs);
      assert raw == (if BOM <= raw then BOM else "") + raw[Start(raw)..];
      assert IsStream(raw, BOM <= raw, ls, bs, tail);
    }
    if 0 < |raw| <= STREAM_CAP && 0 as char !in raw && utf8(raw) && 0 < |es| <= EVENT_LIMIT {
      forall mark, ls, bs, tail | IsStream(raw, mark, ls, bs, tail) && es == EventsOf(bs)
        ensures Events(raw, utf8) == Ok(es) {
        StreamParses(raw, utf8, mark, ls, bs, tail);
      }
    }
  }

  lemma StreamParses(raw: string, utf8: string -> bool, mark: bool, ls: seq<Ended>, bs: seq<Block>, tail: Block)
    requires IsStream(raw, mark, ls, bs, tail) && 0 < |EventsOf(bs)| <= EVENT_LIMIT
    requires 0 < |raw| <= STREAM_CAP && 0 as char !in raw && utf8(raw)
    ensures Events(raw, utf8) == Ok(EventsOf(bs))
  {
    hide Scan, Spelled, Texts, Separate, Written, WellWritten, EventsOf, Lines;
    NoMarkInside(ls, bs, tail);
    assert Start(raw) == if mark then 3 else 0;
    assert raw[Start(raw)..] == Spelled(ls);
    ScanSpelled(raw, Start(raw), ls, BLANK, []);
    assert [] + EventsOf(bs) == EventsOf(bs);
    WrittenRuns(bs, tail, []);
  }
}
