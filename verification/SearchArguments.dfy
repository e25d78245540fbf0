/** The search command line: option groups and words in any order, and literal words
    after a bare `--`. */
module SearchArguments {
  import opened Wrappers
  import opened Decimals

  datatype SearchArguments = SearchArguments(query: string, values: map<string, string>, flags: set<string>)

  const QUERY := "--query"
  const LIMIT := "--limit"
  const MODE := "--mode"
  const VALUE_KEYS := {"--brain", LIMIT, MODE, QUERY}
  const FLAG_KEYS := {"--json", "--no-vector", "--rerank", "--rerank-llm"}
  const MODES := {"", "balanced", "conservative", "tokenmax"}
  const INT_MAX: nat := 2_147_483_647

  predicate IsOption(arg: string) { "--" <= arg }

  // ----- Trimming -----

  predicate IsSpace(c: char) { c == ' ' || 9 as char <= c <= 13 as char }

  /** Space, tab, line feed, vertical tab, form feed and carriage return. */
  predicate White(c: char) { c in {' ', '\t', '\n', 11 as char, 12 as char, '\r'} }

  lemma SpaceIsWhite(c: char)
    ensures IsSpace(c) <==> White(c)
  {
  }

  ghost predicate Blank(s: string) { forall c | c in s :: White(c) }

  function SkipSpace(s: string, b: nat): (r: nat)
    requires b <= |s|
    ensures b <= r <= |s| && (r < |s| ==> !IsSpace(s[r])) && forall i :: b <= i < r ==> IsSpace(s[i])
    decreases |s| - b
  {
    if b < |s| && IsSpace(s[b]) then SkipSpace(s, b + 1) else b
  }

  function DropSpace(s: string, b: nat, e: nat): (r: nat)
    requires b <= e <= |s|
    ensures b <= r <= e && (b < r ==> !IsSpace(s[r - 1])) && forall i :: r <= i < e ==> IsSpace(s[i])
    decreases e
  {
    if b < e && IsSpace(s[e - 1]) then DropSpace(s, b, e - 1) else e
  }

  function Trim(s: string): string {
    var b := SkipSpace(s, 0);
    s[b..DropSpace(s, b, |s|)]
  }

  method TrimText(s: string) returns (t: string)
    ensures t == Trim(s)
  {
    var b, e := 0, |s|;
    while b < e && IsSpace(s[b])
      invariant b <= e && SkipSpace(s, b) == SkipSpace(s, 0)
    {
      b := b + 1;
    }
    while e > b && IsSpace(s[e - 1])
      invariant b <= e <= |s| && DropSpace(s, b, e) == DropSpace(s, b, |s|)
    {
      e := e - 1;
    }
    t := s[b..e];
  }

  /** `t` is `s` without its surrounding white space, and empty exactly when there is nothing else. */
  ghost predicate Trims(s: string, t: string) {
    && (t == "" <==> Blank(s))
    && (t != "" ==> !White(t[0]) && !White(t[|t| - 1]))
    && exists a, z :: s == a + t + z && Blank(a) && Blank(z)
  }

  /** Trimming removes exactly the surrounding white space. */
  lemma TrimIs(s: string)
    ensures Trims(s, Trim(s))
  {
    var b := SkipSpace(s, 0);
    var e := DropSpace(s, b, |s|);
    TrimmedEnds(s, b, e);
    hide IsSpace, Trims;
  }

  lemma TrimmedEnds(s: string, b: nat, e: nat)
    requires b <= e <= |s|
    requires forall i :: 0 <= i < b ==> IsSpace(s[i])
    requires forall i :: e <= i < |s| ==> IsSpace(s[i])
    requires (b < |s| ==> !IsSpace(s[b])) && (b < e ==> !IsSpace(s[e - 1]))
    ensures Trims(s, s[b..e])
  {
    forall c ensures IsSpace(c) <==> White(c) {
      SpaceIsWhite(c);
    }
    hide IsSpace, White;
    var a, t, z := s[..b], s[b..e], s[e..];
    assert s == a + t + z;
    assert Blank(a) && Blank(z);
    if b < e {
      assert t[0] == s[b] && t[|t| - 1] == s[e - 1];
      assert s[b] in s;
    } else {
      assert forall i :: 0 <= i < |s| ==> White(s[i]);
      assert t == "" && Blank(s);
    }
  }

  // ----- Limits -----

  function DigitRun(s: string, at: nat): (end: nat)
    requires at <= |s|
    ensures at <= end <= |s| && IsDigits(s[at..end]) && (end < |s| ==> !IsDigit(s[end]))
    decreases |s| - at
  {
    if at < |s| && IsDigit(s[at]) then DigitRun(s, at + 1) else at
  }

  /** An integer at the start of `s`: a minus sign, digits, and a value that fits an
      int.  The result is where it ends. */
  function FromChars(s: string): Option<nat> {
    var start := if s != "" && s[0] == '-' then 1 else 0;
    var end := DigitRun(s, start);
    if start == end || ValueOf(s[start..end]) > INT_MAX + start then None else Some(end)
  }

  /** An empty limit keeps the default; otherwise the whole text must be an int. */
  predicate LimitOk(limit: string) {
    if limit == "" then true
    else
      var digits := if limit[0] == '+' then limit[1..] else limit;
      digits != "" && !(limit[0] == '+' && digits[0] == '-') && FromChars(digits) == Some(|digits|)
  }

  /** An optional sign, then digits whose value fits a 32-bit int. */
  ghost predicate IntText(s: string, sign: string, digits: string) {
    && s == sign + digits && sign in {"", "+", "-"} && digits != "" && IsDigits(digits)
    && ValueOf(digits) <= (if sign == "-" then 2_147_483_648 else 2_147_483_647)
  }

  lemma RunsToEnd(s: string, at: nat)
    requires at <= |s| && IsDigits(s[at..])
    ensures DigitRun(s, at) == |s|
    decreases |s| - at
  {
    if at < |s| {
      assert s[at..][0] == s[at];
      assert s[at + 1..] == s[at..][1..];
      RunsToEnd(s, at + 1);
    }
  }

  lemma FromCharsWhole(s: string)
    ensures FromChars(s) == Some(|s|) <==>
              var start := if s != "" && s[0] == '-' then 1 else 0;
              s[start..] != "" && IsDigits(s[start..]) && ValueOf(s[start..]) <= INT_MAX + start
  {
    hide ValueOf;
    var start := if s != "" && s[0] == '-' then 1 else 0;
    assert s[start..|s|] == s[start..];
    if IsDigits(s[start..]) {
      RunsToEnd(s, start);
    }
  }

  /** A non-empty limit is accepted exactly when it is an optionally signed digit
      string that fits a 32-bit int; two signs are never accepted. */
  lemma LimitIff(limit: string)
    ensures LimitOk(limit) <==> limit == "" || exists sign, digits :: IntText(limit, sign, digits)
  {
    hide ValueOf, FromChars;
    if limit != "" {
      var rest := if limit[0] == '+' then limit[1..] else limit;
      FromCharsWhole(rest);
      if LimitOk(limit) {
        var start := if rest[0] == '-' then 1 else 0;
        var sign := if limit[0] == '+' then "+" else if start == 1 then "-" else "";
        assert limit == sign + rest[start..];
        assert IntText(limit, sign, rest[start..]);
      }
      if sign, digits :| IntText(limit, sign, digits) {
        SignSplits(limit, sign, digits);
      }
    }
  }

  lemma SignSplits(limit: string, sign: string, digits: string)
    requires IntText(limit, sign, digits)
    ensures LimitOk(limit)
  {
    hide ValueOf, FromChars;
    var rest := if limit[0] == '+' then limit[1..] else limit;
    assert rest == if sign == "+" then digits else limit;
    assert digits[0] != '-' && digits[0] != '+';
    FromCharsWhole(rest);
    if sign == "-" {
      assert rest[1..] == digits;
    } else {
      assert rest == digits && rest[0..] == digits;
    }
  }

  // ----- The scan -----

  datatype State = State(seen: set<string>, literal: bool, hasPositional: bool, positional: string,
                         values: map<string, string>, flags: set<string>)

  const START := State({}, false, false, "", map[], {})

  function FindEq(arg: string, at: nat): (i: nat)
    requires at <= |arg|
    ensures at <= i <= |arg| && (i < |arg| ==> arg[i] == '=') && '=' !in arg[at..i]
    decreases |arg| - at
  {
    if at == |arg| || arg[at] == '=' then at else FindEq(arg, at + 1)
  }

  /** Words are joined by single spaces; leading empty words leave no trace. */
  function Append(positional: string, arg: string): string {
    if positional == "" then arg else positional + " " + arg
  }

  function AddWord(st: State, arg: string): State {
    st.(hasPositional := true, positional := Append(st.positional, arg))
  }

  function AddFlag(st: State, key: string): State {
    st.(seen := st.seen + {key}, flags := st.flags + {key})
  }

  function AddValue(st: State, key: string, value: string): State {
    st.(seen := st.seen + {key}, values := st.values[key := value])
  }

  function Scan(args: seq<string>, i: nat, st: State): Result<State>
    requires i <= |args|
    decreases |args| - i
  {
    if i == |args| then Ok(st)
    else if !st.literal && args[i] == "--" then Scan(args, i + 1, st.(literal := true))
    else if st.literal || !IsOption(args[i]) then Scan(args, i + 1, AddWord(st, args[i]))
    else
      var eq := FindEq(args[i], 0);
      var key := args[i][..eq];
      :- Need(key in VALUE_KEYS || key in FLAG_KEYS, "invalid_search_argument");
      :- Need(key !in st.seen, "duplicate_search_argument");
      if key in FLAG_KEYS then
        :- Need(eq == |args[i]|, "invalid_search_argument");
        Scan(args, i + 1, AddFlag(st, key))
      else if eq < |args[i]| then Scan(args, i + 1, AddValue(st, key, args[i][eq + 1..]))
      else
        :- Need(i + 1 < |args| && (key == QUERY || !IsOption(args[i + 1])), "missing_search_value");
        Scan(args, i + 2, AddValue(st, key, args[i + 1]))
  }

  function ValueIn(values: map<string, string>, key: string): string {
    if key in values then values[key] else ""
  }

  /** The checks after the scan. */
  function Finish(st: State): Result<SearchArguments> {
    var explicit := QUERY in st.values;
    :- Need(!(explicit && st.hasPositional), "mixed_search_query");
    var query := if explicit then st.values[QUERY] else Trim(st.positional);
    :- Need(Trim(query) != "", "search_query_required");
    :- Need(LimitOk(ValueIn(st.values, LIMIT)), "invalid_search_limit");
    :- Need(ValueIn(st.values, MODE) in MODES, "invalid_search_mode");
    Ok(SearchArguments(query, st.values, st.flags))
  }

  function Parse(args: seq<string>): Result<SearchArguments> {
    var st :- Scan(args, 0, START);
    Finish(st)
  }

  /** The parser: one pass over the arguments, then the checks on the whole. */
  method ParseArguments(args: seq<string>) returns (r: Result<SearchArguments>)
    ensures r == Parse(args)
  {
    hide Trim, LimitOk, Append;
    var seen: set<string>, literal, hasPositional, positional := {}, false, false, "";
    var values: map<string, string>, flags: set<string> := map[], {};
    var i := 0;
    while i < |args|
      invariant i <= |args|
      invariant Scan(args, i, State(seen, literal, hasPositional, positional, values, flags)) == Scan(args, 0, START)
    {
      var arg := args[i];
      i := i + 1;
      if !literal && arg == "--" {
        literal := true;
        continue;
      }
      if literal || !IsOption(arg) {
        hasPositional := true;
        positional := Append(positional, arg);
        continue;
      }
      var eq := FindEq(arg, 0);
      var key := arg[..eq];
      :- Need(key in VALUE_KEYS || key in FLAG_KEYS, "invalid_search_argument");
      :- Need(key !in seen, "duplicate_search_argument");
      seen := seen + {key};
      if key in FLAG_KEYS {
        :- Need(eq == |arg|, "invalid_search_argument");
        flags := flags + {key};
        continue;
      }
      if eq < |arg| {
        values := values[key := arg[eq + 1..]];
      } else {
        :- Need(i < |args| && (key == QUERY || !IsOption(args[i])), "missing_search_value");
        values := values[key := args[i]];
        i := i + 1;
      }
    }
    var query;
    if QUERY in values {
      :- Need(!hasPositional, "mixed_search_query");
      query := values[QUERY];
    } else {
      query := TrimText(positional);
    }
    var rest := TrimText(query);
    :- Need(rest != "", "search_query_required");
    :- Need(LimitOk(ValueIn(values, LIMIT)), "invalid_search_limit");
    :- Need(ValueIn(values, MODE) in MODES, "invalid_search_mode");
    r := Ok(SearchArguments(query, values, flags));
  }

  // ----- The grammar -----

  /** A self-delimiting group of arguments. */
  datatype Item = Joined(key: string, value: string) | Split(key: string, value: string)
                | Flag(key: string) | Word(text: string)

  predicate IsValue(x: Item) { x.Joined? || x.Split? }

  predicate Formed(x: Item) {
    match x
    case Joined(key, _) => key in {"--brain", "--limit", "--mode", "--query"}
    case Split(key, value) =>
      key in {"--brain", "--limit", "--mode", "--query"} && (key == "--query" || !("--" <= value))
    case Flag(key) => key in {"--json", "--no-vector", "--rerank", "--rerank-llm"}
    case Word(text) => !("--" <= text)
  }

  function Spell(x: Item): seq<string> {
    match x
    case Joined(key, value) => [key + "=" + value]
    case Split(key, value) => [key, value]
    case Flag(key) => [key]
    case Word(text) => [text]
  }

  function Spelled(items: seq<Item>): seq<string> {
    if items == [] then [] else Spell(items[0]) + Spelled(items[1..])
  }

  /** The arguments after a bare `--`, if there is one. */
  type Tail = Option<seq<string>>

  function Argv(items: seq<Item>, tail: Tail): seq<string> {
    Spelled(items) + if tail.Some? then ["--"] + tail.value else []
  }

  predicate Clash(x: Item, y: Item) { !x.Word? && !y.Word? && x.key == y.key }

  /** Well-formed groups, no option given twice. */
  ghost predicate Legal(items: seq<Item>) {
    && (forall j :: 0 <= j < |items| ==> Formed(items[j]))
    && (forall j, k :: 0 <= j < k < |items| ==> !Clash(items[j], items[k]))
  }

  function Words(items: seq<Item>): seq<string> {
    if items == [] then []
    else (if items[0].Word? then [items[0].text] else []) + Words(items[1..])
  }

  function AllWords(items: seq<Item>, tail: Tail): seq<string> {
    Words(items) + if tail.Some? then tail.value else []
  }

  function Join(positional: string, words: seq<string>): string
    decreases |words|
  {
    if words == [] then positional else Join(Append(positional, words[0]), words[1..])
  }

  /** Each word with a space before it. */
  function Preceded(words: seq<string>): string {
    if words == [] then "" else " " + words[0] + Preceded(words[1..])
  }

  /** The words with single spaces between them; leading empty words are dropped. */
  function Spaced(words: seq<string>): string {
    if words == [] then "" else if words[0] == "" then Spaced(words[1..]) else words[0] + Preceded(words[1..])
  }

  lemma {:induction false} JoinGrows(positional: string, words: seq<string>)
    requires positional != ""
    ensures Join(positional, words) == positional + Preceded(words)
    decreases |words|
  {
    if words != [] {
      JoinGrows(positional + " " + words[0], words[1..]);
      assert positional + (" " + words[0] + Preceded(words[1..])) == positional + " " + words[0] + Preceded(words[1..]);
    }
  }

  lemma {:induction false} JoinIs(words: seq<string>)
    ensures Join("", words) == Spaced(words)
    decreases |words|
  {
    if words != [] {
      if words[0] == "" {
        JoinIs(words[1..]);
      } else {
        JoinGrows(words[0], words[1..]);
      }
    }
  }

  /** The options of `items`, whatever their order. */
  ghost predicate Options(items: seq<Item>, values: map<string, string>, flags: set<string>) {
    && (forall j :: 0 <= j < |items| && IsValue(items[j]) ==>
        items[j].key in values && values[items[j].key] == items[j].value)
    && (forall k :: k in values ==> exists j :: 0 <= j < |items| && IsValue(items[j]) && items[j].key == k)
    && (forall k :: k in flags <==> exists j :: 0 <= j < |items| && items[j] == Flag(k))
  }

  /** What a command line means: its options as given, and as query either the text of
      `--query` or its words joined and trimmed, never both and never blank. */
  ghost predicate Means(items: seq<Item>, tail: Tail, out: SearchArguments) {
    var words := AllWords(items, tail);
    && Options(items, out.values, out.flags)
    && (if "--query" in out.values then words == [] && out.query == out.values["--query"]
        else out.query == Trim(Spaced(words)))
    && !Blank(out.query)
    && ("--limit" in out.values ==>
          out.values["--limit"] == "" || exists sign, digits :: IntText(out.values["--limit"], sign, digits))
    && ("--mode" in out.values ==> out.values["--mode"] in {"", "balanced", "conservative", "tokenmax"})
  }

  function Apply(st: State, x: Item): State {
    match x
    case Joined(key, value) => AddValue(st, key, value)
    case Split(key, value) => AddValue(st, key, value)
    case Flag(key) => AddFlag(st, key)
    case Word(text) => AddWord(st, text)
  }

  function ApplyAll(st: State, items: seq<Item>): State
    decreases |items|
  {
    if items == [] then st else ApplyAll(Apply(st, items[0]), items[1..])
  }

  predicate Unseen(st: State, x: Item) { x.Word? || x.key !in st.seen }

  lemma KeysHaveNoEq(key: string)
    requires key in VALUE_KEYS || key in FLAG_KEYS
    ensures '=' !in key && IsOption(key) && key != "--"
  {
  }

  lemma EqAt(key: string, rest: string, at: nat)
    requires '=' !in key && at <= |key|
    ensures FindEq(key, at) == |key| && FindEq(key + "=" + rest, at) == |key|
    decreases |key| - at
  {
    var arg := key + "=" + rest;
    if at < |key| {
      assert key[at] in key;
      EqAt(key, rest, at + 1);
    } else {
      assert arg[at] == '=';
    }
  }

  lemma DisjointKeys(key: string)
    ensures !(key in VALUE_KEYS && key in FLAG_KEYS)
  {
  }

  /** One group is read as what it spells. */
  lemma ScanItem(args: seq<string>, i: nat, st: State, x: Item)
    requires i + |Spell(x)| <= |args| && args[i..i + |Spell(x)|] == Spell(x)
    requires Formed(x) && !st.literal && Unseen(st, x)
    ensures Scan(args, i, st) == Scan(args, i + |Spell(x)|, Apply(st, x))
  {
    hide Append;
    assert args[i] == args[i..i + |Spell(x)|][0];
    if !x.Word? {
      KeysHaveNoEq(x.key);
      DisjointKeys(x.key);
      EqAt(x.key, if x.Joined? then x.value else "", 0);
      assert x.key[..|x.key|] == x.key;
      if x.Split? {
        assert args[i + 1] == args[i..i + 2][1];
      }
      if x.Joined? {
        var arg := x.key + "=" + x.value;
        assert arg[..|x.key|] == x.key && arg[|x.key| + 1..] == x.value;
        assert IsOption(arg) && arg != "--";
      }
    }
  }

  lemma {:induction false} ScanWords(args: seq<string>, i: nat, st: State)
    requires i <= |args| && st.literal
    ensures Scan(args, i, st) ==
              Ok(st.(hasPositional := st.hasPositional || i < |args|, positional := Join(st.positional, args[i..])))
    decreases |args| - i
  {
    hide Append;
    if i < |args| {
      assert args[i..][1..] == args[i + 1..];
      ScanWords(args, i + 1, AddWord(st, args[i]));
    }
  }

  function WithTail(st: State, tail: Tail): State {
    if tail.None? then st
    else st.(literal := true, hasPositional := st.hasPositional || tail.value != [],
                 positional := Join(st.positional, tail.value))
  }

  /** A spelled command line is read back group by group; the tail adds words only. */
  lemma {:induction false} ScanArgv(args: seq<string>, i: nat, st: State, items: seq<Item>, tail: Tail)
    requires i <= |args| && args[i..] == Argv(items, tail) && !st.literal
    requires Legal(items) && forall j :: 0 <= j < |items| ==> Unseen(st, items[j])
    ensures Scan(args, i, st) == Ok(WithTail(ApplyAll(st, items), tail))
    decreases |items|
  {
    hide Join, Append, Scan, Formed, Legal, Unseen, WithTail;
    if items == [] {
      ScanTail(args, i, st, tail);
    } else {
      var x, rest, n := items[0], items[1..], |Spell(items[0])|;
      assert Argv(items, tail) == Spell(x) + Argv(rest, tail);
      SplitsAt(args, i, Spell(x), Argv(rest, tail));
      RestUnseen(st, items);
      ScanItem(args, i, st, x);
      ScanArgv(args, i + n, Apply(st, x), rest, tail);
    }
  }

  lemma SplitsAt(args: seq<string>, i: nat, a: seq<string>, b: seq<string>)
    requires i <= |args| && args[i..] == a + b
    ensures i + |a| <= |args| && args[i..i + |a|] == a && args[i + |a|..] == b
  {
    assert args[i..][..|a|] == a && args[i..][|a|..] == b;
    assert args[i..i + |a|] == args[i..][..|a|] && args[i + |a|..] == args[i..][|a|..];
  }

  lemma RestUnseen(st: State, items: seq<Item>)
    requires items != [] && Legal(items) && forall j :: 0 <= j < |items| ==> Unseen(st, items[j])
    ensures Formed(items[0]) && Legal(items[1..]) && Apply(st, items[0]).literal == st.literal
    ensures forall j :: 0 <= j < |items[1..]| ==> Unseen(Apply(st, items[0]), items[1..][j])
  {
    hide Append, Formed;
    var rest := items[1..];
    forall j | 0 <= j < |rest| ensures Unseen(Apply(st, items[0]), rest[j]) {
      assert rest[j] == items[j + 1] && !Clash(items[0], items[j + 1]);
    }
  }

  lemma ScanTail(args: seq<string>, i: nat, st: State, tail: Tail)
    requires i <= |args| && args[i..] == Argv([], tail) && !st.literal
    ensures Scan(args, i, st) == Ok(WithTail(st, tail))
  {
    hide Join, Append;
    if tail.Some? {
      assert args[i] == args[i..][0];
      assert args[i + 1..] == args[i..][1..] == tail.value;
      ScanWords(args, i + 1, st.(literal := true));
    } else {
      assert i == |args|;
    }
  }

  // ----- Every accepted command line is a spelling, and every spelling is accepted -----

  predicate Tracked(st: State) { st.values.Keys <= st.seen && st.flags <= st.seen }

  /** `end` is `st` with the options and words of `items`. */
  ghost predicate Extends(st: State, items: seq<Item>, end: State) {
    && (forall j :: 0 <= j < |items| && IsValue(items[j]) ==>
        items[j].key in end.values && end.values[items[j].key] == items[j].value)
    && (forall k :: k in st.values ==> k in end.values && end.values[k] == st.values[k])
    && (forall k :: k in end.values ==>
        k in st.values || exists j :: 0 <= j < |items| && IsValue(items[j]) && items[j].key == k)
    && (forall k :: k in end.flags <==> k in st.flags || exists j :: 0 <= j < |items| && items[j] == Flag(k))
    && end.positional == Join(st.positional, Words(items))
    && (end.hasPositional <==> st.hasPositional || Words(items) != [])
    && end.literal == st.literal
  }

  lemma {:induction false} ApplyAllExtends(st: State, items: seq<Item>)
    requires Legal(items) && Tracked(st) && forall j :: 0 <= j < |items| ==> Unseen(st, items[j])
    ensures Extends(st, items, ApplyAll(st, items))
    decreases |items|
  {
    hide Formed, Append, Join, Extends;
    if items == [] {
      NothingExtends(st);
    } else {
      var x, rest := items[0], items[1..];
      var next := Apply(st, x);
      RestUnseen(st, items);
      ApplyAllExtends(next, rest);
      ExtendOne(st, items, ApplyAll(next, rest));
    }
  }

  lemma NothingExtends(st: State)
    ensures Extends(st, [], st)
  {
  }

  lemma ExtendOne(st: State, items: seq<Item>, end: State)
    requires items != [] && Tracked(st) && Unseen(st, items[0]) && Extends(Apply(st, items[0]), items[1..], end)
    ensures Extends(st, items, end)
  {
    hide Append;
    var x, rest := items[0], items[1..];
    var next := Apply(st, x);
    ExtendWords(st, items);
    if IsValue(x) {
      assert x.key in next.values;
    }
    forall k | k in st.values ensures k in end.values && end.values[k] == st.values[k] {
      assert k in next.values;
    }
    forall k ensures k in end.flags <==> k in st.flags || exists j :: 0 <= j < |items| && items[j] == Flag(k) {
      if j :| 0 <= j < |rest| && rest[j] == Flag(k) {
        assert items[j + 1] == Flag(k);
      }
      if j :| 0 <= j < |items| && items[j] == Flag(k) {
        assert j > 0 ==> rest[j - 1] == Flag(k);
      }
    }
    forall k | k in end.values && k !in st.values
      ensures exists j :: 0 <= j < |items| && IsValue(items[j]) && items[j].key == k {
      if k in next.values {
        assert IsValue(items[0]) && items[0].key == k;
      } else {
        var j :| 0 <= j < |rest| && IsValue(rest[j]) && rest[j].key == k;
        assert items[j + 1] == rest[j];
      }
    }
    forall j | 0 <= j < |items| && IsValue(items[j])
      ensures items[j].key in end.values && end.values[items[j].key] == items[j].value
    {
      if j > 0 {
        assert items[j] == rest[j - 1];
      }
    }
  }

  lemma ExtendWords(st: State, items: seq<Item>)
    requires items != []
    ensures var next := Apply(st, items[0]);
            && Join(next.positional, Words(items[1..])) == Join(st.positional, Words(items))
            && (next.hasPositional || Words(items[1..]) != [] <==> st.hasPositional || Words(items) != [])
  {
    hide Append, Join;
    var x, ws := items[0], Words(items[1..]);
    assert Words(items) == if x.Word? then [x.text] + ws else ws by {
      assert [] + ws == ws;
    }
    if x.Word? {
      JoinCons(st.positional, x.text, ws);
    }
    hide Words;
  }

  lemma JoinCons(positional: string, word: string, rest: seq<string>)
    ensures Join(positional, [word] + rest) == Join(Append(positional, word), rest)
  {
    assert ([word] + rest)[1..] == rest;
    hide Append;
  }

  lemma {:induction false} JoinTwice(positional: string, a: seq<string>, b: seq<string>)
    ensures Join(Join(positional, a), b) == Join(positional, a + b)
    decreases |a|
  {
    hide Append;
    if a == [] {
      assert a + b == b;
    } else {
      assert (a + b)[1..] == a[1..] + b;
      JoinTwice(Append(positional, a[0]), a[1..], b);
    }
  }

  /** The state reached by a legal command line, as far as later checks can tell. */
  ghost predicate Reached(items: seq<Item>, tail: Tail, st: State) {
    && Options(items, st.values, st.flags)
    && st.positional == Join("", AllWords(items, tail))
    && (st.hasPositional <==> AllWords(items, tail) != [])
  }

  lemma ArgvReaches(items: seq<Item>, tail: Tail)
    requires Legal(items)
    ensures Scan(Argv(items, tail), 0, START).Ok? && Reached(items, tail, Scan(Argv(items, tail), 0, START).value)
  {
    hide Scan, Join, Append, Legal;
    var args := Argv(items, tail);
    assert args[0..] == args;
    ScanArgv(args, 0, START, items, tail);
    ApplyAllExtends(START, items);
    if tail.Some? {
      JoinTwice("", Words(items), tail.value);
    } else {
      assert Words(items) + [] == Words(items);
    }
  }

  lemma OptionsUnique(items: seq<Item>, v: map<string, string>, f: set<string>, v': map<string, string>,
                      f': set<string>)
    requires Options(items, v, f) && Options(items, v', f')
    ensures v == v' && f == f'
  {
    forall k | k in v ensures k in v' && v'[k] == v[k] {
    }
    forall k | k in v' ensures k in v {
    }
    assert v == v';
    assert f == f';
  }

  lemma TrimsToNothing(s: string)
    ensures Trim(s) == "" <==> Blank(s)
  {
    TrimIs(s);
    hide Trim, Blank;
  }

  lemma FinishMeans(items: seq<Item>, tail: Tail, st: State)
    requires Reached(items, tail, st)
    ensures Finish(st).Ok? ==> Means(items, tail, Finish(st).value)
  {
    hide Options, Trim, LimitOk, Join, Spaced, Blank, IntText, AllWords;
    JoinIs(AllWords(items, tail));
    LimitIff(ValueIn(st.values, LIMIT));
    TrimsToNothing(if QUERY in st.values then st.values[QUERY] else Trim(st.positional));
  }

  lemma MeansFinish(items: seq<Item>, tail: Tail, st: State, out: SearchArguments)
    requires Reached(items, tail, st) && Means(items, tail, out)
    ensures Finish(st) == Ok(out)
  {
    hide Options, Trim, LimitOk, Join, Spaced, Blank, IntText, AllWords;
    OptionsUnique(items, st.values, st.flags, out.values, out.flags);
    JoinIs(AllWords(items, tail));
    LimitIff(ValueIn(st.values, LIMIT));
    TrimsToNothing(out.query);
  }

  /** Round trip: any order of well-formed groups, with no option twice, parses to
      exactly what it means. */
  lemma SpellingsParse(items: seq<Item>, tail: Tail, out: SearchArguments)
    requires Legal(items) && Means(items, tail, out)
    ensures Parse(Argv(items, tail)) == Ok(out)
  {
    hide Legal, Means, Scan, Finish, Reached;
    ArgvReaches(items, tail);
    MeansFinish(items, tail, Scan(Argv(items, tail), 0, START).value, out);
  }

  lemma EqSplits(arg: string)
    ensures var eq := FindEq(arg, 0);
            if eq < |arg| then arg == arg[..eq] + "=" + arg[eq + 1..] else arg == arg[..eq]
  {
    if FindEq(arg, 0) < |arg| {
      SplitAround(arg, FindEq(arg, 0), '=');
    }
  }

  lemma SplitAround(s: string, i: nat, c: char)
    requires i < |s| && s[i] == c
    ensures s == s[..i] + [c] + s[i + 1..]
  {
  }

  /** The group at the front of the arguments still to be scanned. */
  lemma NextItem(args: seq<string>, i: nat, st: State) returns (x: Item)
    requires i < |args| && !st.literal && args[i] != "--" && Scan(args, i, st).Ok?
    ensures Formed(x) && Unseen(st, x) && i + |Spell(x)| <= |args| && args[i..i + |Spell(x)|] == Spell(x)
    ensures Scan(args, i + |Spell(x)|, Apply(st, x)) == Scan(args, i, st)
  {
    hide Append;
    var arg := args[i];
    var eq := FindEq(arg, 0);
    var key := arg[..eq];
    EqSplits(arg);
    if !IsOption(arg) {
      x := Word(arg);
    } else if key in FLAG_KEYS {
      x := Flag(key);
    } else if eq < |arg| {
      x := Joined(key, arg[eq + 1..]);
    } else {
      x := Split(key, args[i + 1]);
    }
    assert Spell(x) == if x.Split? then [arg, args[i + 1]] else [arg];
    assert args[i..i + |Spell(x)|] == Spell(x);
  }

  lemma ConsLegal(st: State, x: Item, rest: seq<Item>)
    requires Formed(x) && Unseen(st, x) && Legal(rest) && forall j :: 0 <= j < |rest| ==> Unseen(Apply(st, x), rest[j])
    ensures Legal([x] + rest) && forall j :: 0 <= j < |[x] + rest| ==> Unseen(st, ([x] + rest)[j])
  {
    hide Formed, Append;
  }

  lemma {:induction false} ScanSpells(args: seq<string>, i: nat, st: State) returns (items: seq<Item>, tail: Tail)
    requires i <= |args| && !st.literal && Scan(args, i, st).Ok?
    ensures args[i..] == Argv(items, tail) && Legal(items) && forall j :: 0 <= j < |items| ==> Unseen(st, items[j])
    decreases |args| - i
  {
    hide Scan, Formed, Append, Legal;
    if i == |args| || args[i] == "--" {
      items, tail := [], if i == |args| then None else Some(args[i + 1..]);
      assert i < |args| ==> args[i..] == ["--"] + args[i + 1..];
      EmptyLegal();
    } else {
      var x := NextItem(args, i, st);
      var rest: seq<Item>;
      StaysPlain(st, x);
      rest, tail := ScanSpells(args, i + |Spell(x)|, Apply(st, x));
      ConsLegal(st, x, rest);
      items := [x] + rest;
      assert items[1..] == rest;
      assert args[i..] == args[i..i + |Spell(x)|] + args[i + |Spell(x)|..];
    }
  }

  lemma EmptyLegal()
    ensures Legal([])
  {
  }

  lemma StaysPlain(st: State, x: Item)
    ensures Apply(st, x).literal == st.literal && |Spell(x)| >= 1
  {
  }

  /** Every accepted command line is such a spelling, and parses to its meaning. */
  lemma AcceptedIsSpelling(args: seq<string>) returns (items: seq<Item>, tail: Tail)
    requires Parse(args).Ok?
    ensures args == Argv(items, tail) && Legal(items) && Means(items, tail, Parse(args).value)
  {
    hide Scan, Finish, Legal, Reached, Means;
    items, tail := ScanSpells(args, 0, START);
    assert args[0..] == args;
    ArgvReaches(items, tail);
    FinishMeans(items, tail, Scan(args, 0, START).value);
  }

  // ----- Order and tails -----

  lemma SameFinish(a: State, b: State)
    requires a.values == b.values && a.flags == b.flags && a.positional == b.positional &&
             a.hasPositional == b.hasPositional
    ensures Finish(a) == Finish(b)
  {
    hide Trim, LimitOk;
  }

  lemma PermutedOptions(items: seq<Item>, other: seq<Item>, v: map<string, string>, f: set<string>)
    requires multiset(items) == multiset(other) && Options(items, v, f)
    ensures Options(other, v, f)
  {
    SameMembers(items, other);
    forall j | 0 <= j < |other| && IsValue(other[j]) ensures other[j].key in v && v[other[j].key] == other[j].value {
      assert other[j] in items;
      var i :| 0 <= i < |items| && items[i] == other[j];
    }
    forall k | k in v ensures exists j :: 0 <= j < |other| && IsValue(other[j]) && other[j].key == k {
      var i :| 0 <= i < |items| && IsValue(items[i]) && items[i].key == k;
      assert items[i] in other;
      var j :| 0 <= j < |other| && other[j] == items[i];
    }
    forall k ensures k in f <==> exists j :: 0 <= j < |other| && other[j] == Flag(k) {
      assert k in f <==> Flag(k) in items;
      assert Flag(k) in items <==> Flag(k) in other;
    }
  }

  lemma SameMembers(a: seq<Item>, b: seq<Item>)
    requires multiset(a) == multiset(b)
    ensures forall x :: x in a <==> x in b
  {
    forall x ensures x in a <==> x in b {
      assert x in a <==> x in multiset(a);
      assert x in b <==> x in multiset(b);
    }
  }

  /** Option groups may stand in any order among the words: the result, or the error,
      is the same. */
  lemma OrderIsFree(items: seq<Item>, other: seq<Item>, tail: Tail)
    requires Legal(items) && Legal(other) && multiset(items) == multiset(other) && Words(items) == Words(other)
    ensures Parse(Argv(items, tail)) == Parse(Argv(other, tail))
  {
    hide Scan, Finish, Legal, Join, Options;
    ArgvReaches(items, tail);
    ArgvReaches(other, tail);
    var a, b := Scan(Argv(items, tail), 0, START).value, Scan(Argv(other, tail), 0, START).value;
    PermutedOptions(items, other, a.values, a.flags);
    OptionsUnique(other, a.values, a.flags, b.values, b.flags);
    SameFinish(a, b);
  }

  /** Whatever follows a bare `--` is data: it never changes a value or a flag. */
  lemma TailIsData(items: seq<Item>, tail: Tail, other: Tail)
    requires Legal(items) && Parse(Argv(items, tail)).Ok? && Parse(Argv(items, other)).Ok?
    ensures var out, out' := Parse(Argv(items, tail)).value, Parse(Argv(items, other)).value;
            out.values == out'.values && out.flags == out'.flags
  {
    hide Scan, Finish, Legal, Join, Options;
    ArgvReaches(items, tail);
    ArgvReaches(items, other);
    var a, b := Scan(Argv(items, tail), 0, START).value, Scan(Argv(items, other), 0, START).value;
    OptionsUnique(items, a.values, a.flags, b.values, b.flags);
    FinishKeeps(a);
    FinishKeeps(b);
  }

  lemma FinishKeeps(st: State)
    ensures Finish(st).Ok? ==> Finish(st).value.values == st.values && Finish(st).value.flags == st.flags
  {
    hide Trim, LimitOk;
  }
}
