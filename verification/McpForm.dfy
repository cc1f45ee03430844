/**
 * The MCP server form of the terminal interface (apps/cli/src/tui-otui/views.tsx): printing a
 * configuration into text fields and reading it back.
 */
module McpForm {
  import opened Basics

  // ---- JavaScript's string operations ----

  /** `indexOf`, with the length for -1 */
  function Find(s: string, c: char): (i: nat)
    ensures i <= |s| && (i < |s| ==> s[i] == c)
    ensures forall j :: 0 <= j < i ==> s[j] != c
  {
    if s == "" then 0 else if s[0] == c then 0 else 1 + Find(s[1..], c)
  }

  function SplitOn(s: string, sep: char): (parts: seq<string>)
    ensures parts != [] && forall p <- parts :: sep !in p
    decreases |s|
  {
    var i := Find(s, sep);
    if i == |s| then [s] else [s[..i]] + SplitOn(s[i + 1..], sep)
  }

  function Join(parts: seq<string>, sep: char): string {
    if parts == [] then "" else if |parts| == 1 then parts[0] else parts[0] + [sep] + Join(parts[1..], sep)
  }

  lemma FindFirst(a: string, c: char, b: string)
    requires c !in a
    ensures Find(a + [c] + b, c) == |a|
  {
    var s := a + [c] + b;
    var i := Find(s, c);
    assert s[|a|] == c;
    assert forall j :: 0 <= j < |a| ==> s[j] == a[j];
  }

  lemma {:induction false} SplitUndoesJoin(parts: seq<string>, sep: char)
    requires parts != [] && forall p <- parts :: sep !in p
    ensures SplitOn(Join(parts, sep), sep) == parts
  {
    var s := Join(parts, sep);
    assert parts[0] in parts;
    if |parts| == 1 {
      var i := Find(s, sep);
    } else {
      var rest := Join(parts[1..], sep);
      FindFirst(parts[0], sep, rest);
      assert s[|parts[0]| + 1..] == rest && s[..|parts[0]|] == parts[0];
      SplitUndoesJoin(parts[1..], sep);
    }
  }

  // ---- pairs ----

  datatype Value = Plain(text: string) | Ref(keyRef: string)

  type Pairs = JsMap<Value>

  const NoPairs: Pairs := RawMap([], map[])

  /** `^\$\{(.+)\}$` */
  predicate LooksLikeRef(v: string) {
    && |v| >= 4 && v[0] == '$' && v[1] == '{' && v[|v| - 1] == '}'
    && forall c <- v[2..|v| - 1] :: !LineEnd(c)
  }

  function ReadValue(v: string): Value {
    if LooksLikeRef(v) then Ref(v[2..|v| - 1]) else Plain(v)
  }

  /** What stands between `${` and `}` is a reference if it is on one line and not empty; any other text is plain. */
  lemma ReferencesAre(v: string, inner: string)
    ensures inner != "" && '\n' !in inner && '\r' !in inner && '\U{2028}' !in inner && '\U{2029}' !in inner
      ==> ReadValue("$" + "{" + inner + "}") == Ref(inner)
    ensures ReadValue(v).Ref? ==> v == "$" + "{" + ReadValue(v).keyRef + "}"
    ensures ReadValue(v).Plain? ==> ReadValue(v).text == v
  {
    assert ("$" + "{" + inner + "}")[2..|inner| + 2] == inner;
  }

  function ShowValue(v: Value): string {
    match v
    case Plain(text) => text
    case Ref(keyRef) => "${" + keyRef + "}"
  }

  function ReadPart(out: Pairs, part: string): Pairs {
    var eq := Find(part, '=');
    if eq == |part| then out
    else
      var k, v := Trim(part[..eq]), Trim(part[eq + 1..]);
      if k == "" then out else Put(out, k, ReadValue(v))
  }

  function ReadParts(parts: seq<string>): Pairs {
    if parts == [] then NoPairs else ReadPart(ReadParts(parts[..|parts| - 1]), parts[|parts| - 1])
  }

  function Parse(text: string): Pairs {
    ReadParts(SplitOn(text, ','))
  }

  function ShowPair(k: string, v: Value): string {
    k + ['='] + ShowValue(v)
  }

  function Shown(r: Pairs, n: nat): seq<string>
    requires n <= |r.keys|
  {
    if n == 0 then [] else Shown(r, n - 1) + [ShowPair(r.keys[n - 1], r.vals[r.keys[n - 1]])]
  }

  function Stringify(r: Pairs): string {
    Join(Shown(r, |r.keys|), ',')
  }

  /** The loop as it is written. */
  method ParsePairs(text: string) returns (out: Pairs)
    ensures out == Parse(text)
  {
    hide Trim, Find, SplitOn, Put;
    out := NoPairs;
    var parts := SplitOn(text, ',');
    for i := 0 to |parts|
      invariant out == ReadParts(parts[..i])
    {
      assert parts[..i + 1][..i] == parts[..i];
      var part := parts[i];
      var eq := Find(part, '=');
      if eq == |part| { continue; }
      var k := Trim(part[..eq]);
      var v := Trim(part[eq + 1..]);
      if k == "" { continue; }
      out := Put(out, k, if LooksLikeRef(v) then Ref(v[2..|v| - 1]) else Plain(v));
    }
    assert parts[..|parts|] == parts;
  }

  predicate CleanKey(k: string) {
    k != "" && Trimmed(k) && ',' !in k && '=' !in k
  }

  predicate CleanValue(v: Value) {
    match v
    case Plain(text) => Trimmed(text) && ',' !in text && !LooksLikeRef(text)
    case Ref(keyRef) => keyRef != "" && ',' !in keyRef && forall c <- keyRef :: !LineEnd(c)
  }

  /** No key or value holds a separator or an outer space, and no plain value reads as a reference. */
  predicate Clean(r: Pairs) {
    forall k <- r.keys :: CleanKey(k) && CleanValue(r.vals[k])
  }

  // ---- what is read back ----

  lemma ValueReadsBack(v: Value)
    requires CleanValue(v)
    ensures var shown := ShowValue(v); Trimmed(shown) && ',' !in shown && ReadValue(shown) == v
  {
    if v.Ref? {
      var shown := ShowValue(v);
      assert shown[2..|shown| - 1] == v.keyRef;
      assert shown[0] == '$' && shown[1] == '{' && shown[|shown| - 1] == '}';
    }
  }

  lemma PairReadsBack(out: Pairs, k: string, v: Value)
    requires CleanKey(k) && CleanValue(v)
    ensures ReadPart(out, ShowPair(k, v)) == Put(out, k, v)
    ensures ',' !in ShowPair(k, v)
  {
    var part, shown := ShowPair(k, v), ShowValue(v);
    ValueReadsBack(v);
    hide Trim, Find, Trimmed, ShowValue, ReadValue, CleanValue;
    FindFirst(k, '=', shown);
    assert part[..|k|] == k && part[|k| + 1..] == shown;
  }

  /** The first `n` entries of a record. */
  function Head(r: Pairs, n: nat): (h: Pairs)
    requires n <= |r.keys|
  {
    RawMap(r.keys[..n], map k | k in r.keys[..n] :: r.vals[k])
  }

  lemma HeadEmpty(r: Pairs)
    ensures Head(r, 0) == NoPairs
  {
    assert Head(r, 0).vals == map[];
  }

  lemma HeadGrows(r: Pairs, n: nat)
    requires 0 < n <= |r.keys|
    ensures Put(Head(r, n - 1), r.keys[n - 1], r.vals[r.keys[n - 1]]) == Head(r, n)
  {
    var k := r.keys[n - 1];
    assert r.keys[..n] == r.keys[..n - 1] + [k];
    assert forall j :: 0 <= j < n - 1 ==> r.keys[..n - 1][j] == r.keys[j];
    assert Put(Head(r, n - 1), k, r.vals[k]).vals == Head(r, n).vals;
  }

  lemma ReadPartsAppend(parts: seq<string>, p: string)
    ensures ReadParts(parts + [p]) == ReadPart(ReadParts(parts), p)
  {
    assert (parts + [p])[..|parts|] == parts;
  }

  lemma {:induction false} ShownHasNoCommas(r: Pairs, n: nat)
    requires Clean(r) && n <= |r.keys|
    ensures |Shown(r, n)| == n && forall p <- Shown(r, n) :: ',' !in p
  {
    hide ReadPart, ShowPair, CleanKey, CleanValue;
    if n > 0 {
      ShownHasNoCommas(r, n - 1);
      assert r.keys[n - 1] in r.keys;
      PairReadsBack(NoPairs, r.keys[n - 1], r.vals[r.keys[n - 1]]);
    }
  }

  lemma ShownOneMore(r: Pairs, n: nat)
    requires Clean(r) && 0 < n <= |r.keys| && ReadParts(Shown(r, n - 1)) == Head(r, n - 1)
    ensures ReadParts(Shown(r, n)) == Head(r, n)
  {
    var k := r.keys[n - 1];
    var v := r.vals[k];
    assert CleanKey(k) && CleanValue(v) by { assert k in r.keys; }
    HeadGrows(r, n);
    hide *;
    PairReadsBack(Head(r, n - 1), k, v);
    ReadPartsAppend(Shown(r, n - 1), ShowPair(k, v));
    assert Shown(r, n) == Shown(r, n - 1) + [ShowPair(k, v)] by { ShownUnfolds(r, n); }
  }

  lemma ShownUnfolds(r: Pairs, n: nat)
    requires 0 < n <= |r.keys|
    ensures Shown(r, n) == Shown(r, n - 1) + [ShowPair(r.keys[n - 1], r.vals[r.keys[n - 1]])]
  {}

  lemma {:induction false} ShownReadsBack(r: Pairs, n: nat)
    requires Clean(r) && n <= |r.keys|
    ensures ReadParts(Shown(r, n)) == Head(r, n)
  {
    if n == 0 {
      HeadEmpty(r);
    } else {
      ShownReadsBack(r, n - 1);
      ShownOneMore(r, n);
    }
  }

  lemma CleanReadsBack(r: Pairs)
    requires Clean(r)
    ensures Parse(Stringify(r)) == r
  {
    var n := |r.keys|;
    assert r.keys[..n] == r.keys && Head(r, n).vals == r.vals;
    ShownReadsBack(r, n);
    ShownHasNoCommas(r, n);
    if n == 0 {
      assert Shown(r, n) == [] && SplitOn("", ',') == [""];
      assert [""][..0] == [];
    } else {
      hide SplitOn, Shown, ReadParts, Join, Clean, Head;
      SplitUndoesJoin(Shown(r, n), ',');
    }
  }

  lemma ReadValueIsClean(v: string)
    requires Trimmed(v) && ',' !in v
    ensures CleanValue(ReadValue(v))
  {}

  lemma ReadPairIsClean(part: string)
    requires ',' !in part && Find(part, '=') < |part|
    ensures var eq := Find(part, '='); var k, v := Trim(part[..eq]), Trim(part[eq + 1..]);
      (k != "" ==> CleanKey(k)) && CleanValue(ReadValue(v))
  {
    var eq := Find(part, '=');
    ReadValueIsClean(Trim(part[eq + 1..]));
    hide LooksLikeRef, CleanValue, ReadValue, Trim, Trimmed;
    assert '=' !in part[..eq] && ',' !in part[..eq];
  }

  lemma ReadPartStaysClean(out: Pairs, part: string)
    requires Clean(out) && ',' !in part
    ensures Clean(ReadPart(out, part))
  {
    if Find(part, '=') < |part| { ReadPairIsClean(part); }
    hide Find, Trim, ReadValue, CleanKey, CleanValue;
  }

  lemma {:induction false} ReadPartsAreClean(parts: seq<string>)
    requires forall p <- parts :: ',' !in p
    ensures Clean(ReadParts(parts))
  {
    if parts != [] {
      ReadPartsAreClean(parts[..|parts| - 1]);
      ReadPartStaysClean(ReadParts(parts[..|parts| - 1]), parts[|parts| - 1]);
    }
  }

  /** Whatever is typed, what is read is clean. */
  lemma ParseIsClean(text: string)
    ensures Clean(Parse(text))
  {
    ReadPartsAreClean(SplitOn(text, ','));
  }

  /** A record survives being shown and read back exactly when it is clean. */
  lemma PairsRoundTripExactly(r: Pairs)
    ensures Parse(Stringify(r)) == r <==> Clean(r)
  {
    ParseIsClean(Stringify(r));
    if Clean(r) { CleanReadsBack(r); }
  }

  /** Reopening the form on what was typed changes nothing more. */
  lemma ReopeningIsStable(text: string)
    ensures Parse(Stringify(Parse(text))) == Parse(text)
  {
    ParseIsClean(text);
    CleanReadsBack(Parse(text));
  }

  // ---- argument lists ----

  function FirstSpace(s: string): (i: nat)
    ensures i <= |s| && (i < |s| ==> IsSpace(s[i]))
    ensures forall j :: 0 <= j < i ==> !IsSpace(s[j])
  {
    if s == "" then 0 else if IsSpace(s[0]) then 0 else 1 + FirstSpace(s[1..])
  }

  lemma {:induction false} TrimStartIsShorter(s: string)
    ensures |TrimStart(s)| <= |s|
  {
    if s != "" { TrimStartIsShorter(s[1..]); }
  }

  /** `split(/\s+/)` */
  function SplitSpaces(s: string): seq<string>
    decreases |s|
  {
    var i := FirstSpace(s);
    if i == |s| then [s]
    else
      TrimStartIsShorter(s[i + 1..]);
      [s[..i]] + SplitSpaces(TrimStart(s[i + 1..]))
  }

  /** `filter(Boolean)` */
  function NonEmpty(parts: seq<string>): seq<string> {
    if parts == [] then [] else (if parts[0] == "" then [] else [parts[0]]) + NonEmpty(parts[1..])
  }

  function Words(s: string): seq<string> {
    NonEmpty(SplitSpaces(Trim(s)))
  }

  predicate IsWord(w: string) {
    w != "" && forall c <- w :: !IsSpace(c)
  }

  lemma OneMoreWord(a: string, rest: seq<string>)
    requires (forall c <- a :: !IsSpace(c)) && forall w <- NonEmpty(rest) :: IsWord(w)
    ensures forall w <- NonEmpty([a] + rest) :: IsWord(w)
  {
    assert ([a] + rest)[1..] == rest;
  }

  lemma NoWords()
    ensures NonEmpty([]) == []
  {}

  lemma SplitSpacesStep(s: string)
    ensures var i := FirstSpace(s);
      SplitSpaces(s) == [s[..i]] + if i == |s| then [] else SplitSpaces(TrimStart(s[i + 1..]))
  {
    hide FirstSpace, TrimStart, IsSpace;
    var i := FirstSpace(s);
    if i == |s| { assert s[..i] == s; }
  }

  lemma {:induction false} WordsOnly(s: string)
    ensures forall w <- NonEmpty(SplitSpaces(s)) :: IsWord(w)
    decreases |s|
  {
    var i := FirstSpace(s);
    SplitSpacesStep(s);
    hide *;
    assert forall c <- s[..i] :: !IsSpace(c);
    if i < |s| {
      var t := TrimStart(s[i + 1..]);
      TrimStartIsShorter(s[i + 1..]);
      WordsOnly(t);
      OneMoreWord(s[..i], SplitSpaces(t));
    } else {
      NoWords();
      OneMoreWord(s[..i], []);
    }
  }

  predicate AllWords(args: seq<string>) {
    forall w <- args :: IsWord(w)
  }

  lemma {:induction false} JoinedWordsAreTrimmed(args: seq<string>)
    requires AllWords(args)
    ensures Trimmed(Join(args, ' ')) && (args != [] ==> Join(args, ' ') != "")
  {
    if args != [] {
      var w := args[0];
      assert IsWord(w) && w[0] in w && w[|w| - 1] in w;
      if |args| > 1 { JoinedWordsAreTrimmed(args[1..]); }
    }
  }

  lemma WordThenRest(w: string, rest: string)
    requires IsWord(w) && Trimmed(rest) && rest != ""
    ensures var s := w + [' '] + rest; SplitSpaces(s) == [w] + SplitSpaces(rest)
  {
    var s := w + [' '] + rest;
    assert s[|w|] == ' ' && s[..|w|] == w && s[|w| + 1..] == rest;
    assert forall j :: 0 <= j < |w| ==> s[j] == w[j] && w[j] in w;
    assert FirstSpace(s) == |w|;
    assert TrimStart(rest) == rest;
    hide IsSpace, TrimStart, FirstSpace;
  }

  lemma LoneWord(w: string)
    requires IsWord(w)
    ensures SplitSpaces(w) == [w]
  {
    assert forall j :: 0 <= j < |w| ==> w[j] in w;
    assert FirstSpace(w) == |w|;
    hide IsSpace;
  }

  lemma {:induction false} WordsSplit(args: seq<string>)
    requires AllWords(args) && args != []
    ensures SplitSpaces(Join(args, ' ')) == args
  {
    assert args[0] in args;
    assert args == [args[0]] + args[1..];
    if |args| > 1 {
      JoinedWordsAreTrimmed(args[1..]);
      WordsSplit(args[1..]);
      WordThenRest(args[0], Join(args[1..], ' '));
    } else {
      LoneWord(args[0]);
    }
    hide IsSpace, SplitSpaces, IsWord;
  }

  lemma {:induction false} NothingEmpty(args: seq<string>)
    requires AllWords(args)
    ensures NonEmpty(args) == args
  {
    if args != [] {
      assert args[0] in args;
      NothingEmpty(args[1..]);
    }
  }

  /** An argument list survives exactly when every argument is a word. */
  lemma ArgsRoundTripExactly(args: seq<string>)
    ensures Words(Join(args, ' ')) == args <==> AllWords(args)
  {
    var s := Join(args, ' ');
    WordsOnly(Trim(s));
    if AllWords(args) {
      JoinedWordsAreTrimmed(args);
      if args != [] {
        WordsSplit(args);
        NothingEmpty(args);
      } else {
        assert SplitSpaces("") == [""] && [""][1..] == [];
      }
    }
  }

  // ---- the whole form ----

  datatype Transport = Stdio | Sse | Http

  datatype Risk = ReadOnly | Write | Exec | Network

  datatype Config = Config(
    name: string,
    transport: Transport,
    enabled: bool,
    risk: Option<Risk>,
    command: Option<string>,
    args: Option<seq<string>>,
    env: Option<Pairs>,
    url: Option<string>,
    headers: Option<Pairs>)

  /** The text fields, and the risk level with its empty choice. */
  datatype Form = Form(
    name: string,
    transport: Transport,
    command: string,
    args: string,
    env: string,
    url: string,
    headers: string,
    risk: Option<Risk>,
    enabled: bool)

  datatype Outcome = Built(c: Config) | NameMissing | NameHasSlash | CommandMissing | UrlMissing

  function OrEmpty(o: Option<string>): string {
    if o.Some? then o.value else ""
  }

  function ShowPairs(o: Option<Pairs>): string {
    if o.Some? then Stringify(o.value) else ""
  }

  function FormOf(c: Config): Form {
    Form(c.name, c.transport, OrEmpty(c.command), if c.args.Some? then Join(c.args.value, ' ') else "",
         ShowPairs(c.env), OrEmpty(c.url), ShowPairs(c.headers), c.risk, c.enabled)
  }

  function IfAny(r: Pairs): Option<Pairs> {
    if r.keys == [] then None else Some(r)
  }

  function Build(f: Form): Outcome {
    var name := Trim(f.name);
    if name == "" then NameMissing
    else if '/' in name || '\\' in name then NameHasSlash
    else
      var blank := Config(name, f.transport, f.enabled, f.risk, None, None, None, None, None);
      if f.transport.Stdio? then
        var command, args := Trim(f.command), Words(f.args);
        if command == "" then CommandMissing
        else
          Built(blank.(command := Some(command), args := if args == [] then None else Some(args),
                       env := IfAny(Parse(f.env))))
      else
        var url := Trim(f.url);
        if url == "" then UrlMissing
        else Built(blank.(url := Some(url), headers := IfAny(Parse(f.headers))))
  }

  /** The assembly as it is written, field by field. */
  method BuildMcpConfig(f: Form) returns (o: Outcome)
    ensures o == Build(f)
  {
    hide Trim, Words, Parse;
    var name := Trim(f.name);
    if name == "" { return NameMissing; }
    if '/' in name || '\\' in name { return NameHasSlash; }
    var cfg := Config(name, f.transport, f.enabled, None, None, None, None, None, None);
    if f.risk.Some? { cfg := cfg.(risk := f.risk); }
    if f.transport.Stdio? {
      var command := Trim(f.command);
      if command == "" { return CommandMissing; }
      cfg := cfg.(command := Some(command));
      var args := Words(f.args);
      if args != [] { cfg := cfg.(args := Some(args)); }
      var env := ParsePairs(f.env);
      if env.keys != [] { cfg := cfg.(env := Some(env)); }
    } else {
      var url := Trim(f.url);
      if url == "" { return UrlMissing; }
      cfg := cfg.(url := Some(url));
      var headers := ParsePairs(f.headers);
      if headers.keys != [] { cfg := cfg.(headers := Some(headers)); }
    }
    return Built(cfg);
  }

  predicate Filled(s: Option<string>) {
    s.Some? && s.value != "" && Trimmed(s.value)
  }

  predicate NormalPairs(o: Option<Pairs>) {
    o.Some? ==> o.value.keys != [] && Clean(o.value)
  }

  /** Only the transport's own fields are there, and each holds what its text field can say. */
  predicate Normal(c: Config) {
    && c.name != "" && Trimmed(c.name) && '/' !in c.name && '\\' !in c.name
    && if c.transport.Stdio? then
         && Filled(c.command) && c.url.None? && c.headers.None?
         && (c.args.Some? ==> c.args.value != [] && AllWords(c.args.value)) && NormalPairs(c.env)
       else
         Filled(c.url) && NormalPairs(c.headers) && c.command.None? && c.args.None? && c.env.None?
  }

  lemma PairsFieldExactly(o: Option<Pairs>)
    ensures IfAny(Parse(ShowPairs(o))) == o <==> NormalPairs(o)
  {
    if o.Some? {
      PairsRoundTripExactly(o.value);
    } else {
      PairsRoundTripExactly(NoPairs);
    }
    ParseIsClean(ShowPairs(o));
    hide Parse, Clean;
    assert Stringify(NoPairs) == "";
  }

  lemma ArgsFieldExactly(o: Option<seq<string>>)
    ensures var args := Words(if o.Some? then Join(o.value, ' ') else "");
      (if args == [] then None else Some(args)) == o <==> (o.Some? ==> o.value != [] && AllWords(o.value))
  {
    ArgsRoundTripExactly(if o.Some? then o.value else []);
  }

  lemma TextFieldExactly(o: Option<string>)
    ensures Trim(OrEmpty(o)) != "" && Some(Trim(OrEmpty(o))) == o <==> Filled(o)
  {}

  /** Opening the form on a configuration and saving it gives the configuration back exactly when it is normal. */
  lemma FormRoundTripExactly(c: Config)
    ensures Build(FormOf(c)) == Built(c) <==> Normal(c)
  {
    PairsFieldExactly(c.env);
    PairsFieldExactly(c.headers);
    ArgsFieldExactly(c.args);
    TextFieldExactly(c.command);
    TextFieldExactly(c.url);
    TextFieldExactly(Some(c.name));
    hide Trim, Words, Join, Parse, ShowPairs, Clean, AllWords, IfAny, OrEmpty, Trimmed;
  }
}
