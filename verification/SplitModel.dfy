/**
 * Splitting a long Markdown text into chat messages (apps/gateway/src/render/split.ts):
 * lines, code fences, and the splitting itself as a function. A character is one
 * code unit, as string lengths and slices of the source count them.
 */
module SplitModel {
  import opened Basics

  const FENCE := "```"

  // ---- lines ----

  predicate NoNewline(s: string) {
    '\n' !in s
  }

  function FirstNewline(s: string): (i: nat)
    ensures i <= |s| && NoNewline(s[..i]) && (i < |s| ==> s[i] == '\n')
  {
    if s == "" || s[0] == '\n' then 0
    else
      var i := FirstNewline(s[1..]);
      assert s[..i + 1] == [s[0]] + s[1..][..i];
      i + 1
  }

  /** `text.split('\n')` */
  function Lines(s: string): (ls: seq<string>)
    ensures ls != [] && forall l <- ls :: NoNewline(l)
    decreases |s|
  {
    var i := FirstNewline(s);
    if i == |s| then assert s[..i] == s; [s] else [s[..i]] + Lines(s[i + 1..])
  }

  predicate FenceLine(l: string) {
    FENCE <= l
  }

  /** The fence state after a line: the opening line, while a code block is open. */
  function After(open: Option<string>, line: string): Option<string> {
    if !FenceLine(line) then open else if open.None? then Some(TrimEnd(line)) else None
  }

  function AfterAll(open: Option<string>, ls: seq<string>): Option<string> {
    if ls == [] then open else After(AfterAll(open, ls[..|ls| - 1]), ls[|ls| - 1])
  }

  function DanglingFence(s: string): Option<string> {
    AfterAll(None, Lines(s))
  }

  /** A state the splitter can carry: a trimmed fence line. */
  predicate Carried(open: Option<string>) {
    open.Some? ==> FenceLine(open.value) && NoNewline(open.value) && TrimEnd(open.value) == open.value
  }

  // ---- the splitter ----

  /** `bestCut`; a reopened fence can leave a budget that is zero or negative. */
  function BestCut(s: string, budget: int): (cut: int)
    requires budget < |s|
    ensures budget >= 0 ==> 0 <= cut <= budget
    ensures budget > 0 ==> cut > 0
    ensures budget < 0 ==> -1 <= cut < |s|
  {
    var window := s[..Taken(s, budget)];
    var para := LastIndexOf(window, "\n\n");
    var line := LastIndexOf(window, "\n");
    var space := LastIndexOf(window, " ");
    if 2 * para >= budget then para
    else if 2 * line >= budget then line
    else if 2 * space >= budget then space
    else budget
  }

  /** How many newlines a text starts with. */
  function Newlines(s: string): (n: nat)
    ensures n <= |s| && (forall i :: 0 <= i < n ==> s[i] == '\n') && (n < |s| ==> s[n] != '\n')
  {
    if s != "" && s[0] == '\n' then 1 + Newlines(s[1..]) else 0
  }

  /** One chunk: the fence it reopens, its part of the text, whether it closes a fence, the newlines dropped after it. */
  datatype Piece = Piece(open: Option<string>, body: string, closes: bool, gap: nat)

  /** A body, after the fence line it reopens. */
  function Head(open: Option<string>, body: string): string {
    if open.Some? then open.value + "\n" + body else body
  }

  function Render(p: Piece): string {
    if p.closes then Head(p.open, p.body) + "\n" + FENCE else Head(p.open, p.body)
  }

  /** `Stuck` is where an iteration takes nothing although text is left. */
  datatype Outcome = Done(pieces: seq<Piece>) | Stuck(pieces: seq<Piece>, open: Option<string>, rest: string)

  function Budget(open: Option<string>, max: int): int {
    max - if open.Some? then |open.value| + 1 else 0
  }

  /** How many characters an iteration takes. */
  function Cut(rest: string, open: Option<string>, max: int): (k: nat)
    requires Budget(open, max) < |rest|
    ensures k <= |rest| && (Budget(open, max) >= 0 ==> k <= Budget(open, max))
    ensures Budget(open, max) > 0 ==> k > 0
  {
    Taken(rest, BestCut(rest, Budget(open, max)))
  }

  function First(rest: string, open: Option<string>, max: int): (p: Piece)
    requires Budget(open, max) < |rest|
    ensures p.open == open && |p.body| + p.gap <= |rest|
    ensures Budget(open, max) > 0 ==> p.body != ""
  {
    var k := Cut(rest, open, max);
    Piece(open, rest[..k], DanglingFence(Head(open, rest[..k])).Some?, Newlines(rest[k..]))
  }

  predicate TakesNothing(p: Piece) {
    p.body == "" && p.gap == 0
  }

  function Push(p: Piece, o: Outcome): Outcome {
    o.(pieces := [p] + o.pieces)
  }

  function Split(rest: string, open: Option<string>, max: int): Outcome
    decreases |rest|
  {
    if rest == "" then Done([])
    else if |rest| <= Budget(open, max) then Done([Piece(open, rest, false, 0)])
    else
      var p := First(rest, open, max);
      if TakesNothing(p) then Stuck([], open, rest)
      else Push(p, Split(rest[|p.body| + p.gap..], DanglingFence(Head(open, p.body)), max))
  }

  lemma FirstIs(rest: string, open: Option<string>, max: int)
    requires Budget(open, max) < |rest|
    ensures var p := First(rest, open, max); var k := Cut(rest, open, max);
      && p == Piece(open, rest[..k], DanglingFence(Head(open, rest[..k])).Some?, Newlines(rest[k..]))
      && |p.body| == k && k + p.gap <= |rest|
  {
    hide Cut, DanglingFence, Newlines, Head;
  }

  /** One iteration that takes something. */
  lemma SplitGoesOn(rest: string, open: Option<string>, max: int)
    requires Budget(open, max) < |rest| && rest != ""
    requires !TakesNothing(First(rest, open, max))
    ensures var p := First(rest, open, max);
      Split(rest, open, max) == Push(p, Split(rest[|p.body| + p.gap..], DanglingFence(Head(open, p.body)), max))
  {
    hide First, Cut, DanglingFence, Newlines, Head, Push;
  }

  /** An iteration that takes nothing, and what ends the loop. */
  lemma SplitStops(rest: string, open: Option<string>, max: int)
    ensures rest == "" ==> Split(rest, open, max) == Done([])
    ensures rest != "" && |rest| <= Budget(open, max) ==>
      Split(rest, open, max) == Done([Piece(open, rest, false, 0)])
    ensures rest != "" && Budget(open, max) < |rest| && TakesNothing(First(rest, open, max)) ==>
      Split(rest, open, max) == Stuck([], open, rest)
  {
    hide First, Cut, DanglingFence, Newlines, Head, Push;
  }

  /** The whole call; a limit of zero or less, and a text that fits, are not split. */
  function SplitForLimit(text: string, max: int): Outcome {
    if max <= 0 || |text| <= max
    then Done(if max > 0 && text == "" then [] else [Piece(None, text, false, 0)])
    else Split(text, None, max)
  }

  function Chunks(ps: seq<Piece>): seq<string> {
    seq(|ps|, i requires 0 <= i < |ps| => Render(ps[i]))
  }

  // ---- lines of parts ----

  lemma LinesCut(s: string, i: nat)
    requires i < |s| && s[i] == '\n' && NoNewline(s[..i])
    ensures Lines(s) == [s[..i]] + Lines(s[i + 1..])
  {
    NewlineAt(s, i);
  }

  lemma JoinCut(a: string, b: string)
    ensures var s := a + "\n" + b; var i := FirstNewline(a);
      && i < |s| && s[i] == '\n' && s[..i] == a[..i]
      && (i == |a| ==> a[..i] == a && s[i + 1..] == b)
      && (i < |a| ==> s[i + 1..] == a[i + 1..] + "\n" + b)
  {
    var i := FirstNewline(a);
    hide FirstNewline;
    var s := a + "\n" + b;
    if i < |a| { assert s[i + 1..] == a[i + 1..] + "\n" + b; }
  }

  /** Joining two texts at a newline joins their lines. */
  lemma {:induction false} LinesJoin(a: string, b: string)
    ensures Lines(a + "\n" + b) == Lines(a) + Lines(b)
    decreases |a|
  {
    hide Lines;
    var i := FirstNewline(a);
    JoinCut(a, b);
    LinesCut(a + "\n" + b, i);
    if i == |a| {
      OneLine(a);
    } else {
      LinesCut(a, i);
      LinesJoin(a[i + 1..], b);
    }
  }

  lemma {:induction false} NewlineAt(s: string, i: nat)
    requires i < |s| && s[i] == '\n' && NoNewline(s[..i])
    ensures FirstNewline(s) == i
  {
    var j := FirstNewline(s);
    assert forall k :: 0 <= k < i ==> s[..i][k] == s[k];
    assert forall k :: 0 <= k < j ==> s[..j][k] == s[k];
  }

  lemma {:induction false} AfterAllJoin(open: Option<string>, a: seq<string>, b: seq<string>)
    ensures AfterAll(open, a + b) == AfterAll(AfterAll(open, a), b)
    decreases |b|
  {
    if b == [] {
      assert a + b == a;
    } else {
      AfterAllJoin(open, a, b[..|b| - 1]);
      assert (a + b)[..|a + b| - 1] == a + b[..|b| - 1];
    }
  }

  lemma OneLine(s: string)
    requires NoNewline(s)
    ensures Lines(s) == [s]
  {
    assert FirstNewline(s) == |s|;
    assert s[..|s|] == s;
  }

  lemma AfterOne(open: Option<string>, l: string)
    ensures AfterAll(open, [l]) == After(open, l)
  {
    assert [l][..0] == [];
  }

  lemma {:induction false} TrimEndTwice(s: string)
    ensures TrimEnd(TrimEnd(s)) == TrimEnd(s)
  {
    if s != "" && IsSpace(s[|s| - 1]) { TrimEndTwice(s[..|s| - 1]); }
  }

  lemma {:induction false} TrimEndKeepsFence(l: string)
    requires FenceLine(l)
    ensures FenceLine(TrimEnd(l))
    decreases |l|
  {
    assert l[2] == FENCE[2];
    if IsSpace(l[|l| - 1]) {
      TrimEndKeepsFence(l[..|l| - 1]);
    }
  }

  lemma {:induction false} StatesAreCarried(open: Option<string>, ls: seq<string>)
    requires Carried(open) && forall l <- ls :: NoNewline(l)
    ensures Carried(AfterAll(open, ls))
    decreases |ls|
  {
    if ls != [] {
      var l := ls[|ls| - 1];
      StatesAreCarried(open, ls[..|ls| - 1]);
      if FenceLine(l) {
        TrimEndKeepsFence(l);
        TrimEndTwice(l);
        assert NoNewline(l);
      }
    }
  }

  /** Reopening a fence puts the state of a chunk where the text left it. */
  lemma ReopenedState(open: Option<string>, body: string)
    requires Carried(open)
    ensures DanglingFence(Head(open, body)) == AfterAll(open, Lines(body))
    ensures Carried(DanglingFence(Head(open, body)))
  {
    StatesAreCarried(None, Lines(Head(open, body)));
    if open.Some? {
      LinesJoin(open.value, body);
      OneLine(open.value);
      AfterAllJoin(None, [open.value], Lines(body));
      AfterOne(None, open.value);
      assert Head(open, body) == open.value + "\n" + body;
    } else {
      assert Head(open, body) == body;
    }
  }

  /** A chunk that closes its fence leaves none dangling. */
  lemma ClosedState(s: string)
    requires DanglingFence(s).Some?
    ensures DanglingFence(s + "\n" + FENCE).None?
  {
    LinesJoin(s, FENCE);
    OneLine(FENCE);
    AfterAllJoin(None, Lines(s), [FENCE]);
    AfterOne(DanglingFence(s), FENCE);
  }
}
