/**
 * When splitting ends, and how long the chunks are. The comment of the source promises chunks within
 * the limit for every text; the closing fence and long fence lines break it, here exactly when.
 */
module SplitLimits {
  import opened Basics
  import opened SplitModel

  // ---- lines with a fence marker ----

  /** Some part of `s` starts with a fence marker. */
  predicate HasFence(s: string) {
    exists i :: 0 <= i <= |s| && FENCE <= s[i..]
  }

  /** `l` is a stretch of a line of `s`. */
  ghost predicate Stretch(s: string, l: string) {
    NoNewline(l) && exists i, j :: 0 <= i <= j <= |s| && s[i..j] == l
  }

  /** No stretch of a line that contains a fence marker is longer than `k`. */
  ghost predicate ShortFences(s: string, k: int) {
    forall l :: Stretch(s, l) && HasFence(l) ==> |l| <= k
  }

  lemma SliceSlice(s: string, a: nat, b: nat, i: nat, j: nat)
    requires a <= b <= |s| && i <= j <= b - a
    ensures s[a..b][i..j] == s[a + i..a + j]
  {
    var x, y := s[a..b][i..j], s[a + i..a + j];
    assert |x| == |y|;
    assert forall k :: 0 <= k < |x| ==> x[k] == s[a + i + k] && y[k] == s[a + i + k];
  }

  lemma ShortFencesInside(s: string, k: int, a: nat, b: nat)
    requires ShortFences(s, k) && a <= b <= |s|
    ensures ShortFences(s[a..b], k)
  {
    var t := s[a..b];
    forall l | Stretch(t, l) ensures Stretch(s, l) {
      var i, j :| 0 <= i <= j <= |t| && t[i..j] == l;
      SliceSlice(s, a, b, i, j);
    }
  }

  /** Every line is a stretch of its text. */
  lemma {:induction false} LinesAreStretches(s: string, l: string)
    requires l in Lines(s)
    ensures Stretch(s, l)
    decreases |s|, 0
  {
    var n := FirstNewline(s);
    if n == |s| {
      OneLine(s);
      assert s[0..n] == s;
    } else {
      LinesCut(s, n);
      hide Lines, FirstNewline;
      if l == s[..n] {
        assert s[0..n] == l;
      } else {
        LaterLineIsStretch(s, n, l);
      }
    }
  }

  lemma {:induction false} LaterLineIsStretch(s: string, n: nat, l: string)
    requires n < |s| && l in Lines(s[n + 1..])
    ensures Stretch(s, l)
    decreases |s| - 1, 1
  {
    var rest := s[n + 1..];
    LinesAreStretches(rest, l);
    hide Lines, NoNewline;
    var i, j :| 0 <= i <= j <= |rest| && rest[i..j] == l;
    assert s[n + 1..] == s[n + 1..|s|];
    SliceSlice(s, n + 1, |s|, i, j);
  }

  /** A stretch lies inside one line. */
  ghost predicate Within(s: string, t: string) {
    exists l, a, b :: l in Lines(s) && 0 <= a <= b <= |l| && l[a..b] == t
  }

  lemma WithinFirst(s: string, i: nat, j: nat)
    requires i <= j <= FirstNewline(s)
    ensures Within(s, s[i..j])
  {
    var n := FirstNewline(s);
    assert s[..n] in Lines(s) by {
      if n == |s| { OneLine(s); assert s[..n] == s; } else { LinesCut(s, n); }
    }
    hide *;
    assert s[..n] == s[0..n];
    SliceSlice(s, 0, n, i, j);
    WithinIs(s, s[..n], i, j);
  }

  lemma WithinIs(s: string, l: string, a: nat, b: nat)
    requires l in Lines(s) && a <= b <= |l|
    ensures Within(s, l[a..b])
  {}

  lemma WithinLater(s: string, n: nat, t: string)
    requires n < |s| && s[n] == '\n' && NoNewline(s[..n]) && Within(s[n + 1..], t)
    ensures Within(s, t)
  {
    LinesCut(s, n);
    var l, a, b :| l in Lines(s[n + 1..]) && 0 <= a <= b <= |l| && l[a..b] == t;
    hide Lines, NoNewline;
    assert l in Lines(s);
  }

  lemma {:induction false} StretchInsideLine(s: string, i: nat, j: nat)
    requires i <= j <= |s| && NoNewline(s[i..j])
    ensures Within(s, s[i..j])
    decreases |s|
  {
    var n := FirstNewline(s);
    hide *;
    if j <= n {
      WithinFirst(s, i, j);
    } else {
      NewlineOutside(s, s[i..j], i, j, n);
      var rest := s[n + 1..];
      assert rest == s[n + 1..|s|];
      SliceSlice(s, n + 1, |s|, i - n - 1, j - n - 1);
      StretchInsideLine(rest, i - n - 1, j - n - 1);
      WithinLater(s, n, s[i..j]);
    }
  }

  predicate ShortLines(s: string, k: int) {
    forall l <- Lines(s) :: HasFence(l) ==> |l| <= k
  }

  /** The bound on stretches is a bound on the lines with a fence marker in them. */
  lemma ShortFencesMeansShortLines(s: string, k: int)
    ensures ShortFences(s, k) <==> ShortLines(s, k)
  {
    hide Lines, HasFence;
    if ShortFences(s, k) {
      forall l <- Lines(s) ensures HasFence(l) ==> |l| <= k { LinesAreStretches(s, l); }
    }
    if ShortLines(s, k) {
      forall t | Stretch(s, t) && HasFence(t) ensures |t| <= k { StretchIsShort(s, t, k); }
    }
  }

  lemma StretchIsShort(s: string, t: string, k: int)
    requires ShortLines(s, k) && Stretch(s, t) && HasFence(t)
    ensures |t| <= k
  {
    hide Lines, HasFence, NoNewline;
    var i, j :| 0 <= i <= j <= |s| && s[i..j] == t;
    StretchInsideLine(s, i, j);
    var l, a, b :| l in Lines(s) && 0 <= a <= b <= |l| && l[a..b] == t;
    FenceInside(l, a, b);
  }

  lemma FenceInside(l: string, a: nat, b: nat)
    requires a <= b <= |l| && HasFence(l[a..b])
    ensures HasFence(l)
  {
    var t := l[a..b];
    var i :| 0 <= i <= |t| && FENCE <= t[i..];
    assert l[a + i..][..3] == t[i..][..3] == FENCE;
  }

  predicate ShortState(open: Option<string>, k: int) {
    open.Some? ==> |open.value| <= k
  }

  lemma {:induction false} StatesAreShort(open: Option<string>, ls: seq<string>, k: int)
    requires ShortState(open, k) && forall l <- ls :: FenceLine(l) ==> |l| <= k
    ensures ShortState(AfterAll(open, ls), k)
    decreases |ls|
  {
    if ls != [] {
      StatesAreShort(open, ls[..|ls| - 1], k);
      assert ls[|ls| - 1] in ls;
    }
  }

  lemma NextFenceIsShort(rest: string, open: Option<string>, cut: nat, k: int)
    requires ShortFences(rest, k) && Carried(open) && ShortState(open, k) && cut <= |rest|
    ensures ShortState(DanglingFence(Head(open, rest[..cut])), k)
  {
    ReopenedState(open, rest[..cut]);
    var body := rest[..cut];
    assert body == rest[0..cut];
    ShortFencesInside(rest, k, 0, cut);
    hide Lines, DanglingFence, Carried;
    forall l <- Lines(body) ensures FenceLine(l) ==> |l| <= k {
      LinesAreStretches(body, l);
      assert l[0..] == l;
    }
    hide ShortFences;
    StatesAreShort(open, Lines(body), k);
  }


  lemma NewlineOutside(s: string, l: string, i: nat, j: nat, n: nat)
    requires i <= j <= |s| && s[i..j] == l && NoNewline(l) && n < |s| && s[n] == '\n'
    ensures j <= n || n < i
  {
    forall k | i <= k < j ensures s[k] in l { assert l[k - i] == s[k]; }
  }

  // ---- when it ends ----

  /** What a piece of a text without long fence lines has: room in the limit, and no fence at all if `k` allows none. */
  predicate Roomy(p: Piece, max: int, k: int) {
    Budget(p.open, max) > 0 && (k < 3 ==> p.open.None? && !p.closes)
  }

  /** The variables of the loop. */
  datatype Loop = Loop(rest: string, open: Option<string>)

  predicate Returns(l: Loop, max: int) {
    l.rest == "" || |l.rest| <= Budget(l.open, max)
  }

  /** The piece of the next iteration. */
  function Chunk(l: Loop, max: int): Piece
    requires !Returns(l, max)
  {
    First(l.rest, l.open, max)
  }

  function Next(l: Loop, max: int): Loop
    requires !Returns(l, max)
  {
    var p := Chunk(l, max);
    Loop(l.rest[|p.body| + p.gap..], DanglingFence(Head(l.open, p.body)))
  }

  /** The split of what the loop has before it. */
  function Ahead(l: Loop, max: int): Outcome {
    Split(l.rest, l.open, max)
  }

  lemma AheadGoesOn(l: Loop, max: int)
    requires !Returns(l, max) && !TakesNothing(Chunk(l, max))
    ensures Ahead(l, max) == Push(Chunk(l, max), Ahead(Next(l, max), max)) && |Next(l, max).rest| < |l.rest|
  {
    hide Split, First, DanglingFence, Head, Push;
    SplitGoesOn(l.rest, l.open, max);
  }

  lemma AheadStops(l: Loop, max: int)
    ensures Returns(l, max) ==>
      Ahead(l, max) == Done(if l.rest == "" then [] else [Piece(l.open, l.rest, false, 0)])
    ensures !Returns(l, max) && TakesNothing(Chunk(l, max)) ==> Ahead(l, max) == Stuck([], l.open, l.rest)
  {
    hide Split, First;
    SplitStops(l.rest, l.open, max);
  }

  lemma AheadIs(l: Loop, max: int)
    ensures Returns(l, max) ==>
      Ahead(l, max) == Done(if l.rest == "" then [] else [Piece(l.open, l.rest, false, 0)])
    ensures !Returns(l, max) && TakesNothing(Chunk(l, max)) ==> Ahead(l, max) == Stuck([], l.open, l.rest)
    ensures !Returns(l, max) && !TakesNothing(Chunk(l, max)) ==>
      Ahead(l, max) == Push(Chunk(l, max), Ahead(Next(l, max), max)) && |Next(l, max).rest| < |l.rest|
  {
    AheadStops(l, max);
    hide *;
    if !Returns(l, max) && !TakesNothing(Chunk(l, max)) { AheadGoesOn(l, max); }
  }

  lemma PushIs(p: Piece, o: Outcome)
    ensures Push(p, o).pieces == [p] + o.pieces && (Push(p, o).Done? <==> o.Done?)
  {}

  lemma PiecesOfPush(p: Piece, o: Outcome, good: Piece -> bool)
    requires good(p) && forall q <- o.pieces :: good(q)
    ensures forall q <- Push(p, o).pieces :: good(q)
  {}

  /** A state that keeps what is assumed of fence lines. */
  ghost predicate Tame(l: Loop, k: int) {
    ShortFences(l.rest, k) && Carried(l.open) && ShortState(l.open, k)
  }

  lemma NextIsTame(l: Loop, max: int, k: int)
    requires Tame(l, k) && !Returns(l, max)
    ensures Tame(Next(l, max), k) && Chunk(l, max).open == l.open
    ensures Chunk(l, max).closes <==> Next(l, max).open.Some?
  {
    hide Cut, DanglingFence, Head, ShortFences, ShortState, Carried, Newlines;
    var p := Chunk(l, max);
    var n := |p.body| + p.gap;
    FirstIs(l.rest, l.open, max);
    hide First;
    NextFenceIsShort(l.rest, l.open, |p.body|, k);
    ReopenedState(l.open, p.body);
    RestIsShort(l.rest, n, k);
  }

  lemma RestIsShort(s: string, n: nat, k: int)
    requires ShortFences(s, k) && n <= |s|
    ensures ShortFences(s[n..], k)
  {
    hide ShortFences;
    ShortFencesInside(s, k, n, |s|);
    assert s[n..] == s[n..|s|];
  }

  lemma TameIsRoomy(l: Loop, max: int, k: int)
    requires Tame(l, k) && max > 0 && (k <= max - 2 || k < 3)
    ensures Budget(l.open, max) > 0 && (k < 3 ==> l.open.None?)
  {
    hide ShortFences, NoNewline, TrimEnd;
  }

  lemma RoomTakesSomething(l: Loop, max: int)
    requires !Returns(l, max) && Budget(l.open, max) > 0
    ensures !TakesNothing(Chunk(l, max))
  {
    hide Cut, DanglingFence, Head, Newlines;
  }

  /** Lines with a fence marker that stay two below the limit, or none at all, always leave room to go on. */
  lemma {:induction false} TameNeverSticks(l: Loop, max: int, k: int)
    requires max > 0 && (k <= max - 2 || k < 3) && Tame(l, k)
    ensures Ahead(l, max).Done? && forall p <- Ahead(l, max).pieces :: Roomy(p, max, k)
    decreases |l.rest|
  {
    AheadIs(l, max);
    TameIsRoomy(l, max, k);
    hide Ahead, Tame, Chunk, Next, Push, Budget, TakesNothing, Returns;
    if !Returns(l, max) {
      var p, m := Chunk(l, max), Next(l, max);
      NextIsTame(l, max, k);
      TameIsRoomy(m, max, k);
      RoomTakesSomething(l, max);
      TameNeverSticks(m, max, k);
      PushIs(p, Ahead(m, max));
      PiecesOfPush(p, Ahead(m, max), q => Roomy(q, max, k));
    }
  }

  /** No line with a fence marker is longer than `max - 2`: then the loop ends. */
  lemma SplitTerminates(text: string, max: int)
    requires ShortLines(text, max - 2)
    ensures SplitForLimit(text, max).Done?
  {
    ShortFencesMeansShortLines(text, max - 2);
    hide ShortFences, ShortLines, Split;
    if 0 < max < |text| { TameNeverSticks(Loop(text, None), max, max - 2); }
  }

  // ---- the loop, iteration by iteration ----

  /** The loop after `n` iterations, if it has not returned before. */
  function Iterate(l: Loop, max: int, n: nat): Loop
    decreases n
  {
    if n == 0 || Returns(l, max) then l else Iterate(Next(l, max), max, n - 1)
  }

  /** An iteration that takes nothing changes neither variable, so it is repeated for ever. */
  lemma TakingNothingRepeats(l: Loop, max: int)
    requires !Returns(l, max) && Carried(l.open) && TakesNothing(Chunk(l, max))
    ensures Next(l, max) == l
  {
    ReopenedState(l.open, "");
    OneLine("");
    AfterOne(l.open, "");
    hide DanglingFence, Head, First, Lines, AfterAll;
  }

  lemma NextIsCarried(l: Loop, max: int)
    requires !Returns(l, max) && Carried(l.open)
    ensures Carried(Next(l, max).open)
  {
    ReopenedState(l.open, Chunk(l, max).body);
    hide First, DanglingFence, Carried, Head;
  }

  lemma {:induction false} DoneReturns(l: Loop, max: int) returns (n: nat)
    requires Ahead(l, max).Done?
    ensures Returns(Iterate(l, max, n), max)
    decreases |l.rest|
  {
    AheadIs(l, max);
    hide Ahead, Next, Chunk, Push, TakesNothing, Returns;
    if Returns(l, max) { return 0; }
    PushIs(Chunk(l, max), Ahead(Next(l, max), max));
    var m := DoneReturns(Next(l, max), max);
    n := m + 1;
  }

  lemma {:induction false} StuckNeverReturns(l: Loop, max: int, n: nat)
    requires Ahead(l, max).Stuck? && Carried(l.open)
    ensures !Returns(Iterate(l, max, n), max)
    decreases n
  {
    AheadIs(l, max);
    hide Ahead, Next, Chunk, Push, TakesNothing, Returns, Carried;
    if n > 0 {
      if TakesNothing(Chunk(l, max)) {
        TakingNothingRepeats(l, max);
      } else {
        PushIs(Chunk(l, max), Ahead(Next(l, max), max));
        NextIsCarried(l, max);
      }
      StuckNeverReturns(Next(l, max), max, n - 1);
    }
  }

  /** The split is done exactly when the loop returns after some number of iterations. */
  lemma DoneExactlyIfLoopReturns(l: Loop, max: int)
    requires Carried(l.open)
    ensures Ahead(l, max).Done? <==> exists n: nat :: Returns(Iterate(l, max, n), max)
  {
    hide Ahead, Iterate, Returns, Carried;
    if Ahead(l, max).Done? {
      var n := DoneReturns(l, max);
      assert Returns(Iterate(l, max, n), max);
    } else {
      forall n: nat ensures !Returns(Iterate(l, max, n), max) { StuckNeverReturns(l, max, n); }
    }
  }

  lemma {:induction false} StuckReaches(l: Loop, max: int) returns (n: nat)
    requires Ahead(l, max).Stuck?
    ensures SticksAt(Iterate(l, max, n), max)
    decreases |l.rest|
  {
    AheadIs(l, max);
    hide Ahead, Next, Chunk, Push, TakesNothing, Returns;
    if TakesNothing(Chunk(l, max)) { return 0; }
    PushIs(Chunk(l, max), Ahead(Next(l, max), max));
    var m := StuckReaches(Next(l, max), max);
    n := m + 1;
  }

  lemma {:induction false} ReachedIsStuck(l: Loop, max: int, n: nat)
    requires SticksAt(Iterate(l, max, n), max)
    ensures Ahead(l, max).Stuck?
    decreases n
  {
    AheadIs(l, max);
    hide Ahead, Next, Chunk, Push, TakesNothing, Returns;
    if n > 0 && !TakesNothing(Chunk(l, max)) {
      ReachedIsStuck(Next(l, max), max, n - 1);
      PushIs(Chunk(l, max), Ahead(Next(l, max), max));
    }
  }

  /** The loop goes on from here, with an iteration that takes nothing. */
  predicate SticksAt(l: Loop, max: int) {
    !Returns(l, max) && TakesNothing(Chunk(l, max))
  }

  /** The split never ends exactly when some iteration it reaches takes nothing. */
  lemma StuckExactly(l: Loop, max: int)
    ensures Ahead(l, max).Stuck? <==> exists n: nat :: SticksAt(Iterate(l, max, n), max)
  {
    hide Ahead, Iterate, SticksAt;
    if Ahead(l, max).Stuck? {
      var n := StuckReaches(l, max);
      assert SticksAt(Iterate(l, max, n), max);
    }
    forall n: nat | SticksAt(Iterate(l, max, n), max) ensures Ahead(l, max).Stuck? { ReachedIsStuck(l, max, n); }
  }

  // ---- which iterations take nothing ----

  lemma LastChar(s: string, c: char)
    ensures var i := LastIndexOf(s, [c]);
      (i == -1 <==> c !in s) && (i >= 0 ==> i < |s| && s[i] == c && c !in s[i + 1..])
  {
    var i := LastIndexOf(s, [c]);
    forall j | i < j < |s| ensures s[j] != c {
      assert s[j..] == [s[j]] + s[j + 1..];
    }
  }

  lemma BreakIsNotFirst(rest: string, n: nat, pat: string)
    requires rest != "" && rest[0] != '\n' && n <= |rest| && pat != "" && pat[0] == '\n'
    ensures LastIndexOf(rest[..n], pat) != 0
  {}

  lemma TakesNothingMeansNoCut(rest: string, open: Option<string>, max: int)
    requires rest != "" && rest[0] != '\n' && Budget(open, max) < |rest|
    ensures TakesNothing(First(rest, open, max)) <==> Cut(rest, open, max) == 0
  {
    FirstIs(rest, open, max);
    hide First, Cut, DanglingFence, Head;
    if Cut(rest, open, max) == 0 { assert rest[0..] == rest; }
  }

  lemma NegativeCut(rest: string, b: int)
    requires rest != "" && rest[0] != '\n' && b < 0
    ensures var window := rest[..|rest| - 1];
      Taken(rest, BestCut(rest, b)) == 0 <==>
      |rest| == 1 || (b == -1 && rest[0] == ' ' && '\n' !in window && ' ' !in window[1..])
  {
    BreakIsNotFirst(rest, Taken(rest, b), "\n\n");
    if b == -1 {
      var window := rest[..|rest| - 1];
      assert rest[..Taken(rest, b)] == window;
      BreakIsNotFirst(rest, |rest| - 1, "\n");
      BreakIsNotFirst(rest, |rest| - 1, "\n\n");
      LastChar(window, '\n');
      LastChar(window, ' ');
      NoParagraphWithoutLine(window);
      hide LastIndexOf;
    }
  }

  lemma NoParagraphWithoutLine(s: string)
    ensures '\n' !in s ==> LastIndexOf(s, "\n\n") == -1
  {}

  /**
   * Which iterations take nothing: with the budget used up exactly; with a negative one when a single
   * character is left; and with a budget of -1 also when the only break is a space in front.
   */
  lemma TakesNothingExactly(rest: string, open: Option<string>, max: int)
    requires rest != "" && rest[0] != '\n' && Budget(open, max) < |rest|
    ensures var b := Budget(open, max); var window := rest[..|rest| - 1];
      TakesNothing(First(rest, open, max)) <==>
      || b == 0
      || (b < 0 && |rest| == 1)
      || (b == -1 && rest[0] == ' ' && '\n' !in window && ' ' !in window[1..])
  {
    TakesNothingMeansNoCut(rest, open, max);
    if Budget(open, max) < 0 { NegativeCut(rest, Budget(open, max)); }
    hide First, BestCut, Taken, TakesNothing;
  }

  // ---- how long the chunks are ----

  /** When a chunk breaks the limit: it was cut with a negative budget, or its closing fence did not fit. */
  predicate Overlong(p: Piece, max: int) {
    Budget(p.open, max) < 0 || (p.closes && |Head(p.open, p.body)| > max - 4)
  }

  predicate Measured(p: Piece, max: int) {
    && (|Render(p)| > max <==> Overlong(p, max))
    && (Budget(p.open, max) >= 0 ==> |Render(p)| <= max + if p.closes then 4 else 0)
  }

  lemma ChunkIsMeasured(l: Loop, max: int)
    requires !Returns(l, max)
    ensures Measured(Chunk(l, max), max)
  {
    FirstIs(l.rest, l.open, max);
    hide First, DanglingFence, Newlines;
  }

  lemma LastIsMeasured(l: Loop, max: int)
    requires Returns(l, max) && l.rest != ""
    ensures Measured(Piece(l.open, l.rest, false, 0), max)
  {}

  /** A chunk is longer than the limit exactly when it is overlong, and then by four at most unless the budget was negative. */
  lemma {:induction false} PiecesFitExactly(l: Loop, max: int)
    ensures forall p <- Ahead(l, max).pieces :: Measured(p, max)
    decreases |l.rest|
  {
    AheadIs(l, max);
    if Returns(l, max) && l.rest != "" { LastIsMeasured(l, max); }
    hide Ahead, Chunk, Next, Push, TakesNothing, Returns, Measured;
    if !Returns(l, max) && !TakesNothing(Chunk(l, max)) {
      ChunkIsMeasured(l, max);
      PiecesFitExactly(Next(l, max), max);
      PiecesOfPush(Chunk(l, max), Ahead(Next(l, max), max), q => Measured(q, max));
    }
  }

  /** With short fence lines the closing fence is the only excess. */
  lemma PiecesFit(text: string, max: int)
    requires max > 0 && ShortLines(text, max - 2)
    ensures forall p <- SplitForLimit(text, max).pieces :: |Render(p)| <= max + if p.closes then 4 else 0
  {
    ShortFencesMeansShortLines(text, max - 2);
    hide ShortFences, ShortLines, Split, Render;
    if max < |text| {
      var l := Loop(text, None);
      PiecesFitExactly(l, max);
      TameNeverSticks(l, max, max - 2);
    } else {
      assert Render(Piece(None, text, false, 0)) == text by { RenderPlain(text); }
    }
  }

  lemma RenderPlain(text: string)
    ensures Render(Piece(None, text, false, 0)) == text
  {}

  lemma NoFenceIsShort(text: string)
    requires !HasFence(text)
    ensures ShortFences(text, 2)
  {
    hide HasFence;
    forall l | Stretch(text, l) ensures !HasFence(l) {
      var i, j :| 0 <= i <= j <= |text| && text[i..j] == l;
      if HasFence(l) { FenceInside(text, i, j); }
    }
  }

  /** The promise of the source, for every text without a fence marker: each chunk is within the limit. */
  lemma PlainTextFits(text: string, max: int)
    requires max > 0 && !HasFence(text)
    ensures var o := SplitForLimit(text, max); o.Done? && forall p <- o.pieces :: |Render(p)| <= max
  {
    NoFenceIsShort(text);
    hide ShortFences, HasFence, Split, Render;
    if max < |text| {
      var l := Loop(text, None);
      PiecesFitExactly(l, max);
      TameNeverSticks(l, max, 2);
    } else {
      RenderPlain(text);
    }
  }

  // ---- inputs outside the hypotheses, for every limit ----

  function As(n: nat): string {
    seq(n, _ => 'a')
  }

  /** A fence line of this length. */
  function Fence(n: nat): string
    requires n >= 3
  {
    FENCE + As(n - 3)
  }

  lemma FenceIs(n: nat)
    requires n >= 3
    ensures var f := Fence(n); |f| == n && FenceLine(f) && NoNewline(f) && TrimEnd(f) == f && ' ' !in f && Carried(Some(f))
  {
    var f := Fence(n);
    assert f[n - 1] == 'a' || f[n - 1] == '`';
  }

  lemma FenceDangles(n: nat)
    requires n >= 3
    ensures DanglingFence(Fence(n)) == Some(Fence(n))
  {
    FenceIs(n);
    OneLine(Fence(n));
    AfterOne(None, Fence(n));
    hide Lines, AfterAll, TrimEnd;
  }

  /** A window with no break in its later half is cut at its end. */
  lemma HardCut(s: string, n: nat)
    requires 0 < n < |s|
    requires forall i :: n <= 2 * i < 2 * n ==> s[i] != '\n' && s[i] != ' '
    ensures BestCut(s, n) == n
  {
    var window := s[..n];
    assert Taken(s, n) == n;
    assert forall i :: 0 <= i < n ==> window[i] == s[i];
  }

  /** The first piece of a text that is cut hard, inside a line. */
  lemma FirstIsCutHard(text: string, max: int, head: string)
    requires 0 < max < |text| && head == text[..max] && text[max] != '\n'
    requires forall i :: max <= 2 * i < 2 * max ==> text[i] != '\n' && text[i] != ' '
    ensures First(text, None, max) == Piece(None, head, DanglingFence(head).Some?, 0)
  {
    HardCut(text, max);
    FirstIs(text, None, max);
    assert Cut(text, None, max) == max;
    hide BestCut, First, Cut, DanglingFence;
    assert text[max..][0] == text[max];
  }

  /** A whole call, from its first piece on. */
  lemma CallGoesOn(text: string, max: int, p: Piece, rest: string)
    requires 0 < max < |text| && First(text, None, max) == p && p.body != "" && rest == text[|p.body| + p.gap..]
    ensures SplitForLimit(text, max) == Push(p, Split(rest, DanglingFence(p.body), max))
  {
    CallIs(text, max);
    HeadIs(p.body);
    TakesSomething(p);
    GoesOnFrom(text, max, p, rest);
    hide *;
  }

  lemma HeadIs(body: string)
    ensures Head(None, body) == body
  {}

  lemma GoesOnFrom(text: string, max: int, p: Piece, rest: string)
    requires Budget(None, max) < |text| && text != "" && First(text, None, max) == p && !TakesNothing(p)
    requires rest == text[|p.body| + p.gap..]
    ensures Split(text, None, max) == Push(p, Split(rest, DanglingFence(Head(None, p.body)), max))
  {
    hide *;
    SplitGoesOn(text, None, max);
  }

  lemma CallIs(text: string, max: int)
    requires 0 < max < |text|
    ensures SplitForLimit(text, max) == Split(text, None, max) && Budget(None, max) == max
  {
    hide Split;
  }

  lemma OpenedHead(n: nat)
    ensures DanglingFence("```" + "\n" + As(n)) == Some("```")
  {
    LinesJoin("```", As(n));
    OneLine("```");
    OneLine(As(n));
    AfterAllJoin(None, ["```"], [As(n)]);
    AfterOne(None, "```");
    AfterOne(Some("```"), As(n));
    assert TrimEnd("```") == "```";
    hide Lines, AfterAll, TrimEnd;
  }

  function OpenText(max: nat): string {
    "```" + "\n" + As(max)
  }

  lemma OpenTextStart(max: nat)
    requires max >= 7
    ensures var t := OpenText(max);
      |t| == max + 4 && First(t, None, max) == Piece(None, t[..max], true, 0) && |Render(First(t, None, max))| == max + 4
  {
    var t := OpenText(max);
    var head := "```" + "\n" + As(max - 4);
    assert t[..max] == head;
    FirstIsCutHard(t, max, head);
    OpenedHead(max - 4);
    hide First, DanglingFence;
  }

  /** For every limit of seven or more, a chunk that is four characters too long. */
  lemma OverlongChunk(max: nat)
    requires max >= 7
    ensures var o := SplitForLimit(OpenText(max), max); o.pieces != [] && |Render(o.pieces[0])| == max + 4
  {
    OpenTextStart(max);
    AheadIs(Loop(OpenText(max), None), max);
    hide Split, First, OpenText;
  }

  /** A text without any line that starts with a fence marker: its first cut makes one. */
  lemma HardCutOverflows(max: nat)
    requires max >= 7
    ensures var text := As(max) + OpenText(max); var o := SplitForLimit(text, max);
      && (forall l <- Lines(text) :: !FenceLine(l))
      && |o.pieces| > 1 && |Render(o.pieces[1])| == max + 4
  {
    hide Split, SplitForLimit, First, Lines, AfterAll, OpenText, As, Render, DanglingFence, Head, Push, TakesNothing;
    var text, t := As(max) + OpenText(max), OpenText(max);
    NoLineStarts(max);
    ProseStart(max);
    OpenTextStart(max);
    AsIs(max);
    var p, q := Piece(None, As(max), false, 0), First(t, None, max);
    assert text[max..] == t;
    CallGoesOn(text, max, p, t);
    assert !TakesNothing(q) by { TakesSomething(q); }
    SplitGoesOn(t, None, max);
    PushIs(p, Split(t, None, max));
    PushIs(q, Split(t[|q.body| + q.gap..], DanglingFence(Head(None, q.body)), max));
  }

  lemma TakesSomething(p: Piece)
    requires p.body != ""
    ensures !TakesNothing(p)
  {}

  lemma AsIs(n: nat)
    ensures |As(n)| == n && NoNewline(As(n)) && DanglingFence(As(n)) == None
  {
    OneLine(As(n));
    AfterOne(None, As(n));
  }

  lemma ProseStart(max: nat)
    requires max >= 7
    ensures var text := As(max) + OpenText(max); |text| == 2 * max + 4 && First(text, None, max) == Piece(None, As(max), false, 0)
  {
    var text := As(max) + OpenText(max);
    AsIs(max);
    FirstIsCutHard(text, max, As(max));
    hide First, DanglingFence;
  }

  lemma NoLineStarts(max: nat)
    requires max > 0
    ensures forall l <- Lines(As(max) + OpenText(max)) :: !FenceLine(l)
  {
    var first := As(max) + "```";
    assert As(max) + OpenText(max) == first + "\n" + As(max);
    LinesJoin(first, As(max));
    OneLine(first);
    OneLine(As(max));
    assert first[0] == 'a' && As(max)[0] == 'a';
    hide Lines;
  }

  /** For every limit, a fence line one character longer than allowed, and a split that never ends. */
  lemma LongFenceLineSticks(max: nat)
    requires max >= 4
    ensures var text := Fence(max - 1) + "\n" + "xx"; ShortLines(text, max - 1) && SplitForLimit(text, max).Stuck?
  {
    var f := Fence(max - 1);
    var text := f + "\n" + "xx";
    FenceIs(max - 1);
    LinesJoin(f, "xx");
    OneLine(f);
    OneLine("xx");
    assert ShortLines(text, max - 1);
    CutAfterLine(f, max);
    FenceDangles(max - 1);
    assert text[max..] == "xx";
    assert Budget(Some(f), max) == 0;
    hide *;
    CallGoesOn(text, max, Piece(None, f, true, 1), "xx");
    NothingTaken(f, max);
    PushIs(Piece(None, f, true, 1), Split("xx", Some(f), max));
  }

  lemma NothingTaken(f: string, max: nat)
    requires |f| + 1 == max
    ensures Split("xx", Some(f), max).Stuck?
  {
    TakesNothingExactly("xx", Some(f), max);
    SplitStops("xx", Some(f), max);
    hide Split, First;
  }

  lemma CutAfterLine(f: string, max: nat)
    requires max >= 4 && f == Fence(max - 1)
    ensures First(f + "\n" + "xx", None, max) == Piece(None, f, DanglingFence(f).Some?, 1)
  {
    var text := f + "\n" + "xx";
    FenceIs(max - 1);
    LineCut(f, text, max);
    hide First, DanglingFence, LastIndexOf, BestCut, Fence, TrimEnd;
    FirstIs(text, None, max);
    assert Cut(text, None, max) == max - 1;
    assert text[..max - 1] == f && text[max - 1..] == "\n" + "xx";
    assert Newlines("\n" + "xx") == 1 by { assert ("\n" + "xx")[1..] == "xx"; }
  }

  lemma LineCut(f: string, text: string, max: nat)
    requires max >= 4 && |f| == max - 1 && NoNewline(f) && text == f + "\n" + "xx"
    ensures BestCut(text, max) == max - 1
  {
    var w := text[..max];
    assert w == f + "\n";
    NoParagraphHere(w, max - 1);
    LastChar(w, '\n');
    assert w[max - 1] == '\n';
    hide LastIndexOf;
  }

  lemma NoParagraphHere(w: string, n: nat)
    requires |w| == n + 1 && forall i :: 0 <= i < n ==> w[i] != '\n'
    ensures LastIndexOf(w, "\n\n") == -1
  {}

  /** For every limit, a text whose second chunk is cut with a negative budget and is eight characters too long. */
  lemma NegativeBudgetRunsOver(max: nat)
    requires max >= 3
    ensures var f := Fence(max); var second := Piece(Some(f), "aaa", true, 1);
      && SplitForLimit(f + "aaa" + "\n", max) == Done([Piece(None, f, true, 0), second])
      && |Render(second)| == max + 8
  {
    hide *;
    var f := Fence(max);
    var text := f + "aaa" + "\n";
    FenceIs(max);
    LongLineStart(max);
    FenceDangles(max);
    NegativeBudgetTakesAll(f, max);
    assert text[max..] == "aaa" + "\n";
    CallGoesOn(text, max, Piece(None, f, true, 0), "aaa" + "\n");
    SplitsOnce("aaa" + "\n", Some(f), max, Piece(Some(f), "aaa", true, 1));
    PushDone(Piece(None, f, true, 0), [Piece(Some(f), "aaa", true, 1)]);
  }

  lemma LongLineStart(max: nat)
    requires max >= 3
    ensures var text := Fence(max) + "aaa" + "\n"; First(text, None, max) == Piece(None, Fence(max), true, 0)
  {
    var text := Fence(max) + "aaa" + "\n";
    FenceIs(max);
    FenceDangles(max);
    assert text[..max] == Fence(max);
    FirstIsCutHard(text, max, Fence(max));
    hide First, DanglingFence;
  }

  lemma PushDone(p: Piece, ps: seq<Piece>)
    ensures Push(p, Done(ps)) == Done([p] + ps)
  {}

  /** One iteration takes all that is left. */
  lemma SplitsOnce(rest: string, open: Option<string>, max: int, p: Piece)
    requires Budget(open, max) < |rest| && First(rest, open, max) == p && |p.body| + p.gap == |rest| && p.body != ""
    ensures Split(rest, open, max) == Done([p])
  {
    SplitGoesOn(rest, open, max);
    hide First, DanglingFence, Head;
    assert rest[|rest|..] == "";
    SplitStops("", DanglingFence(Head(open, p.body)), max);
    hide Split;
    PushDone(p, []);
    assert [p] + [] == [p];
  }

  lemma NegativeBudgetTakesAll(f: string, max: nat)
    requires max >= 3 && f == Fence(max)
    ensures First("aaa" + "\n", Some(f), max) == Piece(Some(f), "aaa", true, 1)
    ensures Budget(Some(f), max) == -1 && |Render(Piece(Some(f), "aaa", true, 1))| == max + 8
  {
    var rest := "aaa" + "\n";
    FenceIs(max);
    var w := rest[..3];
    assert w == "aaa";
    LastChar(w, '\n');
    LastChar(w, ' ');
    NoParagraphWithoutLine(w);
    hide LastIndexOf;
    assert Cut(rest, Some(f), max) == 3;
    FirstIs(rest, Some(f), max);
    ReopenedState(Some(f), "aaa");
    OneLine("aaa");
    AfterOne(Some(f), "aaa");
    hide First, Cut, Lines, AfterAll, TrimEnd, Fence, Head, DanglingFence;
    assert rest[3..] == "\n";
    assert Newlines("\n") == 1;
  }
}
