/** What splitting keeps: the text and the meaning of its code fences. */
module SplitProofs {
  import opened Basics
  import opened SplitLimits
  import opened SplitModel

  // ---- the pieces of a finished split ----

  function Gap(n: nat): string {
    seq(n, _ => '\n')
  }

  /** The text the pieces stand for: their bodies with the dropped newlines put back. */
  function Source(ps: seq<Piece>): string {
    if ps == [] then "" else ps[0].body + Gap(ps[0].gap) + Source(ps[1..])
  }

  /**
   * Each piece reopens what the one before left open and closes it again; only the last may be left
   * as it is, when all of the remaining text fits.
   */
  ghost predicate Linked(ps: seq<Piece>, open: Option<string>)
    decreases |ps|
  {
    ps != [] ==>
      && ps[0].open == open
      && (|| (|ps| == 1 && !ps[0].closes && ps[0].gap == 0)
          || (var next := DanglingFence(Head(open, ps[0].body));
              ps[0].closes == next.Some? && Linked(ps[1..], next)))
  }

  lemma GapAt(rest: string, cut: nat, n: nat)
    requires cut + n <= |rest| && forall i :: 0 <= i < n ==> rest[cut..][i] == '\n'
    ensures rest == rest[..cut] + Gap(n) + rest[cut + n..]
  {
    var g := rest[cut..cut + n];
    assert g == rest[cut..][..n];
    assert g == Gap(n);
  }

  lemma ChunkHoldsItsPart(l: Loop, max: int)
    requires !Returns(l, max)
    ensures var p := Chunk(l, max); l.rest == p.body + Gap(p.gap) + Next(l, max).rest
    ensures var p := Chunk(l, max); p.open == l.open && Next(l, max).open == DanglingFence(Head(p.open, p.body))
    ensures Chunk(l, max).closes <==> Next(l, max).open.Some?
  {
    hide Cut, DanglingFence, Head;
    var p := Chunk(l, max);
    FirstIs(l.rest, l.open, max);
    hide First;
    GapAt(l.rest, |p.body|, p.gap);
  }

  lemma SourceGrows(p: Piece, ps: seq<Piece>)
    ensures Source([p] + ps) == p.body + Gap(p.gap) + Source(ps)
  {
    assert ([p] + ps)[1..] == ps;
  }

  /** Bodies and dropped newlines together are the text. */
  lemma {:induction false} SplitLosesNothing(l: Loop, max: int)
    requires Ahead(l, max).Done?
    ensures Source(Ahead(l, max).pieces) == l.rest
    decreases |l.rest|
  {
    AheadIs(l, max);
    LoneSource(l.open, l.rest);
    hide Ahead, Returns, Chunk, Next, Push, TakesNothing, Source;
    if !Returns(l, max) {
      var p, o := Chunk(l, max), Ahead(Next(l, max), max);
      PushIs(p, o);
      SplitLosesNothing(Next(l, max), max);
      SourceGrows(p, o.pieces);
      ChunkHoldsItsPart(l, max);
    }
  }

  lemma LoneSource(open: Option<string>, rest: string)
    ensures Source([Piece(open, rest, false, 0)]) == rest && Source([]) == ""
  {
    SourceGrows(Piece(open, rest, false, 0), []);
    assert [Piece(open, rest, false, 0)] + [] == [Piece(open, rest, false, 0)];
    assert Gap(0) == "";
  }

  lemma {:induction false} PiecesAreLinked(l: Loop, max: int)
    requires Ahead(l, max).Done?
    ensures Linked(Ahead(l, max).pieces, l.open)
    decreases |l.rest|
  {
    AheadIs(l, max);
    hide Ahead, Returns, Chunk, Next, Push, TakesNothing;
    if !Returns(l, max) {
      hide Linked;
      var p, o := Chunk(l, max), Ahead(Next(l, max), max);
      PushIs(p, o);
      PiecesAreLinked(Next(l, max), max);
      ChunkHoldsItsPart(l, max);
      LinkOne(p, o.pieces);
    }
  }

  lemma LinkOne(p: Piece, ps: seq<Piece>)
    requires var next := DanglingFence(Head(p.open, p.body)); p.closes == next.Some? && Linked(ps, next)
    ensures Linked([p] + ps, p.open)
  {
    assert ([p] + ps)[1..] == ps;
  }

  /** Every chunk but the last ends with no fence open, and the next starts by reopening what it closed. */
  lemma {:induction false} OnlyTheLastMayDangle(ps: seq<Piece>, open: Option<string>, i: nat)
    requires Linked(ps, open) && i + 1 < |ps|
    ensures DanglingFence(Render(ps[i])).None?
    ensures ps[i + 1].open == DanglingFence(Head(ps[i].open, ps[i].body))
    ensures ps[i + 1].open.Some? <==> ps[i].closes
    decreases |ps|
  {
    var head := Head(ps[0].open, ps[0].body);
    if i == 0 {
      if ps[0].closes {
        ClosedState(head);
        assert Render(ps[0]) == head + "\n" + FENCE;
      } else {
        assert Render(ps[0]) == head;
      }
    } else {
      OnlyTheLastMayDangle(ps[1..], DanglingFence(head), i - 1);
    }
  }

  // ---- what a reader sees inside and outside of code blocks ----

  /** A line, and the fence state it is read in. */
  datatype Tagged = Tagged(state: Option<string>, line: string)

  function Tags(open: Option<string>, ls: seq<string>): seq<Tagged> {
    if ls == [] then []
    else
      var n := |ls| - 1;
      Tags(open, ls[..n]) + [Tagged(AfterAll(open, ls[..n]), ls[n])]
  }

  lemma {:induction false} TagsJoin(open: Option<string>, a: seq<string>, b: seq<string>)
    ensures Tags(open, a + b) == Tags(open, a) + Tags(AfterAll(open, a), b)
    decreases |b|
  {
    if b == [] {
      assert a + b == a;
    } else {
      var n := |b| - 1;
      TagsJoin(open, a, b[..n]);
      AfterAllJoin(open, a, b[..n]);
      assert (a + b)[..|a + b| - 1] == a + b[..n];
    }
  }

  function EmptyLines(n: nat): seq<string> {
    seq(n, _ => "")
  }

  /** All cuts fall on newlines: something is dropped after every piece but the last. */
  predicate CutAtNewlines(ps: seq<Piece>) {
    forall i :: 0 <= i < |ps| - 1 ==> ps[i].gap > 0
  }

  /** The lines of the text as the chunks show them, with the blank lines dropped between chunks put back. */
  function ShownTags(ps: seq<Piece>): seq<Tagged> {
    if ps == [] then []
    else if |ps| == 1 then Tags(ps[0].open, Lines(ps[0].body + Gap(ps[0].gap)))
    else
      var next := AfterAll(ps[0].open, Lines(ps[0].body));
      Tags(ps[0].open, Lines(ps[0].body))
      + Tags(next, EmptyLines(if ps[0].gap > 0 then ps[0].gap - 1 else 0))
      + ShownTags(ps[1..])
  }

  lemma {:induction false} GapLines(n: nat)
    ensures Lines(Gap(n)) == EmptyLines(n + 1)
  {
    if n == 0 {
      OneLine("");
      assert Gap(0) == "" && EmptyLines(1) == [""];
    } else {
      assert Gap(n) == "" + "\n" + Gap(n - 1);
      LinesJoin("", Gap(n - 1));
      OneLine("");
      GapLines(n - 1);
      assert EmptyLines(n + 1) == [""] + EmptyLines(n);
    }
  }

  lemma {:induction false} EmptyLinesKeepState(open: Option<string>, n: nat)
    ensures AfterAll(open, EmptyLines(n)) == open
  {
    if n > 0 {
      assert EmptyLines(n)[..n - 1] == EmptyLines(n - 1);
      EmptyLinesKeepState(open, n - 1);
    }
  }

  lemma LinesAcrossGap(body: string, gap: nat, rest: string)
    requires gap > 0
    ensures Lines(body + Gap(gap) + rest) == Lines(body) + EmptyLines(gap - 1) + Lines(rest)
  {
    if gap == 1 {
      assert body + Gap(gap) + rest == body + "\n" + rest;
      LinesJoin(body, rest);
      assert EmptyLines(0) == [];
    } else {
      var middle := Gap(gap - 2);
      assert body + Gap(gap) + rest == body + "\n" + (middle + "\n" + rest);
      LinesJoin(body, middle + "\n" + rest);
      LinesJoin(middle, rest);
      GapLines(gap - 2);
    }
  }

  /**
   * When all cuts fall on newlines, every line of the text is shown in some chunk, in order, and is in
   * the same fence state there as in the text: code stays code and prose stays prose.
   */
  lemma {:induction false} FenceMeaningKept(ps: seq<Piece>, open: Option<string>)
    requires Linked(ps, open) && Carried(open) && CutAtNewlines(ps) && ps != []
    ensures ShownTags(ps) == Tags(open, Lines(Source(ps)))
    decreases |ps|
  {
    if |ps| == 1 {
      assert Source(ps[1..]) == "";
      assert Source(ps) == ps[0].body + Gap(ps[0].gap);
    } else {
      var p := ps[0];
      var next := AfterAll(open, Lines(p.body));
      ReopenedState(open, p.body);
      assert CutAtNewlines(ps[1..]) by {
        forall i | 0 <= i < |ps[1..]| - 1 ensures ps[1..][i].gap > 0 { assert ps[i + 1].gap > 0; }
      }
      FenceMeaningKept(ps[1..], next);
      LinesAcrossGap(p.body, p.gap, Source(ps[1..]));
      EmptyLinesKeepState(next, p.gap - 1);
      AcrossGap(open, Lines(p.body), EmptyLines(p.gap - 1), Lines(Source(ps[1..])));
    }
  }

  lemma AcrossGap(open: Option<string>, a: seq<string>, b: seq<string>, c: seq<string>)
    ensures Tags(open, a + b + c) == Tags(open, a) + Tags(AfterAll(open, a), b) + Tags(AfterAll(AfterAll(open, a), b), c)
  {
    TagsJoin(open, a + b, c);
    TagsJoin(open, a, b);
    AfterAllJoin(open, a, b);
  }

  /** What a chunk itself shows: its lines in their states, between the reopening line and the closing line. */
  lemma ChunkShows(p: Piece)
    requires Carried(p.open)
    ensures var inner := Tags(p.open, Lines(p.body));
      Tags(None, Lines(Render(p)))
      == (if p.open.Some? then [Tagged(None, p.open.value)] else [])
         + inner
         + (if p.closes then [Tagged(AfterAll(p.open, Lines(p.body)), FENCE)] else [])
  {
    var head := Head(p.open, p.body);
    HeadShows(p.open, p.body);
    ReopenedState(p.open, p.body);
    if p.closes {
      LinesJoin(head, FENCE);
      OneLine(FENCE);
      assert Render(p) == head + "\n" + FENCE;
      TagsJoin(None, Lines(head), [FENCE]);
      OneTag(DanglingFence(head), FENCE);
    } else {
      assert Render(p) == head;
    }
  }

  lemma OneTag(open: Option<string>, l: string)
    ensures Tags(open, [l]) == [Tagged(open, l)]
  {
    assert [l][..0] == [];
  }

  lemma HeadShows(open: Option<string>, body: string)
    requires Carried(open)
    ensures Tags(None, Lines(Head(open, body)))
         == (if open.Some? then [Tagged(None, open.value)] else []) + Tags(open, Lines(body))
  {
    if open.Some? {
      assert Head(open, body) == open.value + "\n" + body;
      LinesJoin(open.value, body);
      OneLine(open.value);
      TagsJoin(None, [open.value], Lines(body));
      OneTag(None, open.value);
      AfterOne(None, open.value);
    } else {
      assert Head(open, body) == body;
    }
  }

  /** Everything together, for a whole call. */
  lemma SplitKeepsTheText(text: string, max: int)
    requires max > 0 && ShortLines(text, max - 2)
    ensures var o := SplitForLimit(text, max);
      && o.Done?
      && Source(o.pieces) == text
      && (forall p <- o.pieces :: |Render(p)| <= max + if p.closes then 4 else 0)
      && Linked(o.pieces, None)
      && (CutAtNewlines(o.pieces) && o.pieces != [] ==> ShownTags(o.pieces) == Tags(None, Lines(text)))
  {
    var o := SplitForLimit(text, max);
    SplitTerminates(text, max);
    PiecesFit(text, max);
    if max < |text| {
      SplitLosesNothing(Loop(text, None), max);
      PiecesAreLinked(Loop(text, None), max);
    } else {
      LoneSource(None, text);
    }
    if CutAtNewlines(o.pieces) && o.pieces != [] { FenceMeaningKept(o.pieces, None); }
  }

  lemma {:induction false} TrimEndJoin(a: string, b: string)
    ensures TrimEnd(a + b) == if TrimEnd(b) == "" then TrimEnd(a) else a + TrimEnd(b)
    decreases |b|
  {
    if b == "" {
      assert a + b == a;
    } else if IsSpace(b[|b| - 1]) {
      TrimEndJoin(a, b[..|b| - 1]);
      TrimEndStep(b);
      DropLast(a, b);
      hide TrimEnd;
    } else {
      assert TrimEnd(b) == b && (a + b)[|a + b| - 1] == b[|b| - 1];
      hide IsSpace;
    }
  }

  lemma DropLast(a: string, b: string)
    requires b != "" && IsSpace(b[|b| - 1])
    ensures TrimEnd(a + b) == TrimEnd(a + b[..|b| - 1])
  {
    hide TrimEnd, IsSpace;
    var s := a + b;
    assert s[|s| - 1] == b[|b| - 1] && s[..|s| - 1] == a + b[..|b| - 1];
    TrimEndStep(s);
  }

  lemma TrimEndStep(s: string)
    requires s != "" && IsSpace(s[|s| - 1])
    ensures TrimEnd(s) == TrimEnd(s[..|s| - 1])
  {
    hide IsSpace;
  }

  /**
   * A cut inside the line `a + b`, behind its part `a`: the rest of the text starts in the fence state it has
   * in the source if and only if the cut neither makes nor hides a fence line, or falls into the blank end of
   * an opening one, or into the backticks of a closing one.
   */
  lemma HardCutKeepsStateExactly(open: Option<string>, a: string, b: string)
    requires a != ""
    ensures After(After(open, a), b) == After(open, a + b) <==>
      if FenceLine(a) then !FenceLine(b) && (open.Some? || TrimEnd(b) == "")
      else if FenceLine(b) then FenceLine(a + b) && open.Some?
      else !FenceLine(a + b)
  {
    TrimEndJoin(a, b);
    if FenceLine(b) { TrimEndKeepsFence(b); }
    assert FenceLine(a) ==> FenceLine(a + b) by {
      if FenceLine(a) { assert (a + b)[..3] == a[..3]; }
    }
    hide TrimEnd;
  }

  const Mixed := "aaaa\nbbbbb```"

  /** A cut inside a line can turn prose into the start of a code block. */
  lemma HardCutCanOpenAFence()
    ensures ShortFences(Mixed, 8) && DanglingFence(Mixed) == None
    ensures SplitForLimit(Mixed, 10).pieces == [Piece(None, "aaaa\nbbbbb", false, 0), Piece(None, "```", false, 0)]
    ensures DanglingFence(Render(Piece(None, "```", false, 0))) == Some("```")
  {
    hide SplitForLimit, ShortFences, DanglingFence;
    SecondLineIsProse(Mixed);
    StretchesAreEight(Mixed);
    var head, tail := "aaaa\nbbbbb", "```";
    assert Mixed == head + tail;
    MixedSplits(Mixed, head, tail);
    assert Render(Piece(None, tail, false, 0)) == tail;
    LoneFence();
  }

  lemma MixedSplits(text: string, head: string, tail: string)
    requires head == "aaaa\nbbbbb" && tail == "```" && text == head + tail
    ensures SplitForLimit(text, 10).pieces == [Piece(None, head, false, 0), Piece(None, tail, false, 0)]
  {
    HeadIsProse(head);
    FirstIsCutHard(text, 10, head);
    assert text[10..] == tail;
    SplitStops(tail, None, 10);
    hide *;
    CallGoesOn(text, 10, Piece(None, head, false, 0), tail);
    PushDone(Piece(None, head, false, 0), [Piece(None, tail, false, 0)]);
  }

  lemma LoneFence()
    ensures DanglingFence("```") == Some("```")
  {
    OneLine("```");
    AfterOne(None, "```");
    assert TrimEnd("```") == "```";
  }

  lemma HeadIsProse(head: string)
    requires head == "aaaa\nbbbbb"
    ensures DanglingFence(head) == None
  {
    assert head == "aaaa" + "\n" + "bbbbb";
    LinesJoin("aaaa", "bbbbb");
    OneLine("aaaa");
    OneLine("bbbbb");
    AfterAllJoin(None, ["aaaa"], ["bbbbb"]);
    AfterOne(None, "aaaa");
    AfterOne(None, "bbbbb");
  }

  lemma SecondLineIsProse(rest: string)
    requires rest == "aaaa\nbbbbb```"
    ensures DanglingFence(rest) == None
  {
    assert rest == "aaaa" + "\n" + "bbbbb```";
    LinesJoin("aaaa", "bbbbb```");
    OneLine("aaaa");
    OneLine("bbbbb```");
    AfterAllJoin(None, ["aaaa"], ["bbbbb```"]);
    AfterOne(None, "aaaa");
    AfterOne(None, "bbbbb```");
  }

  lemma StretchesAreEight(rest: string)
    requires rest == "aaaa\nbbbbb```"
    ensures ShortFences(rest, 8)
  {
    forall l | Stretch(rest, l) && HasFence(l) ensures |l| <= 8 {
      var i, j :| 0 <= i <= j <= |rest| && rest[i..j] == l;
      NewlineOutside(rest, l, i, j, 4);
    }
  }

}
