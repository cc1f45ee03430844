/** The splitter as it runs (apps/gateway/src/render/split.ts). */
module Split {
  import opened Basics
  import M = SplitModel

  /** `danglingFence`: one pass over the lines. */
  method DanglingFence(text: string) returns (open: Option<string>)
    ensures open == M.DanglingFence(text)
  {
    var lines := M.Lines(text);
    open := None;
    for i := 0 to |lines|
      invariant open == M.AfterAll(None, lines[..i])
    {
      assert lines[..i + 1][..i] == lines[..i];
      if M.FENCE <= lines[i] {
        open := if open.None? then Some(TrimEnd(lines[i])) else None;
      }
    }
    assert lines[..|lines|] == lines;
  }

  /** `bestCut`, with the three searches in its window. */
  method BestCut(s: string, budget: int) returns (cut: int)
    requires budget < |s|
    ensures cut == M.BestCut(s, budget)
  {
    var window := s[..Taken(s, budget)];
    var para := LastIndexOf(window, "\n\n");
    if 2 * para >= budget { return para; }
    var line := LastIndexOf(window, "\n");
    if 2 * line >= budget { return line; }
    var space := LastIndexOf(window, " ");
    if 2 * space >= budget { return space; }
    return budget;
  }

  /** The body of the loop, when the rest does not fit; `left` is all of `rest` when nothing was taken. */
  method NextChunk(rest: string, openFence: Option<string>, max: int)
    returns (chunk: string, left: string, fence: Option<string>, ghost p: M.Piece)
    requires M.Budget(openFence, max) < |rest| && rest != ""
    ensures p == M.First(rest, openFence, max) && chunk == M.Render(p)
    ensures left == rest[|p.body| + p.gap..]
    ensures fence == M.DanglingFence(M.Head(openFence, p.body))
  {
    hide M.DanglingFence, M.Newlines, M.Head;
    M.FirstIs(rest, openFence, max);
    var cut := BestCut(rest, M.Budget(openFence, max));
    hide M.BestCut, M.First;
    var k := Taken(rest, cut);
    var gap := M.Newlines(rest[k..]);
    var head := M.Head(openFence, rest[..k]);
    fence := DanglingFence(head);
    p := M.First(rest, openFence, max);
    chunk := if fence.Some? then head + "\n" + M.FENCE else head;
    left := rest[k + gap..];
  }

  /** The pieces already split off, in front of the split of the rest, are the split of the text. */
  ghost predicate Ahead(ps: seq<M.Piece>, rest: string, open: Option<string>, text: string, max: int) {
    var o := M.Split(rest, open, max);
    M.Split(text, None, max) == o.(pieces := ps + o.pieces)
  }

  lemma ChunksGrow(ps: seq<M.Piece>, p: M.Piece)
    ensures M.Chunks(ps + [p]) == M.Chunks(ps) + [M.Render(p)]
  {}

  lemma AheadStarts(text: string, max: int)
    ensures Ahead([], text, None, text, max) && M.Chunks([]) == []
  {}

  lemma AheadGoesOn(ps: seq<M.Piece>, rest: string, open: Option<string>, text: string, max: int)
    requires Ahead(ps, rest, open, text, max) && rest != "" && M.Budget(open, max) < |rest|
    requires !M.TakesNothing(M.First(rest, open, max))
    ensures var p := M.First(rest, open, max);
      && Ahead(ps + [p], rest[|p.body| + p.gap..], M.DanglingFence(M.Head(open, p.body)), text, max)
      && M.Chunks(ps + [p]) == M.Chunks(ps) + [M.Render(p)]
  {
    hide M.Split, M.First, M.DanglingFence, M.Head, M.Render, M.Chunks, M.Push, M.TakesNothing, M.Budget;
    var p := M.First(rest, open, max);
    M.SplitGoesOn(rest, open, max);
    ChunksGrow(ps, p);
    PushAhead(ps, p, M.Split(rest[|p.body| + p.gap..], M.DanglingFence(M.Head(open, p.body)), max));
  }

  lemma PushAhead(ps: seq<M.Piece>, p: M.Piece, o: M.Outcome)
    ensures var q := M.Push(p, o); q.(pieces := ps + q.pieces) == o.(pieces := ps + [p] + o.pieces)
  {
    assert ps + ([p] + o.pieces) == ps + [p] + o.pieces;
  }

  lemma AheadStops(ps: seq<M.Piece>, rest: string, open: Option<string>, text: string, max: int)
    requires Ahead(ps, rest, open, text, max)
    ensures var o := M.Split(text, None, max);
      && (rest == "" ==> o == M.Done(ps))
      && (rest != "" && |rest| <= M.Budget(open, max) ==>
            o.Done? && M.Chunks(o.pieces) == M.Chunks(ps) + [M.Head(open, rest)])
      && (rest != "" && M.Budget(open, max) < |rest| && M.TakesNothing(M.First(rest, open, max)) ==>
            o == M.Stuck(ps, open, rest))
  {
    M.SplitStops(rest, open, max);
    assert M.Render(M.Piece(open, rest, false, 0)) == M.Head(open, rest);
    ChunksGrow(ps, M.Piece(open, rest, false, 0));
    hide M.Split, M.First, M.Head, M.Render, M.Chunks;
    assert ps + [] == ps;
  }

  /** What an iteration sees is what the model sees. */
  lemma SameTests(open: Option<string>, max: int, p: M.Piece)
    ensures M.Budget(open, max) == max - if open.Some? then |open.value| + 1 else 0
    ensures M.TakesNothing(p) <==> |p.body| + p.gap == 0
  {}

  /** The loop of `splitForLimit`. */
  method SplitLong(text: string, max: int) returns (chunks: seq<string>, stuck: bool)
    ensures stuck <==> M.Split(text, None, max).Stuck?
    ensures chunks == M.Chunks(M.Split(text, None, max).pieces)
  {
    chunks, stuck := [], false;
    var rest := text;
    var openFence: Option<string> := None;
    ghost var ps: seq<M.Piece> := [];
    AheadStarts(text, max);
    hide *;
    while |rest| > 0
      invariant Ahead(ps, rest, openFence, text, max)
      invariant chunks == M.Chunks(ps)
      decreases |rest|
    {
      var budget := max - if openFence.Some? then |openFence.value| + 1 else 0;
      SameTests(openFence, max, M.Piece(None, "", false, 0));
      if |rest| <= budget {
        AheadStops(ps, rest, openFence, text, max);
        chunks := chunks + [M.Head(openFence, rest)];
        return;
      }
      var chunk, left, fence, p := NextChunk(rest, openFence, max);
      SameTests(openFence, max, p);
      if |left| == |rest| {
        AheadStops(ps, rest, openFence, text, max);
        stuck := true;
        return;
      }
      AheadGoesOn(ps, rest, openFence, text, max);
      chunks := chunks + [chunk];
      ps := ps + [p];
      rest, openFence := left, fence;
    }
    AheadStops(ps, rest, openFence, text, max);
  }

  /** `splitForLimit`. `stuck` marks the point from which the source's loop takes nothing, for ever. */
  method SplitForLimit(text: string, max: int) returns (chunks: seq<string>, stuck: bool)
    ensures stuck <==> M.SplitForLimit(text, max).Stuck?
    ensures chunks == M.Chunks(M.SplitForLimit(text, max).pieces)
  {
    ghost var whole := M.Piece(None, text, false, 0);
    assert M.Chunks([whole]) == [text] && M.Chunks([]) == [];
    hide M.Split, M.Chunks;
    if max <= 0 { return [text], false; }
    if |text| <= max {
      if |text| > 0 { return [text], false; } else { return [], false; }
    }
    chunks, stuck := SplitLong(text, max);
  }
}
