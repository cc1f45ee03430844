/** Where a text is cut (apps/gateway/src/render/split.ts): the preference of paragraph over line over word. */
module SplitCuts {
  import opened Basics
  import opened SplitModel
  import opened SplitLimits
  import opened SplitProofs

  /** The pattern stands at `i`, not before half of the budget, and whole within it. */
  predicate BreakAt(s: string, b: nat, pat: string, i: int) {
    b <= 2 * i && 0 <= i && i + |pat| <= b <= |s| && s[i..i + |pat|] == pat
  }

  ghost predicate HasBreak(s: string, b: nat, pat: string) {
    exists i :: BreakAt(s, b, pat, i)
  }

  ghost predicate LastBreak(s: string, b: nat, pat: string, i: int) {
    BreakAt(s, b, pat, i) && forall j :: i < j ==> !BreakAt(s, b, pat, j)
  }

  /** A cut behind `n` characters: at the last paragraph in reach, else line, else space, else at the budget. */
  ghost predicate NaturalCut(s: string, b: nat, n: int) {
    if HasBreak(s, b, "\n\n") then LastBreak(s, b, "\n\n", n)
    else if HasBreak(s, b, "\n") then LastBreak(s, b, "\n", n)
    else if HasBreak(s, b, " ") then LastBreak(s, b, " ", n)
    else n == b
  }

  lemma SearchIs(s: string, b: nat, pat: string)
    requires 0 < b <= |s| && pat != ""
    ensures var i := LastIndexOf(s[..b], pat);
      (2 * i >= b <==> HasBreak(s, b, pat)) && (2 * i >= b ==> LastBreak(s, b, pat, i))
  {
    var window := s[..b];
    var i := LastIndexOf(window, pat);
    forall j | 0 <= j && j + |pat| <= b ensures pat <= window[j..] <==> s[j..j + |pat|] == pat {
      assert window[j..][..|pat|] == s[j..j + |pat|];
    }
    hide LastIndexOf;
    if 2 * i >= b { assert BreakAt(s, b, pat, i); }
    forall j | BreakAt(s, b, pat, j) ensures j <= i { assert pat <= window[j..]; }
  }

  lemma BestCutIsNatural(s: string, b: nat)
    requires 0 < b < |s|
    ensures NaturalCut(s, b, BestCut(s, b)) && 0 < BestCut(s, b) <= b
  {
    assert Taken(s, b) == b;
    SearchIs(s, b, "\n\n");
    SearchIs(s, b, "\n");
    SearchIs(s, b, " ");
    hide LastIndexOf, HasBreak, LastBreak;
  }

  /**
   * The first of the pieces takes all that is left if that fits; otherwise it is cut where the preference says,
   * and no newline is left in front of what follows.
   */
  ghost predicate CutWell(ps: seq<Piece>, max: int)
    requires ps != []
  {
    var rest, b := Source(ps), Budget(ps[0].open, max);
    b > 0 ==>
      if |rest| <= b then ps[0].body == rest && |ps| == 1
      else
        && NaturalCut(rest, b, |ps[0].body|)
        && (Source(ps[1..]) == "" || Source(ps[1..])[0] != '\n')
  }

  lemma ChunkCutWell(l: Loop, max: int, ps: seq<Piece>)
    requires !Returns(l, max) && Source(ps) == Next(l, max).rest && Source([Chunk(l, max)] + ps) == l.rest
    ensures CutWell([Chunk(l, max)] + ps, max)
  {
    var p, b := Chunk(l, max), Budget(l.open, max);
    FirstIs(l.rest, l.open, max);
    assert ([p] + ps)[1..] == ps;
    if b > 0 {
      BestCutIsNatural(l.rest, b);
      hide BestCut, NaturalCut, Source, DanglingFence, Newlines, Head, First;
      assert |p.body| == BestCut(l.rest, b);
    }
  }

  lemma LastCutWell(l: Loop, max: int)
    requires Returns(l, max) && l.rest != ""
    ensures CutWell([Piece(l.open, l.rest, false, 0)], max)
  {
    LoneSource(l.open, l.rest);
    hide Source;
  }

  lemma {:induction false} LoopCutsWell(l: Loop, max: int, i: nat)
    requires Ahead(l, max).Done? && i < |Ahead(l, max).pieces|
    ensures CutWell(Ahead(l, max).pieces[i..], max)
    decreases |l.rest|
  {
    AheadIs(l, max);
    hide Ahead, Chunk, Next, Push, TakesNothing, CutWell, Source;
    var ps := Ahead(l, max).pieces;
    if Returns(l, max) {
      LastCutWell(l, max);
      assert ps[0..] == ps;
    } else {
      var o := Ahead(Next(l, max), max);
      hide Returns;
      PushIs(Chunk(l, max), o);
      assert ps == [Chunk(l, max)] + o.pieces;
      if i == 0 {
        SplitLosesNothing(l, max);
        SplitLosesNothing(Next(l, max), max);
        ChunkCutWell(l, max, o.pieces);
        assert ps[0..] == ps;
      } else {
        LoopCutsWell(Next(l, max), max, i - 1);
        assert ps[i..] == o.pieces[i - 1..];
      }
    }
  }

  /** Every chunk of every split that ends. */
  lemma ChunksAreCutWell(text: string, max: int, i: nat)
    requires 0 < max < |text|
    requires var o := SplitForLimit(text, max); o.Done? && i < |o.pieces|
    ensures CutWell(SplitForLimit(text, max).pieces[i..], max)
  {
    hide Split;
    LoopCutsWell(Loop(text, None), max, i);
  }

  /** What is not split: a text within the limit, and any text where the limit is zero or less. */
  lemma ShortTextsAreWhole(text: string, max: int)
    requires max <= 0 || |text| <= max
    ensures SplitForLimit(text, max).Done?
    ensures Chunks(SplitForLimit(text, max).pieces) == if max > 0 && text == "" then [] else [text]
  {
    hide Split;
  }
}
