/**
 * What a clean-up leaves, in the names of directories and files alone
 * (skills/pptx/scripts/clean.py).
 */
module CleanOutcome {
  import opened Basics
  import opened CleanModel
  import opened CleanSlides

  // ---- the sweep ----

  lemma SupportGrows(base: set<Path>, files: set<Path>, more: set<Path>, links: Links, p: Path)
    requires files <= more && Supported(base, files, links, p)
    ensures Supported(base, more, links, p)
  {
    if OwnedRels(p) {
      var r :| r in files && RelsOf(r, SLIDES) && r in links && OwnerOf(p) in links[r];
      assert r in more;
    }
    if Managed(p) {
      var r :| r in files && IsRels(r) && r in links && p in links[r];
      assert r in more;
    }
  }

  /** The sweep leaves exactly the files that have what they need among those left. */
  lemma LeftExactly(base: set<Path>, files: set<Path>, links: Links, p: Path)
    requires Greatest(base, files, links)
    ensures p in files <==> p in base && Supported(base, files, links, p)
  {
    if p in base && Supported(base, files, links, p) {
      var x := files + {p};
      forall q <- x ensures Supported(base, x, links, q) {
        assert Supported(base, files, links, q);
        SupportGrows(base, files, x, links, q);
      }
      assert SelfSupporting(base, x, links);
    }
  }

  predicate RelsName(n: string) {
    |n| >= 5 && n[|n| - 5..] == ".rels"
  }

  /** Some relationships file that is left points at the part. */
  ghost predicate PointedAt(files: set<Path>, links: Links, p: Path) {
    exists r :: r in files && r != [] && RelsName(r[|r| - 1]) && r in links && p in links[r]
  }

  /** So does the relationships file of some slide. */
  ghost predicate OnASlide(files: set<Path>, links: Links, p: Path) {
    exists n :: RelsName(n) && (var r := ["ppt", "slides", "_rels", n]; r in files && r in links && p in links[r])
  }

  predicate ThemeName(n: string) {
    |n| >= 9 && n[..5] == "theme" && n[|n| - 4..] == ".xml"
  }

  /** The parts that need a pointer: anything in seven directories, themes and notes. */
  predicate Swept(dir: string, n: string) {
    || dir == "media" || dir == "embeddings" || dir == "charts" || dir == "diagrams" || dir == "tags"
    || dir == "drawings" || dir == "ink"
    || (dir == "theme" && ThemeName(n))
    || (dir == "notesSlides" && |n| >= 4 && n[|n| - 4..] == ".xml")
  }

  lemma InPpt(p: Path, dir: string)
    ensures InDir(p, PPT + [dir]) <==> |p| == 3 && p[0] == "ppt" && p[1] == dir
  {
    if |p| == 3 {
      assert p[..2] == [p[0], p[1]];
      assert PPT + [dir] == ["ppt", dir];
    }
  }

  lemma InRelsOf(p: Path, dir: string)
    ensures InDir(p, RelsDir(PPT + [dir])) <==> |p| == 4 && p[0] == "ppt" && p[1] == dir && p[2] == "_rels"
  {
    if |p| == 4 {
      assert p[..3] == [p[0], p[1], p[2]];
      assert RelsDir(PPT + [dir]) == ["ppt", dir, "_rels"];
    }
  }

  lemma SweptIsManaged(dir: string, n: string)
    ensures Managed(["ppt", dir, n]) <==> Swept(dir, n)
  {
    var p := ["ppt", dir, n];
    forall d ensures InDir(p, PPT + [d]) <==> d == dir { InPpt(p, d); }
    assert THEME == PPT + ["theme"] && NOTES == PPT + ["notesSlides"];
  }

  lemma TargetIs(files: set<Path>, links: Links, p: Path)
    ensures TargetOf(files, links, p) <==> PointedAt(files, links, p)
  {}

  lemma PartsAreNoRels(p: Path)
    requires |p| == 3
    ensures !OwnedRels(p) && !RelsOf(p, NOTES) && forall t | ThemePart(t) :: ThemeRels(t) != p
  {
    assert forall t | ThemePart(t) :: |ThemeRels(t)| == 4;
  }

  /** A part is left if and only if it was there and, where it needs a pointer, a relationships file that is left has one. */
  lemma PartLeftExactly(base: set<Path>, files: set<Path>, links: Links, dir: string, n: string)
    requires Greatest(base, files, links)
    ensures var p := ["ppt", dir, n]; p in files <==> p in base && (Swept(dir, n) ==> PointedAt(files, links, p))
  {
    hide Greatest, Managed, OwnedRels, RelsOf, ThemePart, ThemeRels, TargetOf, PointedAt, Swept, SlideTargetOf, Owner;
    var p := ["ppt", dir, n];
    LeftExactly(base, files, links, p);
    SweptIsManaged(dir, n);
    TargetIs(files, links, p);
    PartsAreNoRels(p);
  }

  predicate Resource(dir: string) {
    dir == "charts" || dir == "diagrams" || dir == "drawings"
  }

  lemma SlideTargetIs(files: set<Path>, links: Links, p: Path)
    ensures SlideTargetOf(files, links, p) <==> OnASlide(files, links, p)
  {
    assert SLIDES == PPT + ["slides"];
    if SlideTargetOf(files, links, p) {
      var r :| r in files && RelsOf(r, SLIDES) && r in links && p in links[r];
      InRelsOf(r, "slides");
      assert r == ["ppt", "slides", "_rels", r[3]];
      assert RelsName(r[3]);
    }
    if OnASlide(files, links, p) {
      var n :| RelsName(n) && (var r := ["ppt", "slides", "_rels", n]; r in files && r in links && p in links[r]);
      var r := ["ppt", "slides", "_rels", n];
      InRelsOf(r, "slides");
      assert RelsOf(r, SLIDES);
    }
  }

  /** Whose relationships file `ppt/<dir>/_rels/<n>.rels` is, as the sweep sees it. */
  lemma RelsFileIs(dir: string, n: string)
    requires !Mentions(n, ".rels")
    ensures var r, p := ["ppt", dir, "_rels", n + ".rels"], ["ppt", dir, n];
      && !Managed(r)
      && (OwnedRels(r) <==> Resource(dir)) && (OwnedRels(r) ==> OwnerOf(r) == p)
      && (RelsOf(r, NOTES) <==> dir == "notesSlides") && (RelsOf(r, NOTES) ==> Owner(r, NOTES) == p)
  {
    var r, p := ["ppt", dir, "_rels", n + ".rels"], ["ppt", dir, n];
    InPpt(p, dir);
    OwnerOfItsRels(p, PPT + [dir]);
    assert RelsFor(p) == r;
    assert r[..2] == PPT + [dir];
    forall d ensures RelsOf(r, PPT + [d]) <==> d == dir { InRelsOf(r, d); }
    forall d ensures !InDir(r, PPT + [d]) { InPpt(r, d); }
    assert THEME == PPT + ["theme"] && NOTES == PPT + ["notesSlides"];
    hide Owner, RelsFor, Matches, EndsWith, IsRels, RelsOf, InDir;
  }

  lemma ThemeRelsAre(dir: string, n: string, t: Path)
    ensures ThemePart(t) && ThemeRels(t) == ["ppt", dir, "_rels", n + ".rels"]
      <==> dir == "theme" && ThemeName(n) && t == ["ppt", dir, n]
  {
    assert THEME == PPT + ["theme"];
    InPpt(t, "theme");
    if ThemePart(t) {
      var m := t[2];
      assert t == ["ppt", "theme", m] && t[..2] == THEME;
      assert ThemeRels(t) == ["ppt", "theme", "_rels", m + ".rels"];
      if m + ".rels" == n + ".rels" { assert m == (m + ".rels")[..|m|] && n == (n + ".rels")[..|n|]; }
    }
  }

  /**
   * A relationships file is left if and only if it was there and, in the directory of a resource, its part is
   * left and on a slide; in that of the notes, its part is left; in that of the themes, its theme is left if
   * there was one. Anywhere else below `ppt` nothing more is needed.
   */
  lemma RelsLeftExactly(base: set<Path>, files: set<Path>, links: Links, dir: string, n: string)
    requires Greatest(base, files, links) && !Mentions(n, ".rels")
    ensures var r, p := ["ppt", dir, "_rels", n + ".rels"], ["ppt", dir, n];
      r in files <==>
        && r in base
        && (Resource(dir) ==> p in files && OnASlide(files, links, p))
        && (dir == "notesSlides" ==> p in files)
        && (dir == "theme" && ThemeName(n) && p in base ==> p in files)
  {
    var r, p := ["ppt", dir, "_rels", n + ".rels"], ["ppt", dir, n];
    hide Greatest, Managed, OwnedRels, RelsOf, ThemePart, ThemeRels, TargetOf, PointedAt, SlideTargetOf, Owner, OwnerOf,
      Resource, ThemeName, OnASlide, Mentions;
    LeftExactly(base, files, links, r);
    RelsFileIs(dir, n);
    SlideTargetIs(files, links, p);
    forall t ensures ThemePart(t) && ThemeRels(t) == r <==> dir == "theme" && ThemeName(n) && t == p {
      ThemeRelsAre(dir, n, t);
    }
  }
}
