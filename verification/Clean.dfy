/** The clean-up as it runs: loops that delete files in whatever order a directory lists them. */
module Clean {
  import opened CleanModel
  import opened CleanSlides

  /** `removed` lists the files of `gone`, each once. */
  ghost predicate Lists(removed: seq<Path>, gone: set<Path>) {
    && (forall p :: p in removed <==> p in gone)
    && forall i, j :: 0 <= i < j < |removed| ==> removed[i] != removed[j]
  }

  lemma ListsJoin(a: seq<Path>, x: set<Path>, b: seq<Path>, y: set<Path>)
    requires Lists(a, x) && Lists(b, y) && x !! y
    ensures Lists(a + b, x + y)
  {
    var c := a + b;
    forall i, j | 0 <= i < j < |c| ensures c[i] != c[j] {
      if i < |a| <= j { assert c[i] in a && c[j] in b; }
    }
  }

  function Dropped(overrides: seq<Path>, removed: seq<Path>): (r: seq<Path>)
    ensures forall p :: p in r <==> p in overrides && p !in removed
  {
    if overrides == [] then []
    else
      var n := |overrides| - 1;
      Dropped(overrides[..n], removed) + if overrides[n] in removed then [] else [overrides[n]]
  }

  /**
   * An unpacked presentation: its files, what its relationships files target, the relationships of the
   * presentation itself and the ids in its slide list, and the content-type overrides.
   */
  class Package {
    var files: set<Path>
    var links: Links
    var pres: seq<Relationship>
    const shown: set<string>
    var overrides: seq<Path>

    constructor (files: set<Path>, others: Links, pres: seq<Relationship>, shown: set<string>, overrides: seq<Path>)
      ensures this.files == files && this.pres == pres && this.shown == shown && this.overrides == overrides
      ensures links == others[PRES_RELS := Paths(pres)] && Valid()
    {
      this.files, this.pres, this.shown, this.overrides := files, pres, shown, overrides;
      this.links := others[PRES_RELS := Paths(pres)];
    }

    /** The targets of the presentation's relationships are among the links. */
    predicate Valid()
      reads this
    {
      PRES_RELS in links && links[PRES_RELS] == Paths(pres)
    }

    /** `unlink` every file of `doomed` that is there, in any order. */
    method Delete(doomed: set<Path>) returns (removed: seq<Path>)
      modifies this`files
      ensures files == old(files) - doomed
      ensures Lists(removed, old(files) * doomed)
    {
      removed := [];
      var todo := files * doomed;
      while todo != {}
        invariant todo <= files * doomed
        invariant files == old(files) - (old(files) * doomed - todo)
        invariant Lists(removed, old(files) * doomed - todo)
        decreases todo
      {
        var p :| p in todo;
        files := files - {p};
        removed := removed + [p];
        todo := todo - {p};
      }
    }

    /** `get_slide_referenced_files` */
    method SlideReferenced() returns (referenced: set<Path>)
      ensures forall q :: q in referenced <==> SlideTargetOf(files, links, q)
    {
      referenced := set r, q | r in files && RelsOf(r, SLIDES) && r in links && q in links[r] :: q;
    }

    /** `get_referenced_files`: read the relationships files one by one. */
    method Referenced() returns (referenced: set<Path>)
      ensures referenced == Targets(files, links)
    {
      referenced := {};
      var todo := set r | r in files && IsRels(r);
      ghost var all := todo;
      while todo != {}
        invariant todo <= all
        invariant referenced == Targets(all - todo, links)
        decreases todo
      {
        var r :| r in todo;
        if r in links { referenced := referenced + links[r]; }
        todo := todo - {r};
      }
      assert all - todo == all;
      assert Targets(all, links) == Targets(files, links);
    }

    /** `remove_orphaned_rels_files` */
    method RemoveOrphanedRels() returns (removed: seq<Path>)
      modifies this`files
      ensures files == AfterRels(old(files), links)
      ensures Lists(removed, old(files) - files)
    {
      var referenced := SlideReferenced();
      removed := [];
      var todo := set p | p in files && OwnedRels(p);
      assert Lists([], {});
      hide Lists, OwnerOf, OwnedRels;
      while todo != {}
        invariant todo <= files && forall p <- todo :: OwnedRels(p)
        invariant forall p <- old(files) | OwnedRels(p) && p !in todo ::
          p in files <==> OwnerOf(p) in old(files) && OwnerOf(p) in referenced
        invariant forall p <- old(files) | !OwnedRels(p) :: p in files
        invariant files <= old(files)
        invariant Lists(removed, old(files) - files)
        decreases todo
      {
        var p :| p in todo;
        OwnersAreNoRels(p);
        if OwnerOf(p) !in files || OwnerOf(p) !in referenced {
          OneListed(removed, old(files) - files, p);
          assert old(files) - files + {p} == old(files) - (files - {p});
          files := files - {p};
          removed := removed + [p];
        }
        todo := todo - {p};
      }
      AfterRelsIs(old(files), files, links);
    }

    /** `remove_orphaned_files` */
    method RemoveOrphanedFiles(referenced: set<Path>) returns (removed: seq<Path>)
      modifies this`files
      ensures files == AfterFiles(old(files), referenced)
      ensures Lists(removed, old(files) - files)
    {
      removed := RemoveContent(referenced);
      ghost var f1 := files;
      var more := RemoveThemes(referenced);
      ListsJoin(removed, old(files) - f1, more, f1 - files);
      assert old(files) - f1 + (f1 - files) == old(files) - files;
      removed := removed + more;
      ghost var f2 := files;
      more := RemoveNotes(referenced);
      ListsJoin(removed, old(files) - f2, more, f2 - files);
      assert old(files) - f2 + (f2 - files) == old(files) - files;
      removed := removed + more;
      ThreePasses(old(files), referenced);
    }

    method RemoveContent(referenced: set<Path>) returns (removed: seq<Path>)
      modifies this`files
      ensures files == old(files) - Loose(old(files), referenced, Content)
      ensures Lists(removed, old(files) - files)
    {
      var doomed := set p | p in files && Content(p) && p !in referenced;
      removed := Delete(doomed);
      assert old(files) * doomed == old(files) - files;
    }

    /** Delete parts, each with its relationships file if it has one. */
    method DeleteParts(doomed: set<Path>) returns (removed: seq<Path>)
      requires doomed <= files && forall p <- doomed :: |p| == 3
      modifies this`files
      ensures files == old(files) - WithRels(doomed)
      ensures Lists(removed, old(files) - files)
    {
      removed := [];
      var todo := doomed;
      assert Lists([], {}) && WithRels({}) == {};
      hide Lists, WithRels, RelsFor;
      while todo != {}
        invariant todo <= doomed && todo <= files
        invariant files == old(files) - WithRels(doomed - todo)
        invariant Lists(removed, old(files) - files)
        decreases todo
      {
        var p :| p in todo;
        WithRelsGrows(doomed - todo, p);
        PairListed(old(files), files, p, RelsFor(p), removed);
        assert doomed - (todo - {p}) == doomed - todo + {p};
        todo := todo - {p};
        files := files - {p};
        removed := removed + [p];
        if RelsFor(p) in files {
          files := files - {RelsFor(p)};
          removed := removed + [RelsFor(p)];
        }
      }
      assert doomed - todo == doomed;
    }

    method RemoveThemes(referenced: set<Path>) returns (removed: seq<Path>)
      modifies this`files
      ensures files == old(files) - WithRels(Loose(old(files), referenced, ThemePart))
      ensures Lists(removed, old(files) - files)
    {
      removed := DeleteParts(set p | p in files && ThemePart(p) && p !in referenced);
    }

    method RemoveNotes(referenced: set<Path>) returns (removed: seq<Path>)
      modifies this`files
      ensures var kept := old(files) - Loose(old(files), referenced, NotesPart);
        files == kept - StrayNotesRels(kept)
      ensures Lists(removed, old(files) - files)
    {
      var doomed := set p | p in files && NotesPart(p) && p !in referenced;
      removed := Delete(doomed);
      ghost var f1 := files;
      assert old(files) * doomed == old(files) - f1;
      var stray := set p | p in files && RelsOf(p, NOTES) && Owner(p, NOTES) !in files;
      var more := Delete(stray);
      assert f1 * stray == f1 - files;
      ListsJoin(removed, old(files) - f1, more, f1 - files);
      assert old(files) - f1 + (f1 - files) == old(files) - files;
      removed := removed + more;
    }

    /** One round of the sweep. */
    method Round() returns (removed: seq<Path>)
      modifies this`files
      ensures files == Sweep(old(files), links)
      ensures Lists(removed, old(files) - files)
    {
      removed := RemoveOrphanedRels();
      ghost var f1 := files;
      var referenced := Referenced();
      var more := RemoveOrphanedFiles(referenced);
      hide AfterRels, AfterFiles, Targets, Lists;
      SweepKeepsThemesTogether(old(files), old(files), links);
      ListsJoin(removed, old(files) - f1, more, f1 - files);
      assert old(files) - f1 + (f1 - files) == old(files) - files;
      removed := removed + more;
    }

    /** The sweep of `clean_unused_files`: repeat until a round removes nothing. */
    method SweepAll() returns (removed: seq<Path>)
      modifies this`files
      ensures Greatest(old(files), files, links)
      ensures Lists(removed, old(files) - files)
    {
      removed := [];
      ghost var base := files;
      assert Covers(base, base, links) && ThemesTogether(base, base) && Lists([], {});
      hide Covers, SelfSupporting, Sweep, Lists, ThemesTogether;
      while true
        invariant files <= base && ThemesTogether(base, files) && Covers(base, files, links)
        invariant Lists(removed, base - files)
        decreases files
      {
        ghost var f0 := files;
        var round := Round();
        SweepKeepsThemesTogether(base, f0, links);
        if round == [] {
          NothingListed(f0 - files);
          StableIsSupported(base, files, links);
          CoveringIsGreatest(base, files, links);
          return;
        }
        SweepCovers(base, f0, links);
        ListsJoin(removed, base - f0, round, f0 - files);
        assert base - f0 + (f0 - files) == base - files;
        removed := removed + round;
        SomethingListed(round, f0 - files);
      }
    }

    /** `update_content_types` */
    method UpdateContentTypes(removed: seq<Path>)
      modifies this`overrides
      ensures overrides == Dropped(old(overrides), removed)
    {
      var kept := [];
      for i := 0 to |overrides|
        invariant overrides == old(overrides)
        invariant kept == Dropped(overrides[..i], removed)
      {
        assert overrides[..i + 1][..i] == overrides[..i];
        if overrides[i] !in removed { kept := kept + [overrides[i]]; }
      }
      assert overrides[..|overrides|] == overrides;
      overrides := kept;
    }

    /** `get_slides_in_sldidlst` */
    method SlidesListed() returns (listed: set<string>)
      ensures listed == ListedSlides(files, pres, shown)
    {
      if PRES !in files || PRES_RELS !in files { return {}; }
      var slideOf := map[];
      for i := 0 to |pres|
        invariant slideOf == SlideOf(pres[..i])
      {
        assert pres[..i + 1][..i] == pres[..i];
        if NamesSlide(pres[i]) { slideOf := slideOf[pres[i].id := SlideName(pres[i])]; }
      }
      assert pres[..|pres|] == pres;
      listed := set id | id in shown && id in slideOf :: slideOf[id];
    }

    /** The relationships of slides that are not listed leave the presentation's file. */
    method UnlinkSlides(listed: set<string>)
      requires Valid()
      modifies this`pres, this`links
      ensures pres == Kept(old(pres), listed) && links == old(links)[PRES_RELS := Paths(pres)] && Valid()
    {
      var kept := [];
      for i := 0 to |pres|
        invariant pres == old(pres) && kept == Kept(pres[..i], listed)
      {
        assert pres[..i + 1][..i] == pres[..i];
        if !InSlides(pres[i]) || SlideName(pres[i]) in listed { kept := kept + [pres[i]]; }
      }
      assert pres[..|pres|] == pres;
      pres := kept;
      links := links[PRES_RELS := Paths(pres)];
    }

    /** `remove_orphaned_slides` */
    method RemoveOrphanedSlides() returns (removed: seq<Path>)
      requires Valid()
      modifies this`files, this`links, this`pres
      ensures Valid()
      ensures var listed := ListedSlides(old(files), old(pres), shown);
        && files == old(files) - UnlistedSlides(old(files), listed)
        && pres == PresentationAfter(old(files), old(pres), listed)
      ensures Lists(removed, old(files) - files)
      ensures links == old(links)[PRES_RELS := Paths(pres)]
    {
      var listed := SlidesListed();
      removed := DeleteParts(set p | p in files && SlidePart(p) && Name(p) !in listed);
      PresentationStays(old(files), listed);
      if removed == [] { NothingListed(old(files) - files); } else { SomethingListed(removed, old(files) - files); }
      assert files == old(files) - (old(files) - files);
      assert removed == [] <==> files == old(files);
      assert links[PRES_RELS := Paths(pres)] == links;
      if removed != [] && PRES_RELS in files { UnlinkSlides(listed); }
    }

    /** `remove_trash_directory` */
    method RemoveTrash() returns (removed: seq<Path>)
      modifies this`files
      ensures files == set p | p in old(files) && !InDir(p, TRASH)
      ensures Lists(removed, old(files) - files)
    {
      var doomed := set p | p in files && InDir(p, TRASH);
      removed := Delete(doomed);
      assert old(files) * doomed == old(files) - files;
    }

    /**
     * `clean_unused_files`: what is left is the largest self-supporting part of what remains once the
     * unlisted slides and the trash are gone, by the relationships there were less those of unlisted slides;
     * the result lists every removed file once, and no content-type override names a removed file any more.
     */
    method CleanUnusedFiles() returns (removed: seq<Path>)
      requires Valid()
      modifies this
      ensures Valid()
      ensures var listed := ListedSlides(old(files), old(pres), shown);
        && Greatest(BaseOf(old(files), listed), files, links)
        && pres == PresentationAfter(old(files), old(pres), listed)
        && forall p <- old(files) | SlidePart(p) :: p in files <==> Name(p) in listed
      ensures OnceBelowSlides(old(pres)) ==> forall n | SlideFile(n) && ["ppt", "slides", n] in old(files) ::
        ["ppt", "slides", n] in files <==> ShownSlide(old(files), old(pres), shown, n)
      ensures links == old(links)[PRES_RELS := Paths(pres)]
      ensures Lists(removed, old(files) - files)
      ensures overrides == Dropped(old(overrides), removed)
    {
      removed := RemoveOrphanedSlides();
      ghost var f1 := files;
      var more := RemoveTrash();
      ListsJoin(removed, old(files) - f1, more, f1 - files);
      assert old(files) - f1 + (f1 - files) == old(files) - files;
      removed := removed + more;
      ghost var f2 := files;
      more := SweepAll();
      ListsJoin(removed, old(files) - f2, more, f2 - files);
      assert old(files) - f2 + (f2 - files) == old(files) - files;
      removed := removed + more;
      ListedSlidesStay(old(files), ListedSlides(old(files), old(pres), shown), files, links);
      SlidesByTarget(old(files), old(pres), shown, files);
      if removed != [] {
        UpdateContentTypes(removed);
      } else {
        NothingDropped(overrides);
      }
    }
  }

  lemma {:induction false} NothingDropped(overrides: seq<Path>)
    ensures Dropped(overrides, []) == overrides
  {
    if overrides != [] { NothingDropped(overrides[..|overrides| - 1]); }
  }

  lemma PairListed(all: set<Path>, files: set<Path>, p: Path, q: Path, removed: seq<Path>)
    requires Lists(removed, all - files) && files <= all && p in files && p != q
    ensures Lists(removed + [p] + (if q in files then [q] else []), all - (files - {p, q}))
    ensures Lists(removed + [p], all - (files - {p}))
  {
    OneListed(removed, all - files, p);
    assert all - files + {p} == all - (files - {p});
    if q in files {
      OneListed(removed + [p], all - (files - {p}), q);
      assert all - (files - {p}) + {q} == all - (files - {p, q});
    } else {
      assert removed + [p] + [] == removed + [p] && files - {p, q} == files - {p};
    }
  }

  lemma AfterRelsIs(before: set<Path>, files: set<Path>, links: Links)
    requires files <= before && forall p <- before | !OwnedRels(p) :: p in files
    requires forall p <- before | OwnedRels(p) ::
      p in files <==> OwnerOf(p) in before && SlideTargetOf(before, links, OwnerOf(p))
    ensures files == AfterRels(before, links)
  {}

  lemma OneListed(removed: seq<Path>, gone: set<Path>, p: Path)
    requires Lists(removed, gone) && p !in gone
    ensures Lists(removed + [p], gone + {p})
  {
    ListsJoin(removed, gone, [p], {p});
  }

  lemma SomethingListed(removed: seq<Path>, gone: set<Path>)
    requires Lists(removed, gone) && removed != []
    ensures gone != {}
  {
    assert removed[0] in removed;
  }

  /** Every self-supporting part of `base` is still there. */
  ghost predicate Covers(base: set<Path>, files: set<Path>, links: Links) {
    forall x: set<Path> :: SelfSupporting(base, x, links) ==> x <= files
  }

  lemma SweepCovers(base: set<Path>, files: set<Path>, links: Links)
    requires Covers(base, files, links) && files <= base
    ensures Covers(base, Sweep(files, links), links)
  {
    forall x: set<Path> | SelfSupporting(base, x, links) ensures x <= Sweep(files, links) {
      SweepKeepsSupported(base, files, links, x);
    }
  }

  lemma CoveringIsGreatest(base: set<Path>, files: set<Path>, links: Links)
    requires SelfSupporting(base, files, links) && Covers(base, files, links)
    ensures Greatest(base, files, links)
  {}

  lemma NothingListed(gone: set<Path>)
    requires Lists([], gone)
    ensures gone == {}
  {
    var none: seq<Path> := [];
    assert forall p <- gone :: p in none;
  }

  lemma OwnersAreNoRels(p: Path)
    requires OwnedRels(p)
    ensures !OwnedRels(OwnerOf(p))
  {
    var d :| d in OWNER_DIRS && RelsOf(p, PPT + [d]);
    assert |OwnerOf(p)| == 3;
  }

  // ---- the three passes of `remove_orphaned_files` ----

  ghost function Loose(files: set<Path>, referenced: set<Path>, kind: Path -> bool): set<Path> {
    set p | p in files && kind(p) && p !in referenced
  }

  ghost function WithRels(parts: set<Path>): set<Path>
    requires forall p <- parts :: |p| == 3
  {
    parts + set p | p in parts :: RelsFor(p)
  }

  lemma WithRelsGrows(parts: set<Path>, p: Path)
    requires |p| == 3 && forall q <- parts :: |q| == 3
    ensures WithRels(parts + {p}) == WithRels(parts) + {p, RelsFor(p)}
    ensures |RelsFor(p)| == 4
  {
    forall r | r in WithRels(parts + {p}) ensures r in WithRels(parts) + {p, RelsFor(p)} {}
    forall r | r in WithRels(parts) + {p, RelsFor(p)} ensures r in WithRels(parts + {p}) {
      if r == RelsFor(p) { assert p in parts + {p}; }
      if r !in parts && exists q :: q in parts && RelsFor(q) == r {
        var q :| q in parts && RelsFor(q) == r;
        assert q in parts + {p};
      }
    }
  }

  /** The three passes together remove exactly what one round of the model removes. */
  lemma ThreePasses(files: set<Path>, referenced: set<Path>)
    ensures var f1 := files - Loose(files, referenced, Content);
      var f2 := f1 - WithRels(Loose(f1, referenced, ThemePart));
      var f3 := f2 - Loose(f2, referenced, NotesPart);
      f3 - StrayNotesRels(f3) == AfterFiles(files, referenced)
  {
    var f1 := files - Loose(files, referenced, Content);
    var themes := Loose(f1, referenced, ThemePart);
    var f2 := f1 - WithRels(themes);
    var f3 := f2 - Loose(f2, referenced, NotesPart);
    var kept := files - Unreferenced(files, referenced);
    forall t ensures t in themes <==> t in files && ThemePart(t) && t !in referenced {
      ThemesAreApart(t);
    }
    hide RelsFor, ThemeRels, Managed, Content, ThemePart, NotesPart;
    forall p | p in files ensures p in f3 <==> p in kept {
      KindsApart(p);
      WithThemeRels(files, referenced, themes, p);
    }
    assert f3 == kept;
  }

  lemma KindsApart(p: Path)
    ensures Managed(p) <==> Content(p) || ThemePart(p) || NotesPart(p)
    ensures ThemePart(p) ==> !Content(p) && !NotesPart(p)
    ensures NotesPart(p) ==> !Content(p)
  {
    Kinds(p);
    ThemesAreApart(p);
  }

  lemma WithThemeRels(files: set<Path>, referenced: set<Path>, themes: set<Path>, p: Path)
    requires forall t <- themes :: |t| == 3
    requires forall t :: t in themes <==> t in files && ThemePart(t) && t !in referenced
    ensures p in WithRels(themes) <==>
            p in themes || exists t :: t in files && ThemePart(t) && t !in referenced && ThemeRels(t) == p
  {
    if t :| t in files && ThemePart(t) && t !in referenced && ThemeRels(t) == p {
      assert t in themes && RelsFor(t) == p;
    }
  }

  lemma ThemesAreApart(p: Path)
    ensures ThemePart(p) ==> !Content(p) && !NotesPart(p)
    ensures NotesPart(p) ==> !Content(p)
  {
    if Content(p) {
      var d :| d in CONTENT_DIRS && InDir(p, PPT + [d]);
      assert p[1] == (PPT + [d])[1];
    }
    if NotesPart(p) { assert p[1] == NOTES[1]; }
    if ThemePart(p) { assert p[1] == THEME[1]; }
  }

  // ---- slides ----

  /** The slides the presentation does not list, with their relationships files. */
  ghost function UnlistedSlides(files: set<Path>, listed: set<string>): set<Path> {
    WithRels(set p | p in files && SlidePart(p) && Name(p) !in listed)
  }

  /** What the sweep starts from. */
  ghost function BaseOf(files: set<Path>, listed: set<string>): set<Path> {
    set p | p in files - UnlistedSlides(files, listed) && !InDir(p, TRASH)
  }

  /** The presentation's relationships change only if a slide goes. */
  ghost function PresentationAfter(files: set<Path>, rels: seq<Relationship>, listed: set<string>): seq<Relationship> {
    if PRES_RELS in files && files - UnlistedSlides(files, listed) != files then Kept(rels, listed) else rels
  }

  lemma UnlistedAre(files: set<Path>, listed: set<string>)
    ensures forall p <- UnlistedSlides(files, listed) :: (SlidePart(p) && Name(p) !in listed) || |p| == 4
  {
    var doomed := set p | p in files && SlidePart(p) && Name(p) !in listed;
    forall p <- UnlistedSlides(files, listed) ensures (SlidePart(p) && Name(p) !in listed) || |p| == 4 {
      if p !in doomed {
        var q :| q in doomed && RelsFor(q) == p;
        assert |RelsFor(q)| == 4;
      }
    }
  }

  lemma SlideShape(p: Path)
    requires SlidePart(p)
    ensures |p| == 3 && p[1] == "slides"
  {
    assert p[..2][1] == p[1];
  }

  lemma PresentationStays(files: set<Path>, listed: set<string>)
    ensures PRES_RELS !in UnlistedSlides(files, listed)
  {
    UnlistedAre(files, listed);
    assert PRES_RELS[..2] != SLIDES by { assert PRES_RELS[..2][1] == "_rels"; }
    assert !SlidePart(PRES_RELS);
  }

  /** No sweep touches a slide, so the slides that are left are the listed ones. */
  lemma ListedSlidesStay(all: set<Path>, listed: set<string>, files: set<Path>, links: Links)
    requires Greatest(BaseOf(all, listed), files, links)
    ensures forall p <- all | SlidePart(p) :: p in files <==> Name(p) in listed
  {
    forall p <- all | SlidePart(p) ensures p in files <==> Name(p) in listed {
      SlidesAreNotSwept(p);
      if Name(p) in listed {
        ListedSlideIsInBase(all, listed, p);
        OthersSurvive(BaseOf(all, listed), files, links, p);
      } else {
        assert p in UnlistedSlides(all, listed);
      }
    }
  }

  /** A file name the glob `slide*.xml` finds. */
  predicate SlideFile(n: string) {
    |n| >= 9 && n[..5] == "slide" && n[|n| - 4..] == ".xml" && '/' !in n
  }

  /** The presentation shows the slide. */
  ghost predicate ShownSlide(all: set<Path>, rels: seq<Relationship>, shown: set<string>, n: string) {
    && ["ppt", "presentation.xml"] in all && ["ppt", "_rels", "presentation.xml.rels"] in all
    && exists i, id :: id in shown && ShownAs(rels, i, id, "slides/" + n)
  }

  lemma SlidesByTarget(all: set<Path>, rels: seq<Relationship>, shown: set<string>, files: set<Path>)
    requires forall p <- all | SlidePart(p) :: p in files <==> Name(p) in ListedSlides(all, rels, shown)
    ensures OnceBelowSlides(rels) ==> forall n | SlideFile(n) && ["ppt", "slides", n] in all ::
      ["ppt", "slides", n] in files <==> ShownSlide(all, rels, shown, n)
  {
    if OnceBelowSlides(rels) {
      forall n | SlideFile(n) && ["ppt", "slides", n] in all
        ensures ["ppt", "slides", n] in files <==> ShownSlide(all, rels, shown, n)
      {
        var p := ["ppt", "slides", n];
        assert p[..2] == SLIDES && Name(p) == n && SlidePart(p);
        ListedByTarget(all, rels, shown, n);
      }
    }
  }

  lemma ListedSlideIsInBase(all: set<Path>, listed: set<string>, p: Path)
    requires p in all && SlidePart(p) && Name(p) in listed
    ensures p in BaseOf(all, listed)
  {
    UnlistedAre(all, listed);
    SlideShape(p);
  }

  lemma SlidesAreNotSwept(p: Path)
    requires SlidePart(p)
    ensures !Managed(p) && !OwnedRels(p) && !RelsOf(p, NOTES) && forall t | ThemePart(t) :: ThemeRels(t) != p
  {
    SlideShape(p);
    forall d ensures InDir(p, PPT + [d]) ==> d == "slides" {
      assert (PPT + [d])[1] == d;
    }
    assert PPT + ["theme"] == THEME && PPT + ["notesSlides"] == NOTES;
    forall t | ThemePart(t) ensures |ThemeRels(t)| == 4 {}
  }
}
