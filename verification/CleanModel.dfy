/**
 * Which files of an unpacked presentation are supported, and the largest set of
 * files that support each other (skills/pptx/scripts/clean.py).
 */
module CleanModel {

  /** A file, by the components of its path below the unpacked directory. */
  type Path = seq<string>

  /** The targets of every `.rels` file, resolved below the unpacked directory. */
  type Links = map<Path, set<Path>>

  const PPT: Path := ["ppt"]
  const SLIDES: Path := ["ppt", "slides"]
  const THEME: Path := ["ppt", "theme"]
  const NOTES: Path := ["ppt", "notesSlides"]
  const TRASH: Path := ["[trash]"]
  const CONTENT_DIRS := {"media", "embeddings", "charts", "diagrams", "tags", "drawings", "ink"}
  const OWNER_DIRS := {"charts", "diagrams", "drawings"}

  predicate InDir(p: Path, dir: Path) {
    |p| == |dir| + 1 && p[..|dir|] == dir
  }

  function Name(p: Path): string
    requires p != []
  {
    p[|p| - 1]
  }

  predicate EndsWith(s: string, suffix: string) {
    |suffix| <= |s| && s[|s| - |suffix|..] == suffix
  }

  /** Glob `prefix*suffix`. */
  predicate Matches(s: string, prefix: string, suffix: string) {
    |prefix| + |suffix| <= |s| && prefix <= s && EndsWith(s, suffix)
  }

  /** A `*` stands for any text, also for none. */
  lemma MatchesExactly(s: string, prefix: string, suffix: string)
    ensures Matches(s, prefix, suffix) <==> exists mid :: s == prefix + mid + suffix
  {
    if Matches(s, prefix, suffix) {
      var mid := s[|prefix|..|s| - |suffix|];
      assert s == prefix + mid + suffix;
    }
  }

  predicate IsRels(p: Path) {
    p != [] && EndsWith(Name(p), ".rels")
  }

  /** `s.replace(pat, "")` */
  function Erased(s: string, pat: string): string
    requires pat != ""
    decreases |s|
  {
    if |s| < |pat| then s
    else if s[..|pat|] == pat then Erased(s[|pat|..], pat)
    else [s[0]] + Erased(s[1..], pat)
  }

  predicate Occurs(s: string, pat: string, i: int) {
    0 <= i && i + |pat| <= |s| && s[i..i + |pat|] == pat
  }

  predicate Mentions(s: string, pat: string) {
    exists i :: 0 <= i <= |s| && Occurs(s, pat, i)
  }

  lemma OccursBehind(c: char, s: string, pat: string, i: int)
    requires 0 <= i
    ensures Occurs([c] + s, pat, i + 1) <==> Occurs(s, pat, i)
  {
    if i + |pat| <= |s| { assert ([c] + s)[i + 1..i + 1 + |pat|] == s[i..i + |pat|]; }
  }

  /** Nothing to erase. */
  lemma {:induction false} NothingErased(s: string, pat: string)
    requires pat != "" && !Mentions(s, pat)
    ensures Erased(s, pat) == s
    decreases |s|
  {
    if |s| >= |pat| {
      assert !Occurs(s, pat, 0);
      assert s == [s[0]] + s[1..];
      forall i | 0 <= i ensures !Occurs(s[1..], pat, i) { OccursBehind(s[0], s[1..], pat, i); }
      NothingErased(s[1..], pat);
    }
  }

  /** The first occurrence goes, and what is before it stays. */
  lemma {:induction false} FirstErased(a: string, pat: string, rest: string)
    requires pat != "" && !Mentions(a + pat[..|pat| - 1], pat)
    ensures Erased(a + pat + rest, pat) == a + Erased(rest, pat)
    decreases |a|
  {
    var s := a + pat + rest;
    var almost := pat[..|pat| - 1];
    if a == "" {
      assert s[..|pat|] == pat && s[|pat|..] == rest;
    } else {
      var b := a[1..];
      assert s[1..] == b + pat + rest && s[0] == a[0];
      assert a + almost == [a[0]] + (b + almost);
      forall i | 0 <= i ensures !Occurs(b + almost, pat, i) { OccursBehind(a[0], b + almost, pat, i); }
      FirstErased(b, pat, rest);
      assert !Occurs(a + almost, pat, 0);
      assert (a + almost)[0..|pat|] == s[..|pat|];
    }
  }

  function RelsDir(dir: Path): Path {
    dir + ["_rels"]
  }

  predicate RelsOf(p: Path, dir: Path) {
    InDir(p, RelsDir(dir)) && IsRels(p)
  }

  /** The part a relationships file of `dir` speaks for. */
  function Owner(p: Path, dir: Path): Path
    requires RelsOf(p, dir)
  {
    dir + [Erased(Name(p), ".rels")]
  }

  // ---- what a file needs in order to stay ----

  ghost predicate TargetOf(files: set<Path>, links: Links, q: Path) {
    exists r :: r in files && IsRels(r) && r in links && q in links[r]
  }

  ghost predicate SlideTargetOf(files: set<Path>, links: Links, q: Path) {
    exists r :: r in files && RelsOf(r, SLIDES) && r in links && q in links[r]
  }

  /** `.rels` starts with its only dot, so no match straddles the end of a name. */
  lemma NoRelsInside(n: string)
    requires !Mentions(n, ".rels")
    ensures !Mentions(n + ".rel", ".rels")
  {
    var s := n + ".rel";
    forall i ensures !Occurs(s, ".rels", i) {
      assert !Occurs(n, ".rels", i);
      if 0 <= i && i + 5 <= |s| {
        assert s[i..i + 5][4] == s[i + 4] && ".rels"[4] == 's';
        if i + 5 <= |n| { assert s[i..i + 5] == n[i..i + 5]; }
      }
    }
  }

  /** A part owns the relationships file that is named after it. */
  lemma OwnerOfItsRels(p: Path, dir: Path)
    requires InDir(p, dir) && !Mentions(Name(p), ".rels")
    ensures RelsOf(RelsFor(p), dir) && Owner(RelsFor(p), dir) == p
  {
    var n := Name(p);
    assert p[..|p| - 1] == dir && p == dir + [n];
    assert Name(RelsFor(p)) == n + ".rels";
    NoRelsInside(n);
    assert ".rels"[..4] == ".rel";
    FirstErased(n, ".rels", "");
    assert n + ".rels" + "" == n + ".rels" && n + Erased("", ".rels") == n;
    assert RelsFor(p) == RelsDir(dir) + [n + ".rels"];
  }

  predicate OwnedRels(p: Path) {
    exists d <- OWNER_DIRS :: RelsOf(p, PPT + [d])
  }

  /** The resource an owned relationships file belongs to. */
  function OwnerOf(p: Path): Path
    requires OwnedRels(p)
  {
    Owner(p, p[..2])
  }

  predicate Content(p: Path) {
    exists d <- CONTENT_DIRS :: InDir(p, PPT + [d])
  }

  predicate ThemePart(p: Path) {
    InDir(p, THEME) && Matches(Name(p), "theme", ".xml")
  }

  predicate NotesPart(p: Path) {
    InDir(p, NOTES) && EndsWith(Name(p), ".xml")
  }

  /** The relationships file of a part: `_rels/<name>.rels` beside it. */
  function RelsFor(p: Path): Path
    requires p != []
  {
    RelsDir(p[..|p| - 1]) + [Name(p) + ".rels"]
  }

  function ThemeRels(t: Path): Path
    requires ThemePart(t)
  {
    RelsFor(t)
  }

  /** Parts that stay only while some relationships file targets them. */
  predicate Managed(p: Path) {
    Content(p) || ThemePart(p) || NotesPart(p)
  }

  /**
   * What `p` needs from `files`. The relationships file of a theme goes when its theme is removed,
   * so it depends on the theme only if there was one: `base` is what the sweeping started from.
   */
  ghost predicate Supported(base: set<Path>, files: set<Path>, links: Links, p: Path) {
    && (OwnedRels(p) ==> OwnerOf(p) in files && SlideTargetOf(files, links, OwnerOf(p)))
    && (Managed(p) ==> TargetOf(files, links, p))
    && (RelsOf(p, NOTES) ==> Owner(p, NOTES) in files)
    && (forall t | t in base && ThemePart(t) && ThemeRels(t) == p :: t in files)
  }

  ghost predicate SelfSupporting(base: set<Path>, files: set<Path>, links: Links) {
    files <= base && forall p <- files :: Supported(base, files, links, p)
  }

  /** The largest subset of `base` in which every file has what it needs. */
  ghost predicate Greatest(base: set<Path>, files: set<Path>, links: Links) {
    && SelfSupporting(base, files, links)
    && forall x: set<Path> :: SelfSupporting(base, x, links) ==> x <= files
  }

  // ---- one sweep ----

  ghost function OrphanedRels(files: set<Path>, links: Links): set<Path> {
    set p | p in files && OwnedRels(p) && !(OwnerOf(p) in files && SlideTargetOf(files, links, OwnerOf(p)))
  }

  /** The unreferenced parts, and the theme relationships that go with them. */
  ghost function Unreferenced(files: set<Path>, referenced: set<Path>): set<Path> {
    (set p | p in files && Managed(p) && p !in referenced)
    + (set p | p in files && exists t :: t in files && ThemePart(t) && t !in referenced && ThemeRels(t) == p)
  }

  ghost function StrayNotesRels(files: set<Path>): set<Path> {
    set p | p in files && RelsOf(p, NOTES) && Owner(p, NOTES) !in files
  }

  ghost function Targets(files: set<Path>, links: Links): set<Path> {
    set r, q | r in files && IsRels(r) && r in links && q in links[r] :: q
  }

  ghost function AfterRels(files: set<Path>, links: Links): set<Path> {
    files - OrphanedRels(files, links)
  }

  ghost function AfterFiles(files: set<Path>, referenced: set<Path>): set<Path> {
    var kept := files - Unreferenced(files, referenced);
    kept - StrayNotesRels(kept)
  }

  /** One round of `clean_unused_files`. */
  ghost function Sweep(files: set<Path>, links: Links): set<Path> {
    var rest := AfterRels(files, links);
    AfterFiles(rest, Targets(rest, links))
  }

  lemma TargetsMean(files: set<Path>, links: Links, q: Path)
    ensures q in Targets(files, links) <==> TargetOf(files, links, q)
  {}

  /** Files of different kinds never coincide. */
  lemma Kinds(p: Path)
    ensures OwnedRels(p) ==> !Managed(p) && !RelsOf(p, NOTES) && !(exists t :: ThemePart(t) && ThemeRels(t) == p)
    ensures RelsOf(p, NOTES) ==> !Managed(p) && !(exists t :: ThemePart(t) && ThemeRels(t) == p)
    ensures Managed(p) ==> !(exists t :: ThemePart(t) && ThemeRels(t) == p)
  {
    if OwnedRels(p) {
      var d :| d in OWNER_DIRS && RelsOf(p, PPT + [d]);
      assert p[1] == (PPT + [d] + ["_rels"])[1];
    }
    if RelsOf(p, NOTES) { assert p[1] == RelsDir(NOTES)[1]; }
    if Managed(p) { assert |p| == 3; }
    forall t | ThemePart(t) && ThemeRels(t) == p ensures |p| == 4 && p[1] == "theme" {}
  }

  // ---- the largest supported set ----

  /** Removing what a round removes never removes a file of a self-supporting set. */
  lemma SweepKeepsSupported(base: set<Path>, files: set<Path>, links: Links, x: set<Path>)
    requires SelfSupporting(base, x, links) && x <= files <= base
    ensures x <= Sweep(files, links)
  {
    var rest := AfterRels(files, links);
    RelsSweepKeeps(base, files, links, x);
    FileSweepKeeps(base, rest, links, x);
  }

  lemma RelsSweepKeeps(base: set<Path>, files: set<Path>, links: Links, x: set<Path>)
    requires SelfSupporting(base, x, links) && x <= files
    ensures x <= AfterRels(files, links)
  {
    forall p <- x ensures p !in OrphanedRels(files, links) {
      assert Supported(base, x, links, p);
      if OwnedRels(p) {
        var r :| r in x && RelsOf(r, SLIDES) && r in links && OwnerOf(p) in links[r];
        assert SlideTargetOf(files, links, OwnerOf(p));
      }
    }
  }

  lemma FileSweepKeeps(base: set<Path>, files: set<Path>, links: Links, x: set<Path>)
    requires SelfSupporting(base, x, links) && x <= files <= base
    ensures x <= AfterFiles(files, Targets(files, links))
  {
    var referenced := Targets(files, links);
    forall p <- x | Managed(p) ensures p in referenced {
      assert Supported(base, x, links, p);
      var r :| r in x && IsRels(r) && r in links && p in links[r];
      assert r in files;
    }
    forall p <- x ensures p !in Unreferenced(files, referenced) {
      assert Supported(base, x, links, p);
      forall t | t in files && ThemePart(t) && ThemeRels(t) == p ensures t in referenced {
        assert t in base && t in x;
        assert Managed(t);
      }
    }
    forall p <- x ensures p !in StrayNotesRels(files - Unreferenced(files, referenced)) {
      assert Supported(base, x, links, p);
    }
  }

  /** Every theme that is gone has taken its relationships file with it. */
  ghost predicate ThemesTogether(base: set<Path>, files: set<Path>) {
    forall t | t in base && ThemePart(t) && t !in files :: ThemeRels(t) !in files
  }

  lemma SweepKeepsThemesTogether(base: set<Path>, files: set<Path>, links: Links)
    requires ThemesTogether(base, files) && files <= base
    ensures ThemesTogether(base, Sweep(files, links)) && Sweep(files, links) <= files
  {
    var rest := AfterRels(files, links);
    var referenced := Targets(rest, links);
    forall t | t in base && ThemePart(t) && t !in Sweep(files, links) ensures ThemeRels(t) !in Sweep(files, links) {
      Kinds(t);
      if t in files {
        assert Managed(t);
        assert t in rest;
        assert RelsOf(t, NOTES) ==> false;
        assert t !in referenced;
        assert ThemeRels(t) in rest ==> ThemeRels(t) in Unreferenced(rest, referenced);
      }
    }
  }

  /** A round that removes nothing has reached a self-supporting set. */
  lemma StableIsSupported(base: set<Path>, files: set<Path>, links: Links)
    requires files <= base && ThemesTogether(base, files) && Sweep(files, links) == files
    ensures SelfSupporting(base, files, links)
  {
    var rest := AfterRels(files, links);
    var referenced := Targets(rest, links);
    var kept := rest - Unreferenced(rest, referenced);
    assert Sweep(files, links) <= kept <= rest <= files;
    assert rest == files && kept == files;
    forall p <- files ensures Supported(base, files, links, p) {
      assert p !in OrphanedRels(files, links) && p !in Unreferenced(files, referenced);
      assert p !in StrayNotesRels(files);
      TargetsMean(files, links, p);
      forall t | t in base && ThemePart(t) && ThemeRels(t) == p ensures t in files {}
    }
  }

  /** There is one largest supported set, so a result with that property depends on no order of visits. */
  lemma GreatestIsUnique(base: set<Path>, x: set<Path>, y: set<Path>, links: Links)
    requires Greatest(base, x, links) && Greatest(base, y, links)
    ensures x == y
  {
    assert x <= y && y <= x;
  }

  /** A managed part of the base that a surviving relationships file targets has survived. */
  lemma TargetsSurvive(base: set<Path>, files: set<Path>, links: Links, r: Path, q: Path)
    requires Greatest(base, files, links)
    requires r in files && IsRels(r) && r in links && q in links[r] && q in base && Managed(q)
    ensures q in files
  {
    var x := files + {q};
    Kinds(q);
    forall p <- x ensures Supported(base, x, links, p) {
      if p == q {
        assert TargetOf(x, links, q);
      } else {
        assert Supported(base, files, links, p);
        GrownTargets(files, links, q);
        if OwnedRels(p) { assert SlideTargetOf(files, links, OwnerOf(p)); }
        if Managed(p) { assert TargetOf(files, links, p); }
      }
    }
    assert SelfSupporting(base, x, links);
  }

  lemma GrownTargets(files: set<Path>, links: Links, q: Path)
    ensures forall p :: TargetOf(files, links, p) ==> TargetOf(files + {q}, links, p)
    ensures forall p :: SlideTargetOf(files, links, p) ==> SlideTargetOf(files + {q}, links, p)
  {
    forall p | TargetOf(files, links, p) ensures TargetOf(files + {q}, links, p) {
      var r :| r in files && IsRels(r) && r in links && p in links[r];
      assert r in files + {q};
    }
    forall p | SlideTargetOf(files, links, p) ensures SlideTargetOf(files + {q}, links, p) {
      var r :| r in files && RelsOf(r, SLIDES) && r in links && p in links[r];
      assert r in files + {q};
    }
  }

  /** Files of no swept kind are never removed. */
  lemma OthersSurvive(base: set<Path>, files: set<Path>, links: Links, q: Path)
    requires Greatest(base, files, links) && q in base
    requires !Managed(q) && !OwnedRels(q) && !RelsOf(q, NOTES) && forall t | ThemePart(t) :: ThemeRels(t) != q
    ensures q in files
  {
    var x := files + {q};
    GrownTargets(files, links, q);
    forall p <- x ensures Supported(base, x, links, p) {
      if p != q { assert Supported(base, files, links, p); }
    }
    assert SelfSupporting(base, x, links);
  }

  /**
   * Support has to be read relative to where the sweeping starts: the relationships file of a theme
   * that was never there is left alone, so a set a round would not touch can still be lost.
   */
  lemma StableSubsetCanBeLost()
    ensures var t := THEME + ["theme1.xml"]; var r := RelsDir(THEME) + ["theme1.xml.rels"];
      && Sweep({r}, map[]) == {r}
      && Greatest({t, r}, {}, map[])
  {
    var t := THEME + ["theme1.xml"];
    var r := RelsDir(THEME) + ["theme1.xml.rels"];
    assert "theme1.xml"[|"theme1.xml"| - 4..] == ".xml" && "theme1.xml"[..5] == "theme";
    assert t[..2] == THEME && Name(t) + ".rels" == "theme1.xml.rels" && ThemeRels(t) == r;
    Kinds(t);
    LoneThemeRels(t, r);
    forall x: set<Path> | SelfSupporting({t, r}, x, map[]) ensures x <= {} {
      assert Managed(t);
      assert !Supported({t, r}, x, map[], t);
      assert t !in x;
      assert !Supported({t, r}, x, map[], r);
    }
  }

  lemma LoneThemeRels(t: Path, r: Path)
    requires ThemePart(t) && ThemeRels(t) == r
    ensures Sweep({r}, map[]) == {r}
  {
    Kinds(r);
    assert |r| == 4 && !ThemePart(r);
    assert OrphanedRels({r}, map[]) == {};
    assert AfterRels({r}, map[]) == {r};
    assert Unreferenced({r}, Targets({r}, map[])) == {};
    assert StrayNotesRels({r}) == {};
  }
}
