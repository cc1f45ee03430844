/**
 * Which slides a presentation lists, and which of its relationships stay when the others go
 * (skills/pptx/scripts/clean.py). Targets are compared as they are written.
 */
module CleanSlides {
  import opened Basics
  import opened CleanModel

  /** A `Relationship` element; `path` is its target resolved, if that lies below the unpacked directory. */
  datatype Relationship = Relationship(id: string, kind: string, target: string, path: Option<Path>)

  const PREFIX := "slides/"
  const PRES: Path := ["ppt", "presentation.xml"]
  const PRES_RELS: Path := ["ppt", "_rels", "presentation.xml.rels"]

  /** The target is written as a file below `slides/`. */
  predicate InSlides(r: Relationship) {
    PREFIX <= r.target
  }

  function SlideName(r: Relationship): string {
    Erased(r.target, PREFIX)
  }

  predicate NamesSlide(r: Relationship) {
    Mentions(r.kind, "slide") && InSlides(r)
  }

  /** `rid_to_slide`: an id that occurs twice keeps its last slide. */
  function SlideOf(rels: seq<Relationship>): map<string, string> {
    if rels == [] then map[]
    else
      var n := |rels| - 1;
      var m := SlideOf(rels[..n]);
      if NamesSlide(rels[n]) then m[rels[n].id := SlideName(rels[n])] else m
  }

  /** `get_slides_in_sldidlst`, for the ids that the slide list mentions */
  function ListedSlides(files: set<Path>, rels: seq<Relationship>, shown: set<string>): set<string> {
    if PRES in files && PRES_RELS in files then set id | id in shown && id in SlideOf(rels) :: SlideOf(rels)[id] else {}
  }

  /** The relationship is the last to give a slide for its id. */
  ghost predicate Gives(rels: seq<Relationship>, i: nat, id: string, name: string) {
    && i < |rels| && NamesSlide(rels[i]) && rels[i].id == id && SlideName(rels[i]) == name
    && forall j :: i < j < |rels| ==> !(NamesSlide(rels[j]) && rels[j].id == id)
  }

  lemma {:induction false} SlideOfExactly(rels: seq<Relationship>, id: string, name: string)
    ensures id in SlideOf(rels) && SlideOf(rels)[id] == name <==> exists i :: Gives(rels, i, id, name)
  {
    if rels != [] {
      var n := |rels| - 1;
      SlideOfExactly(rels[..n], id, name);
      if NamesSlide(rels[n]) && rels[n].id == id {
        if SlideName(rels[n]) == name { assert Gives(rels, n, id, name); }
        if i :| Gives(rels, i, id, name) { assert i == n; }
      } else {
        forall i ensures Gives(rels, i, id, name) <==> Gives(rels[..n], i, id, name) {}
      }
    }
  }

  /** A slide is listed if and only if the presentation is there and shows an id whose last slide it is. */
  lemma ListedExactly(files: set<Path>, rels: seq<Relationship>, shown: set<string>, name: string)
    ensures name in ListedSlides(files, rels, shown)
      <==> PRES in files && PRES_RELS in files && exists i, id :: id in shown && Gives(rels, i, id, name)
  {
    forall id ensures id in SlideOf(rels) && SlideOf(rels)[id] == name <==> exists i :: Gives(rels, i, id, name) {
      SlideOfExactly(rels, id, name);
    }
    hide SlideOf, Gives;
  }

  // ---- by the text of the targets ----

  /** The relationship is the last slide below `slides/` for its id, and its target is that text. */
  ghost predicate ShownAs(rels: seq<Relationship>, i: nat, id: string, text: string) {
    && i < |rels| && rels[i].id == id && Mentions(rels[i].kind, "slide") && rels[i].target == text
    && forall j :: i < j < |rels| ==>
         !(rels[j].id == id && Mentions(rels[j].kind, "slide") && "slides/" <= rels[j].target)
  }

  /** No target below `slides/` goes through another directory of a name that ends so. */
  ghost predicate OnceBelowSlides(rels: seq<Relationship>) {
    forall i :: 0 <= i < |rels| && "slides/" <= rels[i].target ==> !Mentions(rels[i].target[7..], "slides/")
  }

  lemma NameBelowSlides(m: string)
    requires !Mentions(m, "slides/")
    ensures Erased("slides/" + m, "slides/") == m
  {
    FirstErased("", "slides/", m);
    assert "" + "slides/" + m == "slides/" + m && "" + Erased(m, "slides/") == Erased(m, "slides/");
    NothingErased(m, "slides/");
  }

  lemma GivesByTarget(rels: seq<Relationship>, i: nat, id: string, n: string)
    requires OnceBelowSlides(rels)
    requires !Mentions(n, "slides/")
    ensures Gives(rels, i, id, n) <==> ShownAs(rels, i, id, "slides/" + n)
  {
    if i < |rels| {
      var t := rels[i].target;
      if "slides/" <= t {
        assert t == "slides/" + t[7..];
        NameBelowSlides(t[7..]);
      }
      if t == "slides/" + n { NameBelowSlides(n); }
      assert t == "slides/" + n ==> t[7..] == n;
    }
    hide Mentions, Erased;
  }

  lemma FileNameIsPlain(n: string)
    requires '/' !in n
    ensures !Mentions(n, "slides/")
  {
    forall i ensures !Occurs(n, "slides/", i) {
      if 0 <= i && i + 7 <= |n| {
        assert n[i..i + 7][6] == n[i + 6] && n[i + 6] in n;
        assert "slides/"[6] == '/';
      }
    }
  }

  /**
   * A file name is listed if and only if the presentation is there and the last slide for an id that it shows
   * has the target `slides/` with that name, as long as no target repeats `slides/`.
   */
  lemma ListedByTarget(files: set<Path>, rels: seq<Relationship>, shown: set<string>, n: string)
    requires OnceBelowSlides(rels) && '/' !in n
    ensures n in ListedSlides(files, rels, shown)
      <==> && ["ppt", "presentation.xml"] in files && ["ppt", "_rels", "presentation.xml.rels"] in files
           && exists i, id :: id in shown && ShownAs(rels, i, id, "slides/" + n)
  {
    FileNameIsPlain(n);
    hide ListedSlides, Gives, ShownAs, OnceBelowSlides, Mentions;
    ListedExactly(files, rels, shown, n);
    forall i, id ensures Gives(rels, i, id, n) <==> ShownAs(rels, i, id, "slides/" + n) {
      GivesByTarget(rels, i, id, n);
    }
  }

  lemma RepeatedIsErased(n: string)
    requires '/' !in n
    ensures Erased("slides/" + ("slides/" + n), "slides/") == n
  {
    var rest := "slides/" + n;
    FileNameIsPlain(n);
    NameBelowSlides(n);
    hide Mentions;
    FirstErased("", "slides/", rest);
    assert "" + "slides/" + rest == "slides/" + rest;
    hide Erased;
    assert "" + Erased(rest, "slides/") == Erased(rest, "slides/");
  }

  /** A target that repeats `slides/` lists the file of that name outside: every occurrence is erased. */
  lemma RepeatedDirectoryIsListed(files: set<Path>, id: string, n: string, path: Option<Path>)
    requires PRES in files && PRES_RELS in files && '/' !in n
    ensures var r := Relationship(id, "slide", "slides/" + ("slides/" + n), path);
      n in ListedSlides(files, [r], {id}) && !exists i :: ShownAs([r], i, id, "slides/" + n)
  {
    hide Erased, ListedSlides;
    var r := Relationship(id, "slide", "slides/" + ("slides/" + n), path);
    RepeatedIsErased(n);
    assert Occurs(r.kind, "slide", 0);
    assert r.target[..7] == "slides/";
    assert Gives([r], 0, id, n);
    ListedExactly(files, [r], {id}, n);
    assert |r.target| == 14 + |n| && |"slides/" + n| == 7 + |n|;
  }

  /** Relationships written below `slides/` stay only if they name a listed slide. */
  predicate Stays(r: Relationship, listed: set<string>) {
    InSlides(r) ==> SlideName(r) in listed
  }

  function Kept(rels: seq<Relationship>, listed: set<string>): (kept: seq<Relationship>)
    ensures forall r :: r in kept <==> r in rels && Stays(r, listed)
  {
    if rels == [] then []
    else
      var n := |rels| - 1;
      Kept(rels[..n], listed) + if Stays(rels[n], listed) then [rels[n]] else []
  }

  /** By the text of the target: below `slides/` a relationship stays if and only if its file is listed. */
  lemma KeptByTarget(rels: seq<Relationship>, listed: set<string>, r: Relationship, n: string)
    requires r.target == "slides/" + n && '/' !in n
    ensures r in Kept(rels, listed) <==> r in rels && n in listed
  {
    FileNameIsPlain(n);
    NameBelowSlides(n);
  }

  /** What the presentation's relationships file targets. */
  function Paths(rels: seq<Relationship>): set<Path> {
    set r | r in rels && r.path.Some? :: r.path.value
  }

  predicate SlidePart(p: Path) {
    InDir(p, SLIDES) && Matches(Name(p), "slide", ".xml")
  }

  /** Another way to write the same target is not matched: the relationship stays when its slide goes. */
  lemma OtherSpellingStays(id: string, kind: string, path: Path)
    ensures var r := Relationship(id, kind, "./slides/slide1.xml", Some(path));
      Kept([r], {}) == [r] && Paths(Kept([r], {})) == {path}
  {
    var r := Relationship(id, kind, "./slides/slide1.xml", Some(path));
    assert r.target[0] == '.' && PREFIX[0] == 's';
    assert [r][..0] == [] && Kept([], {}) == [];
  }
}
