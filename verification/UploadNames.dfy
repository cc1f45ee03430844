/** The names an upload may be stored under (packages/agent/src/index.ts). */
module UploadNames {
  import opened Basics
  import opened Decimal

  const NAME_MAX: nat := 120

  predicate Slash(c: char) {
    c == '/' || c == '\\'
  }

  /** Control characters and those some file systems refuse. */
  predicate Unfit(c: char) {
    c < ' ' || c in "<>:\"|?*"
  }

  predicate Fit(s: string) {
    forall i :: 0 <= i < |s| ==> !Slash(s[i]) && !Unfit(s[i])
  }

  /** The first two replacements: slashes become underscores, unfit characters go. */
  function Swept(raw: string): (s: string)
    ensures |s| <= |raw| && Fit(s) && (Fit(raw) ==> s == raw)
  {
    if raw == "" then ""
    else (if Slash(raw[0]) then "_" else if Unfit(raw[0]) then "" else [raw[0]]) + Swept(raw[1..])
  }

  function Dots(s: string): (n: nat)
    ensures n <= |s| && (n < |s| ==> s[n] != '.') && (n == 0 <==> s == "" || s[0] != '.')
  {
    if s != "" && s[0] == '.' then 1 + Dots(s[1..]) else 0
  }

  /** The third: one underscore for all leading dots. */
  function Undotted(s: string): string {
    if Dots(s) == 0 then s else "_" + s[Dots(s)..]
  }

  /** The name before it is cut to length. */
  function Tidied(raw: string): string {
    var t := Trim(Undotted(Swept(raw)));
    if t == "" then "file" else t
  }

  /** `extname` of a name without slashes */
  function ExtName(name: string): (ext: string)
    ensures |ext| <= |name| && ext == name[|name| - |ext|..]
    ensures ext != "" ==> ext[0] == '.'
  {
    var dot := LastIndexOf(name, ".");
    if dot <= 0 || name == ".." then "" else name[dot..]
  }

  /** `safeUploadName` */
  function SafeName(raw: string): string {
    var name := Tidied(raw);
    if |name| <= NAME_MAX then name
    else
      var ext := ExtName(name);
      name[..Taken(name, NAME_MAX - |ext|)] + ext
  }

  lemma {:induction false} TrimIsInside(s: string)
    ensures |Trim(s)| <= |s| && (Fit(s) ==> Fit(Trim(s)))
  {
    hide Fit;
    if s != "" && IsSpace(s[0]) {
      TrimIsInside(s[1..]);
      FitPart(s, 1, |s|);
      assert s[1..|s|] == s[1..];
      assert Trim(s) == Trim(s[1..]);
    } else {
      FitPart(s, 0, |Trim(s)|);
      assert Trim(s) == s[0..|Trim(s)|];
    }
  }

  lemma FitPart(s: string, i: nat, j: nat)
    requires i <= j <= |s|
    ensures Fit(s) ==> Fit(s[i..j])
  {}

  lemma FitJoin(a: string, b: string)
    requires Fit(a) && Fit(b)
    ensures Fit(a + b)
  {}

  lemma TidiedIsFit(raw: string)
    ensures Tidied(raw) != "" && Fit(Tidied(raw)) && Trimmed(Tidied(raw))
  {
    var s := Swept(raw);
    assert Fit("_") && Fit("file");
    hide Fit, Swept, Trim;
    assert Trimmed("file");
    FitPart(s, Dots(s), |s|);
    if Dots(s) > 0 { FitJoin("_", s[Dots(s)..]); }
    TrimIsInside(Undotted(s));
  }

  /** Whatever a client sends, the name is not empty and holds no slash, control or refused character. */
  lemma NameIsFit(raw: string)
    ensures SafeName(raw) != "" && Fit(SafeName(raw))
  {
    hide Fit, Tidied, ExtName;
    var name := Tidied(raw);
    TidiedIsFit(raw);
    var ext := ExtName(name);
    FitPart(name, 0, Taken(name, NAME_MAX - |ext|));
    FitPart(name, |name| - |ext|, |name|);
    assert name[0..Taken(name, NAME_MAX - |ext|)] == name[..Taken(name, NAME_MAX - |ext|)];
    assert name[|name| - |ext|..|name|] == ext;
    FitJoin(name[..Taken(name, NAME_MAX - |ext|)], ext);
  }

  /** The name fits unless its extension alone is too long, and then it is longer than before. */
  lemma NameFitsExactly(raw: string)
    ensures |SafeName(raw)| <= NAME_MAX <==> |Tidied(raw)| <= NAME_MAX || |ExtName(Tidied(raw))| <= NAME_MAX
    ensures |ExtName(Tidied(raw))| > NAME_MAX ==> |SafeName(raw)| == |Tidied(raw)| + NAME_MAX
  {}

  lemma OnlyDot(name: string, i: nat)
    requires 0 < i < |name| && name != ".." && forall j :: 0 <= j < |name| ==> (name[j] == '.' <==> j == i)
    ensures ExtName(name) == name[i..]
  {
    var dot := LastIndexOf(name, ".");
    assert "." <= name[i..];
  }

  /** Such names there are: one letter with an extension of `n` characters. */
  lemma LongExtensionGrows(n: nat)
    requires n > NAME_MAX
    ensures var raw := "a." + seq(n - 1, _ => 'b');
      |raw| == n + 1 && |SafeName(raw)| == n + 1 + NAME_MAX
  {
    var raw := "a." + seq(n - 1, _ => 'b');
    assert Fit(raw);
    assert Trimmed(raw) && Dots(raw) == 0;
    OnlyDot(raw, 1);
    hide Fit, Swept, Dots, Trim, Trimmed, ExtName;
    NameFitsExactly(raw);
  }

  /** A name that can be stored as it is. */
  predicate Tidy(name: string) {
    name != "" && Fit(name) && Trimmed(name) && name[0] != '.' && |name| <= NAME_MAX
  }

  lemma {:induction false} InnerCharStays(s: string)
    requires s != "" && !IsSpace(s[0])
    ensures TrimEnd(s) != "" && TrimEnd(s)[0] == s[0]
  {
    if IsSpace(s[|s| - 1]) { InnerCharStays(s[..|s| - 1]); }
  }

  lemma DottedIsTidied(raw: string)
    requires Swept(raw) == raw && Dots(raw) > 0
    ensures Tidied(raw) != "" && Tidied(raw)[0] == '_' && |Tidied(raw)| <= |raw|
  {
    var u := "_" + raw[Dots(raw)..];
    assert TrimStart(u) == u;
    InnerCharStays(u);
    hide Dots, TrimStart, TrimEnd, Swept;
    TrimIsInside(u);
  }

  /** A name that starts with a dot changes in its first character, or is cut. */
  lemma DottedIsChanged(raw: string)
    requires Swept(raw) == raw && Dots(raw) > 0
    ensures SafeName(raw) != raw
  {
    assert raw[0] == '.';
    hide Dots, Tidied, Swept, ExtName;
    DottedIsTidied(raw);
    NameFitsExactly(raw);
    hide Fit;
    var t := Tidied(raw);
    if |t| > NAME_MAX {
      var ext := ExtName(t);
      if Taken(t, NAME_MAX - |ext|) > 0 { assert SafeName(raw)[0] == '_'; }
    }
  }

  /** Cutting a name keeps its first and its last character, if something is left before a long extension. */
  lemma LongExtensionKeepsEnds(raw: string)
    requires |ExtName(Tidied(raw))| > NAME_MAX
    ensures var t, n := Tidied(raw), SafeName(raw);
      n != "" && t != "" && n[0] == t[0] && n[|n| - 1] == t[|t| - 1] && |n| > |t|
  {
    hide Tidied;
    var t := Tidied(raw);
    var ext := ExtName(t);
    hide ExtName;
    assert ext[|ext| - 1] == t[|t| - 1];
  }

  /** A name is stored unchanged exactly when it is tidy. */
  lemma KeptExactly(raw: string)
    ensures SafeName(raw) == raw <==> Tidy(raw)
  {
    NameIsFit(raw);
    if SafeName(raw) == raw && Dots(raw) > 0 { DottedIsChanged(raw); }
    if Fit(raw) && Dots(raw) == 0 { UndottedKeptExactly(raw); }
  }

  lemma UndottedTidied(raw: string)
    requires Fit(raw) && Dots(raw) == 0
    ensures Tidied(raw) == raw <==> raw != "" && Trimmed(raw)
    ensures Trimmed(Tidied(raw)) && Tidied(raw) != "" && (|Tidied(raw)| <= |raw| || Tidied(raw) == "file")
  {
    TidiedIsFit(raw);
    TrimIsInside(raw);
    hide Fit, Dots, Trim, Trimmed;
  }

  lemma UndottedKeptExactly(raw: string)
    requires Fit(raw) && Dots(raw) == 0
    ensures SafeName(raw) == raw <==> Tidy(raw)
  {
    var t := Tidied(raw);
    assert raw == "" || raw[0] != '.';
    hide Tidied, Dots, Fit, ExtName, Trimmed;
    UndottedTidied(raw);
    if |t| > NAME_MAX { LongIsChanged(raw); }
  }

  lemma LongIsChanged(raw: string)
    requires Fit(raw) && Dots(raw) == 0 && |Tidied(raw)| > NAME_MAX
    ensures SafeName(raw) != raw
  {
    hide SafeName, Tidied, Dots, Fit, ExtName, Trimmed;
    UndottedTidied(raw);
    NameFitsExactly(raw);
    if |ExtName(Tidied(raw))| > NAME_MAX {
      LongExtensionKeepsEnds(raw);
      SameEndsTrimmed(Tidied(raw), SafeName(raw));
    }
  }

  lemma SameEndsTrimmed(t: string, n: string)
    requires t != "" && n != "" && n[0] == t[0] && n[|n| - 1] == t[|t| - 1]
    ensures Trimmed(n) <==> Trimmed(t)
  {}

  // ---- what becomes of a name that is not ----

  /** Character by character: a slash becomes an underscore, an unfit character goes, any other stays. */
  lemma {:induction false} SweptJoins(a: string, b: string)
    ensures Swept(a + b) == Swept(a) + Swept(b)
  {
    if a == "" {
      assert a + b == b;
    } else {
      assert (a + b)[1..] == a[1..] + b;
      SweptJoins(a[1..], b);
      hide Slash, Unfit;
    }
  }

  lemma SweptCharacter(c: char)
    ensures Swept([c]) == if c == '/' || c == '\\' then "_" else if c < ' ' || c in "<>:\"|?*" then "" else [c]
  {
    assert [c][1..] == "";
  }

  /** All the dots in front become one underscore. */
  lemma {:induction false} LeadingDots(n: nat, rest: string)
    requires n > 0 && (rest == "" || rest[0] != '.')
    ensures Undotted(seq(n, _ => '.') + rest) == "_" + rest
  {
    var s := seq(n, _ => '.') + rest;
    DotsAre(n, rest);
    assert s[n..] == rest;
    hide Dots;
  }

  lemma {:induction false} DotsAre(n: nat, rest: string)
    requires rest == "" || rest[0] != '.'
    ensures Dots(seq(n, _ => '.') + rest) == n
  {
    var s := seq(n, _ => '.') + rest;
    if n == 0 {
      assert s == rest;
    } else {
      assert s[1..] == seq(n - 1, _ => '.') + rest;
      DotsAre(n - 1, rest);
    }
  }

  /** Whatever was swept, a tidy result is the name; a blank one becomes `file`. */
  lemma TidyIsTheName(raw: string)
    ensures Tidy(Trim(Undotted(Swept(raw)))) ==> SafeName(raw) == Trim(Undotted(Swept(raw)))
    ensures Trim(Undotted(Swept(raw))) == "" ==> SafeName(raw) == "file"
  {
    hide Swept, Undotted, Trim, Fit;
  }

  /** A name that is too long keeps its front and, if that is not too long itself, its whole extension. */
  lemma LongNamesKeepTheirExtension(stem: string, ext: string)
    requires ext != "" && '.' !in stem && '.' !in ext && |ext| < NAME_MAX < |stem| + 1 + |ext|
    requires stem != "" && Fit(stem + "." + ext) && Trimmed(stem + "." + ext)
    ensures SafeName(stem + "." + ext) == stem[..NAME_MAX - |ext| - 1] + "." + ext
  {
    hide *;
    var raw := stem + "." + ext;
    OneDot(stem, ext);
    OnlyDot(raw, |stem|);
    assert raw[|stem|..] == "." + ext;
    assert raw[0] == stem[0] && stem[0] in stem;
    NoDotInFront(raw);
    UndottedTidied(raw);
    CutName(raw, "." + ext);
    assert raw[..NAME_MAX - |ext| - 1] == stem[..NAME_MAX - |ext| - 1];
    assert stem[..NAME_MAX - |ext| - 1] + ("." + ext) == stem[..NAME_MAX - |ext| - 1] + "." + ext;
  }

  lemma NoDotInFront(raw: string)
    requires raw != "" && raw[0] != '.'
    ensures Dots(raw) == 0
  {}

  lemma CutName(raw: string, ext: string)
    requires Tidied(raw) == raw && ExtName(raw) == ext && |ext| <= NAME_MAX < |raw|
    ensures SafeName(raw) == raw[..NAME_MAX - |ext|] + ext
  {
    hide Tidied, ExtName;
  }

  lemma OneDot(stem: string, ext: string)
    requires '.' !in stem && '.' !in ext
    ensures var raw := stem + "." + ext; forall j :: 0 <= j < |raw| ==> (raw[j] == '.' <==> j == |stem|)
  {
    var raw := stem + "." + ext;
    forall j | 0 <= j < |raw| ensures raw[j] == '.' <==> j == |stem| {
      if j < |stem| { assert stem[j] in stem; }
      if j > |stem| { assert ext[j - |stem| - 1] in ext; }
    }
  }

  // ---- the names that are tried ----

  function Stem(name: string): string {
    name[..|name| - |ExtName(name)|]
  }

  /** The names an upload tries, in order: its own, then with -1, -2, … before the extension. */
  function Candidate(name: string, i: nat): string {
    if i == 0 then name else Stem(name) + "-" + Numeral(i) + ExtName(name)
  }
}
