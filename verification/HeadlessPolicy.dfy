/** What the policies of a run without a person do to a whole turn (apps/cli/src/headless/run.ts, policy.ts). */
module HeadlessPolicy {
  import opened Basics
  import opened ServerModel
  import opened Delivery
  import opened ApprovePolicy
  import opened Headless

  // ---- the policies without a file ----

  function Refusal(gate: GateKind, id: string): Reply {
    match gate
    case Approval => ApproveTool(id, Reject)
    case Question => DismissQuestion(id)
    case Plan => ApprovePlan(id, false)
  }

  function Consent(gate: GateKind, id: string, session: bool): Reply {
    match gate
    case Approval => ApproveTool(id, if session then ForSession else Once)
    case Question => DismissQuestion(id)
    case Plan => ApprovePlan(id, true)
  }

  /** The gates among the first `n` signals that belong to the turn, each with its id, in order. */
  function Gates(ss: seq<Signal>, r: string, n: nat): seq<(GateKind, string)>
    requires n <= |ss|
  {
    if n == 0 then []
    else Gates(ss, r, n - 1) + if GateAt(ss, r, n - 1) then [(ss[n - 1].e.gate, ss[n - 1].e.id)] else []
  }

  /** What ends the turn gives its exit code, unless it finished and something was refused. */
  predicate ExitsWith(s: Signal, refused: bool, code: int) {
    && (s.Interrupt? ==> code == 130)
    && (s.Failure? ==> code == 1)
    && (s.Event? ==> code == if refused then 4 else 0)
  }

  lemma {:induction false} RefusalsDue(ss: seq<Signal>, r: string, n: nat)
    requires n <= |ss|
    ensures var gates := Gates(ss, r, n);
      && RepliesDue(ss, r, RejectAll, n) == seq(|gates|, i requires 0 <= i < |gates| => Refusal(gates[i].0, gates[i].1))
      && (RefusedBefore(ss, r, RejectAll, n) <==> exists i :: 0 <= i < |gates| && !gates[i].0.Question?)
  {
    if n > 0 {
      RefusalsDue(ss, r, n - 1);
      RefusedGrows(ss, r, RejectAll, n - 1);
      var before, gates := Gates(ss, r, n - 1), Gates(ss, r, n);
      assert forall i :: 0 <= i < |before| ==> gates[i] == before[i];
      assert RefusedAt(ss, r, RejectAll, n - 1) <==> |gates| > |before| && !gates[|before|].0.Question?;
      hide RefusedBefore, RefusedAt, GateAt;
    }
  }

  /**
   * Under the default policy, for every run: each gate of the turn is refused by its own id, in order, questions
   * are dismissed, nothing else is answered, and a finished turn exits with 4 if and only if it met a gate that
   * is not a question.
   */
  lemma RejectAllRefuses(r: string, ss: seq<Signal>, n: nat)
    requires n < |ss| && Open(ss[..n], r) && Headless.Ends(ss[n], r)
    ensures var h := Play(r, RejectAll, ss); var gates := Gates(ss, r, n);
      && h.replies == seq(|gates|, i requires 0 <= i < |gates| => Refusal(gates[i].0, gates[i].1))
      && h.exit.Some? && ExitsWith(ss[n], exists i :: 0 <= i < |gates| && !gates[i].0.Question?, h.exit.value)
  {
    ExitCodeExactly(r, RejectAll, ss, n);
    RefusalsDue(ss, r, n);
    hide Play, RepliesDue, RefusedBefore, Gates, Open;
  }

  lemma {:induction false} ConsentsDue(ss: seq<Signal>, r: string, session: bool, n: nat)
    requires n <= |ss|
    ensures var gates := Gates(ss, r, n);
      && RepliesDue(ss, r, Auto(session), n)
         == seq(|gates|, i requires 0 <= i < |gates| => Consent(gates[i].0, gates[i].1, session))
      && !RefusedBefore(ss, r, Auto(session), n)
  {
    if n > 0 {
      ConsentsDue(ss, r, session, n - 1);
      RefusedGrows(ss, r, Auto(session), n - 1);
      var before, gates := Gates(ss, r, n - 1), Gates(ss, r, n);
      assert forall i :: 0 <= i < |before| ==> gates[i] == before[i];
      assert !RefusedAt(ss, r, Auto(session), n - 1);
      hide RefusedBefore, RefusedAt, GateAt;
    }
  }

  /** Under `auto` each approval and plan of the turn is granted, and a finished turn exits with 0. */
  lemma AutoGrants(r: string, session: bool, ss: seq<Signal>, n: nat)
    requires n < |ss| && Open(ss[..n], r) && Headless.Ends(ss[n], r)
    ensures var h := Play(r, Auto(session), ss); var gates := Gates(ss, r, n);
      && h.replies == seq(|gates|, i requires 0 <= i < |gates| => Consent(gates[i].0, gates[i].1, session))
      && h.exit.Some? && ExitsWith(ss[n], false, h.exit.value)
  {
    ExitCodeExactly(r, Auto(session), ss, n);
    ConsentsDue(ss, r, session, n);
    hide Play, RepliesDue, RefusedBefore, Gates, Open;
  }

  // ---- a permission file ----

  /** `w` is the first word of the command line. */
  ghost predicate FirstWord(line: string, w: string) {
    exists a, b :: IsFirstWord(line, a, w, b)
  }

  predicate IsFirstWord(line: string, a: string, w: string, b: string) {
    && line == a + w + b && w != ""
    && (forall c <- a :: IsSpace(c)) && (forall c <- w :: !IsSpace(c)) && (b == "" || IsSpace(b[0]))
  }

  lemma {:induction false} WordIs(w: string, b: string)
    requires (forall c <- w :: !IsSpace(c)) && (b == "" || IsSpace(b[0]))
    ensures Word(w + b) == w
  {
    if w == "" {
      assert w + b == b;
    } else {
      assert w[0] in w && (w + b)[1..] == w[1..] + b;
      WordIs(w[1..], b);
      hide IsSpace;
    }
  }

  lemma {:induction false} TrimStartSkips(a: string, s: string)
    requires (forall c <- a :: IsSpace(c)) && s != "" && !IsSpace(s[0])
    ensures TrimStart(a + s) == s
  {
    if a == "" {
      assert a + s == s;
    } else {
      assert a[0] in a && (a + s)[1..] == a[1..] + s;
      TrimStartSkips(a[1..], s);
      hide IsSpace;
    }
  }

  lemma {:induction false} TrimEndKeepsWord(w: string, b: string)
    requires w != "" && (forall c <- w :: !IsSpace(c)) && (b == "" || IsSpace(b[0]))
    ensures exists d :: TrimEnd(w + b) == w + d && (d == "" || IsSpace(d[0]))
    decreases |b|
  {
    if b == "" {
      assert w + b == w && w[|w| - 1] in w;
      assert TrimEnd(w + b) == w + b;
    } else if IsSpace(b[|b| - 1]) {
      assert (w + b)[..|w + b| - 1] == w + b[..|b| - 1];
      TrimEndKeepsWord(w, b[..|b| - 1]);
    } else {
      assert TrimEnd(w + b) == w + b;
    }
  }

  lemma {:induction false} SpacesFirst(line: string) returns (a: string, s: string)
    ensures line == a + s && (forall c <- a :: IsSpace(c)) && (s == "" || !IsSpace(s[0]))
  {
    if line == "" || !IsSpace(line[0]) {
      a, s := "", line;
    } else {
      a, s := SpacesFirst(line[1..]);
      a := [line[0]] + a;
    }
    hide IsSpace;
  }

  lemma {:induction false} WordFirst(s: string) returns (w: string, b: string)
    ensures s == w + b && (forall c <- w :: !IsSpace(c)) && (b == "" || IsSpace(b[0]))
    ensures s != "" && !IsSpace(s[0]) ==> w != ""
  {
    if s == "" || IsSpace(s[0]) {
      w, b := "", s;
    } else {
      w, b := WordFirst(s[1..]);
      w := [s[0]] + w;
    }
    hide IsSpace;
  }

  lemma {:induction false} BlankTrims(a: string)
    requires forall c <- a :: IsSpace(c)
    ensures Trim(a) == ""
  {
    if a != "" {
      assert a[0] in a;
      BlankTrims(a[1..]);
    }
    hide IsSpace;
  }

  /** The executable is the first word, and a blank line has none. */
  lemma Argv0Exactly(line: string)
    ensures forall w :: FirstWord(line, w) <==> w == Word(Trim(line)) && w != ""
  {
    forall w | FirstWord(line, w) ensures w == Word(Trim(line)) && w != "" {
      var a, b :| IsFirstWord(line, a, w, b);
      WordOfLine(line, a, w, b);
    }
    var a, s := SpacesFirst(line);
    if s == "" {
      assert line == a;
      BlankTrims(a);
    } else {
      var w, b := WordFirst(s);
      assert line == a + w + b;
      assert IsFirstWord(line, a, w, b);
      WordOfLine(line, a, w, b);
    }
  }

  lemma WordOfLine(line: string, a: string, w: string, b: string)
    requires IsFirstWord(line, a, w, b)
    ensures Word(Trim(line)) == w
  {
    assert line == a + (w + b);
    assert w[0] in w;
    TrimStartSkips(a, w + b);
    TrimEndKeepsWord(w, b);
    var d :| TrimEnd(w + b) == w + d && (d == "" || IsSpace(d[0]));
    WordIs(w, d);
    hide IsSpace;
  }

  /** The file lists the call's own kind of thing: its executable, its host or a directory above its path. */
  ghost predicate OnAllowList(k: Permissions, q: Request) {
    || (q.toolName == "runCommand" && q.command.Some? &&
        exists w :: FirstWord(q.command.value, w) && w in k.allowCommands && w !in k.denyCommands)
    || (q.toolName == "httpFetch" && q.host.Some? && q.host.value != "" && q.host.value in k.allowHosts)
    || ((q.toolName == "writeFile" || q.toolName == "applyPatch") && q.path.Some? && q.path.value != ""
        && exists root <- k.allowPaths :: WithinPath(q.path.value, root))
  }

  /** A file grants a call, and then for the session, if and only if it is on its list and no human has to be asked. */
  lemma FileGrantsExactly(k: Permissions, q: Request)
    ensures Decide(Listed(k), q) == if q.toolName !in k.requireApproval && OnAllowList(k, q) then ForSession else Reject
  {
    if q.toolName == "runCommand" && q.command.Some? {
      Argv0Exactly(q.command.value);
    }
    hide FirstWord, Word, Trim, WithinPath;
  }
}
