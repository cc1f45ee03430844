/** How a run without a person answers an approval request (apps/cli/src/headless/policy.ts). */
module ApprovePolicy {
  import opened Basics

  datatype Decision = Once | ForSession | Reject

  /** A permission file; the roots of `allowPaths` are resolved. A missing list is an empty one. */
  datatype Permissions = Permissions(
    requireApproval: set<string>,
    denyCommands: set<string>,
    allowCommands: set<string>,
    allowHosts: set<string>,
    allowPaths: set<string>)

  datatype Policy = RejectAll | Auto(session: bool) | Listed(permissions: Permissions)

  /** A gated call: its command line, the host of its URL and its resolved path, as far as it has them. */
  datatype Request = Request(toolName: string, command: Option<string>, host: Option<string>, path: Option<string>)

  function Word(s: string): string {
    if s == "" || IsSpace(s[0]) then "" else [s[0]] + Word(s[1..])
  }

  /** `commandArgv0`: the executable only, never an argument */
  function Argv0(q: Request): Option<string> {
    if q.toolName == "runCommand" && q.command.Some? then Some(Word(Trim(q.command.value))) else None
  }

  /** `withinPath`, for resolved paths */
  predicate WithinPath(child: string, root: string) {
    child == root || (if root != "" && root[|root| - 1] == '/' then root else root + "/") <= child
  }

  function MatchPolicy(k: Permissions, q: Request): Decision {
    if q.toolName in k.requireApproval then Reject
    else if Truthy(Argv0(q)) then
      if Argv0(q).value in k.denyCommands then Reject
      else if Argv0(q).value in k.allowCommands then ForSession
      else Reject
    else if q.toolName == "httpFetch" then
      if Truthy(q.host) && q.host.value in k.allowHosts then ForSession else Reject
    else if q.toolName == "writeFile" || q.toolName == "applyPatch" then
      if Truthy(q.path) && exists root <- k.allowPaths :: WithinPath(q.path.value, root) then ForSession else Reject
    else Reject
  }

  function Decide(p: Policy, q: Request): Decision {
    match p
    case RejectAll => Reject
    case Auto(session) => if session then ForSession else Once
    case Listed(k) => MatchPolicy(k, q)
  }

  // ---- what a permission file means ----

  /** `l` allows no less than `k`: more on its allow lists, less on the others. */
  predicate Wider(k: Permissions, l: Permissions) {
    && l.requireApproval <= k.requireApproval && l.denyCommands <= k.denyCommands
    && k.allowCommands <= l.allowCommands && k.allowHosts <= l.allowHosts && k.allowPaths <= l.allowPaths
  }

  /** Allowing more never takes a grant away, and an empty file grants nothing. */
  lemma WiderGrantsMore(k: Permissions, l: Permissions, q: Request)
    requires Wider(k, l)
    ensures Decide(Listed(k), q) != Reject ==> Decide(Listed(l), q) == Decide(Listed(k), q)
    ensures k.allowCommands == {} && k.allowHosts == {} && k.allowPaths == {} ==> Decide(Listed(k), q) == Reject
  {}

  /** A component of a path. */
  predicate IsName(s: string) {
    s != "" && '/' !in s
  }

  function Joined(names: seq<string>): string {
    if names == [] then "" else "/" + names[0] + Joined(names[1..])
  }

  /** An absolute path as `resolve` writes it. */
  function Absolute(names: seq<string>): string {
    if names == [] then "/" else Joined(names)
  }

  /** What follows a name in a path. */
  predicate Ends(s: string) {
    s == "" || s[0] == '/'
  }

  lemma NamesCancel(x: string, u: string, y: string, v: string)
    requires '/' !in x && '/' !in y && Ends(u) && Ends(v) && x + u == y + v
    ensures x == y && u == v
  {
    var w := x + u;
    assert forall i :: 0 <= i < |x| ==> w[i] == x[i] && w[i] != '/';
    assert w == y + v && forall i :: 0 <= i < |y| ==> w[i] == y[i] && w[i] != '/';
    assert |x| < |w| ==> w[|x|] == u[0];
    assert |y| < |w| ==> w[|y|] == v[0];
    assert x == w[..|x|] && y == w[..|y|] && u == w[|x|..] && v == w[|y|..];
  }

  predicate Beneath(c: string, r: string) {
    c == r || r + "/" <= c
  }

  lemma {:induction false} JoinedBeneathExactly(cs: seq<string>, rs: seq<string>)
    requires (forall n <- cs :: IsName(n)) && (forall n <- rs :: IsName(n))
    ensures Beneath(Joined(cs), Joined(rs)) <==> rs <= cs
  {
    if rs == [] {
      assert Joined(rs) + "/" == "/";
    } else if cs != [] {
      var c, r, cs', rs' := cs[0], rs[0], cs[1..], rs[1..];
      JoinedBeneathExactly(cs', rs');
      FirstNames(c, Joined(cs'), r, Joined(rs'));
      assert rs <= cs <==> r == c && rs' <= cs' by { PrefixBySteps(cs, rs); }
    }
  }

  lemma PrefixBySteps(cs: seq<string>, rs: seq<string>)
    requires cs != [] && rs != []
    ensures rs <= cs <==> rs[0] == cs[0] && rs[1..] <= cs[1..]
  {
    if rs[0] == cs[0] && rs[1..] <= cs[1..] {
      assert rs == [rs[0]] + rs[1..] && cs[..|rs|] == [cs[0]] + cs[1..][..|rs| - 1];
    }
    if rs <= cs { assert cs[1..][..|rs| - 1] == cs[..|rs|][1..]; }
  }

  lemma FirstNames(c: string, u: string, r: string, v: string)
    requires IsName(c) && IsName(r) && Ends(u) && Ends(v)
    ensures Beneath("/" + c + u, "/" + r + v) <==> c == r && Beneath(u, v)
  {
    var x, y := "/" + c + u, "/" + r + v;
    assert x[1..] == c + u && y[1..] == r + v;
    if x == y { NamesCancel(c, u, r, v); }
    if y + "/" <= x {
      var z := x[|y| + 1..];
      assert x == y + "/" + z;
      assert c + u == r + (v + "/" + z);
      NamesCancel(c, u, r, v + "/" + z);
      assert v + "/" <= u;
    }
    if c == r && v + "/" <= u {
      assert u == v + "/" + u[|v| + 1..];
      assert x == y + "/" + u[|v| + 1..];
    }
  }

  lemma LastChar(names: seq<string>)
    requires names != [] && forall n <- names :: IsName(n)
    ensures Joined(names) != "" && Joined(names)[|Joined(names)| - 1] != '/'
  {
    var name, rest := names[0], names[1..];
    assert name in names && IsName(name);
    if rest != [] {
      LastChar(rest);
    } else {
      assert Joined(names) == "/" + name;
      assert name[|name| - 1] in name;
    }
  }

  /** The separator-aware comparison of texts is the prefix order on components. */
  lemma WithinPathExactly(child: seq<string>, root: seq<string>)
    requires (forall n <- child :: IsName(n)) && (forall n <- root :: IsName(n))
    ensures WithinPath(Absolute(child), Absolute(root)) <==> root <= child
  {
    if root == [] {
      assert Absolute(child)[0] == '/';
    } else {
      LastChar(root);
      JoinedBeneathExactly(child, root);
      assert |Joined(root)| > 1 by { assert root[0] in root; }
    }
  }
}
