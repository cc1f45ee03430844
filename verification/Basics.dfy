/** Small shared vocabulary: optional values, JavaScript's ordered maps and string operations, flags over a run. */
module Basics {

  datatype Option<+T> = None | Some(value: T)

  /** JavaScript truthiness of an optional string: absent and empty are both false. */
  predicate Truthy(o: Option<string>) {
    o.Some? && o.value != ""
  }

  /** A `Map<string, V>`: the entries, and the order in which their keys were first inserted. */
  datatype RawMap<V> = RawMap(keys: seq<string>, vals: map<string, V>) {
    ghost predicate WellFormed() {
      && (forall k :: k in vals <==> k in keys)
      && forall i, j :: 0 <= i < j < |keys| ==> keys[i] != keys[j]
    }
  }

  type JsMap<V> = m: RawMap<V> | m.WellFormed() witness RawMap([], map[])

  /** `map.set(k, v)`: a key already present keeps its place in the iteration order. */
  function Put<V>(m: JsMap<V>, k: string, v: V): (r: JsMap<V>)
    ensures r.vals == m.vals[k := v]
  {
    RawMap(if k in m.vals then m.keys else m.keys + [k], m.vals[k := v])
  }

  // ---- white space ----

  /** What a regular expression's `.` does not match. */
  predicate LineEnd(c: char) {
    c == '\n' || c == '\r' || c == '\U{2028}' || c == '\U{2029}'
  }

  /** What `trim` and `trimEnd` strip and `\s` matches. */
  predicate IsSpace(c: char) {
    || '\t' <= c <= '\r' || c == ' ' || c == '\U{00a0}' || c == '\U{1680}' || '\U{2000}' <= c <= '\U{200a}'
    || LineEnd(c) || c == '\U{202f}' || c == '\U{205f}' || c == '\U{3000}' || c == '\U{feff}'
  }

  function TrimEnd(s: string): (t: string)
    ensures t <= s
    ensures t == "" || !IsSpace(t[|t| - 1])
    ensures s != "" && !IsSpace(s[|s| - 1]) ==> t == s
  {
    if s == "" then "" else if IsSpace(s[|s| - 1]) then TrimEnd(s[..|s| - 1]) else s
  }

  function TrimStart(s: string): (t: string)
    ensures forall c <- t :: c in s
    ensures t == "" || !IsSpace(t[0])
    ensures s != "" && !IsSpace(s[0]) ==> t == s
    ensures t != "" ==> s != "" && t[|t| - 1] == s[|s| - 1]
  {
    if s == "" then "" else if IsSpace(s[0]) then TrimStart(s[1..]) else s
  }

  predicate Trimmed(s: string) {
    s == "" || (!IsSpace(s[0]) && !IsSpace(s[|s| - 1]))
  }

  function Trim(s: string): (t: string)
    ensures Trimmed(t)
    ensures forall c <- t :: c in s
    ensures Trimmed(s) ==> t == s
  {
    TrimEnd(TrimStart(s))
  }

  // ---- searching and slicing ----

  /** `lastIndexOf` */
  function LastIndexOf(s: string, pat: string): (i: int)
    ensures -1 <= i && i + |pat| <= |s| + (if i == -1 then |pat| else 0)
    ensures i >= 0 ==> pat <= s[i..] && (pat != "" ==> s[i] == pat[0])
    ensures forall j :: i < j && j + |pat| <= |s| ==> !(pat <= s[j..])
    decreases |s|
  {
    LastIndexFrom(s, pat, |s|)
  }

  function LastIndexFrom(s: string, pat: string, n: nat): (i: int)
    requires n <= |s|
    ensures -1 <= i <= n && (i >= 0 ==> i + |pat| <= |s| && pat <= s[i..] && (pat != "" ==> s[i] == pat[0]))
    ensures forall j :: i < j <= n && j + |pat| <= |s| ==> !(pat <= s[j..])
  {
    if n + |pat| <= |s| && pat <= s[n..] then n
    else if n == 0 then -1
    else LastIndexFrom(s, pat, n - 1)
  }

  /** The length of `s.slice(0, n)`: a negative index counts from the end. */
  function Taken(s: string, n: int): (k: nat)
    ensures k <= |s|
  {
    if n >= 0 then (if n < |s| then n else |s|) else if |s| + n >= 0 then |s| + n else 0
  }

  // ---- flags over a run ----

  /** Whether a flag that `on` sets and `off` clears, step by step, is set at the end. */
  predicate Latched(on: seq<bool>, off: seq<bool>)
    requires |on| == |off|
  {
    |on| > 0 &&
    (var n := |on| - 1; on[n] || (!off[n] && Latched(on[..n], off[..n])))
  }

  lemma LatchedGrows(on: seq<bool>, off: seq<bool>, sets: bool, clears: bool)
    requires |on| == |off|
    ensures Latched(on + [sets], off + [clears]) <==> sets || (!clears && Latched(on, off))
  {
    assert (on + [sets])[..|on|] == on && (off + [clears])[..|off|] == off;
  }

  /** It is set if and only if some step set it and no later step cleared it. */
  lemma {:induction false} LatchedExactly(on: seq<bool>, off: seq<bool>)
    requires |on| == |off|
    ensures Latched(on, off) <==> exists i :: 0 <= i < |on| && on[i] && forall j :: i < j < |on| ==> !off[j]
  {
    if |on| > 0 {
      var n := |on| - 1;
      LatchedExactly(on[..n], off[..n]);
      if Latched(on, off) && !on[n] {
        var i :| 0 <= i < n && on[..n][i] && forall j :: i < j < n ==> !off[..n][j];
        assert forall j :: i < j < n ==> off[..n][j] == off[j];
        assert on[i];
      }
      if i :| 0 <= i < |on| && on[i] && forall j :: i < j < |on| ==> !off[j] {
        if i < n { assert on[..n][i] && forall j :: i < j < n ==> off[..n][j] == off[j]; }
      }
    }
  }
}
