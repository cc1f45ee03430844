/**
 * Moving files in ranges: the host's clamped range read and upload naming
 * (packages/agent/src/index.ts), and the desktop's paging download
 * (apps/desktop/src/main/index.ts).
 */
module Transfer {
  import opened Basics
  import opened Decimal
  import opened UploadNames

  type Bytes = seq<bv8>

  const CAP: nat := 8 * 1024 * 1024
  const DOWNLOAD_CHUNK: nat := 8 * 1024 * 1024
  const DOWNLOAD_MAX: nat := 1024 * 1024 * 1024
  const UPLOAD_MAX: nat := 50 * 1024 * 1024

  // ---- the host's range read ----

  /** A requested byte range, in JSON numbers. */
  datatype Range = Range(offset: real, length: real)

  /** `size` is absent from the replies of hosts that predate ranges. */
  datatype Page = Page(bytes: Bytes, truncated: bool, size: Option<nat>)

  function Max(a: int, b: int): int { if a < b then b else a }

  function Min(a: int, b: int): int { if a < b then a else b }

  function Start(range: Option<Range>): nat {
    if range.Some? then Max(0, range.value.offset.Floor) else 0
  }

  function Length(range: Option<Range>): (n: nat)
    ensures 1 <= n <= CAP
  {
    Min(Max(1, if range.Some? then range.value.length.Floor else CAP), CAP)
  }

  function Want(size: nat, range: Option<Range>): nat {
    Max(0, Min(Length(range), size - Start(range)))
  }

  /** The bytes of the file inside the range, as far as there are any. */
  function Slice(file: Bytes, from: nat, want: nat): Bytes {
    if from + want <= |file| then file[from..from + want] else []
  }

  /**
   * `readSync` may deliver fewer bytes than asked for; `grants` is how many it is ready to deliver at a
   * position, and away from the end of the file it delivers at least one.
   */
  method ReadArtifact(file: Bytes, range: Option<Range>, grants: nat -> nat) returns (page: Page)
    ensures page.size == Some(|file|)
    ensures |page.bytes| == Want(|file|, range)
    ensures forall k :: 0 <= k < |page.bytes| ==>
      Start(range) + k < |file| && page.bytes[k] == file[Start(range) + k]
    ensures page.truncated <==> Start(range) + Want(|file|, range) < |file|
  {
    var size := |file|;
    var offset := Start(range);
    var want := Want(size, range);
    var buf := new bv8[want](_ => 0);
    if want > 0 {
      var read := 0;
      while read < want
        invariant 0 <= read <= want && offset + want <= size
        invariant forall k :: 0 <= k < read ==> buf[k] == file[offset + k]
      {
        var n := Min(Max(1, grants(offset + read)), want - read);
        forall k | 0 <= k < n {
          buf[read + k] := file[offset + read + k];
        }
        read := read + n;
      }
    }
    page := Page(buf[..], offset + want < size, Some(size));
  }

  /** What the host replies; one that predates ranges always sends the head of the file. */
  function Served(file: Bytes, range: Range, ranged: bool): Page {
    var want := if ranged then Want(|file|, Some(range)) else Min(|file|, CAP);
    var from := if ranged then Start(Some(range)) else 0;
    Page(Slice(file, from, want), from + want < |file|, if ranged then Some(|file|) else None)
  }

  /** The read loop delivers the served page, however the bytes trickle in. */
  method ServeRange(file: Bytes, range: Range, grants: nat -> nat) returns (page: Page)
    ensures page == Served(file, range, true)
  {
    page := ReadArtifact(file, Some(range), grants);
    assert page.bytes == Slice(file, Start(Some(range)), Want(|file|, Some(range)));
  }

  // ---- the desktop's download ----

  /** How many requests a file of this size takes in pages of this size: at least one. */
  function Requests(size: nat, page: nat): nat
    requires page > 0
  {
    if size <= page then 1 else 1 + Requests(size - page, page)
  }

  /** The least number of pages, at least one, that holds the file. */
  lemma {:induction false} RequestsIsTheCeiling(size: nat, page: nat)
    requires page > 0
    ensures var r := Requests(size, page); r >= 1 && size <= r * page && (r > 1 ==> (r - 1) * page < size)
  {
    if size > page {
      RequestsIsTheCeiling(size - page, page);
      var r := Requests(size - page, page);
      assert (r + 1) * page == r * page + page;
      assert r * page == (r - 1) * page + page;
    }
  }

  /** The byte range the desktop asks for. */
  function Ask(offset: nat, chunk: nat): Range {
    Range(offset as real, chunk as real)
  }

  lemma NextPage(file: Bytes, offset: nat, chunk: nat)
    requires 0 < chunk && offset <= |file|
    ensures var n: nat := Min(Min(chunk, CAP), |file| - offset);
      Served(file, Ask(offset, chunk), true) == Page(file[offset..offset + n], offset + n < |file|, Some(|file|))
  {}

  lemma OldHostPage(file: Bytes, chunk: nat)
    ensures Served(file, Ask(0, chunk), false) == Page(file[..Min(|file|, CAP)], |file| > CAP, None)
  {}

  /**
   * The paging loop; `content` is what has been written. A file within the limit that does not change is
   * reassembled exactly, in as many requests as its pages. A host that predates ranges yields the head of
   * the file in one request.
   */
  method FetchAll(file: Bytes, chunk: nat, ranged: bool) returns (ok: bool, content: Bytes, requests: nat)
    requires 0 < chunk
    ensures ok <==> !ranged || |file| <= DOWNLOAD_MAX
    ensures ok && ranged ==> content == file && requests == Requests(|file|, Min(chunk, CAP))
    ensures ok && !ranged ==> content == file[..Min(|file|, CAP)] && requests == 1
    ensures !ok ==> content == [] && requests == 1
  {
    hide Served, Ask;
    ok, content, requests := true, [], 0;
    var offset := 0;
    var page := Min(chunk, CAP);
    while true
      invariant 0 <= offset <= |file| && content == file[..offset]
      invariant offset > 0 ==> ranged && |file| <= DOWNLOAD_MAX && offset < |file|
      invariant requests > 0 ==> offset > 0
      invariant requests + Requests(|file| - offset, page) == Requests(|file|, page)
      decreases |file| - offset
    {
      if ranged { NextPage(file, offset, chunk); } else { OldHostPage(file, chunk); }
      var r := Served(file, Ask(offset, chunk), ranged);
      requests := requests + 1;
      if r.size.Some? && r.size.value > DOWNLOAD_MAX {
        return false, content, requests;
      }
      content := content + r.bytes;
      offset := offset + |r.bytes|;
      assert content == file[..offset];
      if r.size.None? { break; }
      if !r.truncated || |r.bytes| == 0 || offset >= r.size.value { break; }
    }
  }

  class Disk {
    var files: map<string, Bytes>

    constructor ()
      ensures files == map[]
    {
      files := map[];
    }

    /** Download into a file of its own; nothing is left behind when the download is given up. */
    method DownloadTo(abs: string, file: Bytes) returns (ok: bool)
      modifies this
      ensures ok <==> |file| <= DOWNLOAD_MAX
      ensures files == if ok then old(files)[abs := file] else old(files) - {abs}
    {
      files := files[abs := []];
      var content, requests;
      ok, content, requests := FetchAll(file, DOWNLOAD_CHUNK, true);
      files := files[abs := content];
      if !ok { files := files - {abs}; }
    }

    /** `existsSync` in the upload directory, which is never empty of its own two links. */
    predicate Exists(name: string)
      reads this
    {
      name in files || name == "." || name == ".."
    }

    /** Store an upload under the first free name; `probes` counts the names looked at. */
    method UploadFile(filename: string, bytes: Bytes) returns (stored: Option<string>, probes: nat)
      modifies this
      ensures stored.Some? <==> |bytes| <= UPLOAD_MAX
      ensures stored.None? ==> files == old(files)
      ensures var name := SafeName(filename);
        stored.Some? ==>
          && !old(Exists(stored.value)) && files == old(files)[stored.value := bytes]
          && 1 <= probes <= |old(files)| + (if name == "." || name == ".." then 2 else 1)
          && stored.value == Candidate(name, probes - 1)
          && forall i :: 0 <= i < probes - 1 ==> old(Exists(Candidate(name, i)))
    {
      hide SafeName, Stem, ExtName;
      if |bytes| > UPLOAD_MAX { return None, 0; }
      var name := SafeName(filename);
      var ext := ExtName(name);
      var stem := name[..|name| - |ext|];
      StemIs(name);
      ghost var taken := Obstacles(name);
      var finalName := name;
      var i := 1;
      ProbesAreTaken(name, 0);
      while Exists(finalName)
        invariant files == old(files)
        invariant 1 <= i <= |taken| + 1 && finalName == Candidate(name, i - 1)
        invariant forall j :: 0 <= j < i - 1 ==> Exists(Candidate(name, j))
        decreases |taken| + 1 - i
      {
        ProbesAreTaken(name, i);
        finalName := stem + "-" + Numeral(i) + ext;
        i := i + 1;
      }
      files := files[finalName := bytes];
      return Some(finalName), i;
    }

    /** What can be in the way of the candidates for a name. */
    ghost function Obstacles(name: string): (taken: set<string>)
      reads this
      ensures |taken| <= |files| + if name == "." || name == ".." then 1 else 0
    {
      var own := if name == "." || name == ".." then {name} else {};
      SubsetIsSmaller(files.Keys * own, own);
      files.Keys + own
    }

    lemma ProbesAreTaken(name: string, n: nat)
      requires forall i :: 0 <= i < n ==> Exists(Candidate(name, i))
      ensures n <= |Obstacles(name)|
    {
      forall i | 0 <= i < n ensures Candidate(name, i) in Obstacles(name) {
        if i > 0 { NumberedIsNoLink(name, i); }
      }
      PigeonHole(Obstacles(name), name, n);
    }
  }

  // ---- the probes of an upload ----

  lemma StemIs(name: string)
    ensures |ExtName(name)| <= |name| && Stem(name) == name[..|name| - |ExtName(name)|]
  {}

  lemma NumberedIsNoLink(name: string, i: nat)
    requires i > 0
    ensures Candidate(name, i) != "." && Candidate(name, i) != ".."
  {
    hide Stem, ExtName;
    assert Candidate(name, i)[|Stem(name)|] == '-';
  }

  lemma CandidatesDiffer(name: string, i: nat, j: nat)
    requires i < j
    ensures Candidate(name, i) != Candidate(name, j)
  {
    hide Stem, ExtName;
    var stem, ext := Stem(name), ExtName(name);
    var a, b := Candidate(name, i), Candidate(name, j);
    StemIs(name);
    assert i == 0 ==> |a| == |stem| + |ext|;
    if a == b && i > 0 {
      hide Numeral;
      assert |Numeral(i)| == |Numeral(j)|;
      assert a[|stem| + 1..][..|Numeral(i)|] == Numeral(i);
      assert b[|stem| + 1..][..|Numeral(j)|] == Numeral(j);
      NumeralIsInjective(i, j);
    }
  }

  function Probed(name: string, n: nat): set<string> {
    set i: nat | i < n :: Candidate(name, i)
  }

  lemma LastProbeIsNew(name: string, n: nat)
    requires n > 0
    ensures Candidate(name, n - 1) !in Probed(name, n - 1)
    ensures Probed(name, n) == Probed(name, n - 1) + {Candidate(name, n - 1)}
  {
    hide Candidate;
    forall i: nat | i < n - 1 ensures Candidate(name, i) != Candidate(name, n - 1) {
      CandidatesDiffer(name, i, n - 1);
    }
  }

  lemma {:induction false} ProbesAreDistinct(name: string, n: nat)
    ensures |Probed(name, n)| == n
  {
    hide Candidate, Probed;
    if n > 0 {
      ProbesAreDistinct(name, n - 1);
      LastProbeIsNew(name, n);
    } else {
      NothingProbed(name);
    }
  }

  lemma NothingProbed(name: string)
    ensures Probed(name, 0) == {}
  {}

  lemma {:induction false} SubsetIsSmaller<T>(a: set<T>, b: set<T>)
    requires a <= b
    ensures |a| <= |b|
  {
    if a != {} {
      var x :| x in a;
      SubsetIsSmaller(a - {x}, b - {x});
    }
  }

  /** With n names taken, the first n + 1 candidates cannot all be among them. */
  lemma PigeonHole(taken: set<string>, name: string, n: nat)
    requires forall i :: 0 <= i < n ==> Candidate(name, i) in taken
    ensures n <= |taken|
  {
    ProbesAreDistinct(name, n);
    SubsetIsSmaller(Probed(name, n), taken);
  }
}
