/**
 * The policy over a plugin's build output: which archive entries are accepted, and the canonical
 * listing made of them. A path is its list of components, which is how the source compares,
 * hashes and sorts paths; sizes are file sizes in bytes.
 */
module BuildOutput {
  import opened Collections
  import opened Sorting

  const ENTRY_LIMIT: nat := 32_768
  const FILE_SIZE_LIMIT: nat := 64 * 1024 * 1024
  const TOTAL_LIMIT: nat := 256 * 1024 * 1024
  const BACKSLASH: Byte := 0x5C

  datatype Component =
    | Prefix(name: seq<Byte>)
    | RootDir
    | CurDir
    | ParentDir
    | Normal(name: seq<Byte>)

  type Path = seq<Component>

  datatype Kind =
    | Directory
    | File
    | Symlink(target: Path)
    | HardLink(target: Path)
    | Device
    | Fifo
    | Other

  datatype Entry = Entry(path: Path, kind: Kind, size: nat)

  datatype Normalized = Normalized(path: Path, kind: Kind, size: nat, uid: nat, gid: nat, mode: nat, mtime: nat)

  datatype PolicyError = UnsafeBuildOutput | BuildOutputLimitExceeded

  // ---- Paths ----

  predicate HasBackslash(p: Path) {
    exists i :: 0 <= i < |p| && p[i].Normal? && BACKSLASH in p[i].name
  }

  predicate Absolute(p: Path) {
    p != [] && p[0].RootDir?
  }

  /** A non-empty path made of plain names only. */
  predicate PlainPath(p: Path) {
    p != [] && !HasBackslash(p) && forall i :: 0 <= i < |p| ==> p[i].Normal?
  }

  function ComponentKey(c: Component): (key: seq<int>) {
    match c
    case Prefix(name) => [0] + name
    case RootDir => [1]
    case CurDir => [2]
    case ParentDir => [3]
    case Normal(name) => [4] + name
  }

  lemma ComponentKeyInjective(c: Component, d: Component)
    requires ComponentKey(c) == ComponentKey(d)
    ensures c == d
  {
    assert ComponentKey(c)[0] == ComponentKey(d)[0];
    assert ComponentKey(c)[1..] == ComponentKey(d)[1..];
  }

  predicate PathLeq(p: Path, q: Path) {
    if p == [] then true
    else if q == [] then false
    else if p[0] == q[0] then PathLeq(p[1..], q[1..])
    else LexLeq(ComponentKey(p[0]), ComponentKey(q[0]))
  }

  lemma {:induction false} PathOrder(p: Path, q: Path)
    ensures PathLeq(p, q) || PathLeq(q, p)
    ensures PathLeq(p, q) && PathLeq(q, p) ==> p == q
  {
    if p != [] && q != [] {
      if p[0] == q[0] {
        PathOrder(p[1..], q[1..]);
        assert p == [p[0]] + p[1..] && q == [q[0]] + q[1..];
      } else {
        var k, l := ComponentKey(p[0]), ComponentKey(q[0]);
        LexTotal(k, l);
        if k == l { ComponentKeyInjective(p[0], q[0]); }
      }
    }
  }

  lemma {:induction false} PathTransitive(p: Path, q: Path, r: Path)
    requires PathLeq(p, q) && PathLeq(q, r)
    ensures PathLeq(p, r)
  {
    if p != [] {
      if p[0] == q[0] && q[0] == r[0] {
        PathTransitive(p[1..], q[1..], r[1..]);
      } else if p[0] != q[0] && q[0] != r[0] {
        var k, l, m := ComponentKey(p[0]), ComponentKey(q[0]), ComponentKey(r[0]);
        LexTransitive(k, l, m);
        if p[0] == r[0] {
          LexTotal(k, l);
          ComponentKeyInjective(p[0], q[0]);
        }
      }
    }
  }

  predicate ByPath(a: Normalized, b: Normalized) {
    PathLeq(a.path, b.path)
  }

  lemma ByPathIsTotalPreorder()
    ensures TotalPreorder(ByPath)
  {
    forall a: Normalized, b: Normalized ensures ByPath(a, b) || ByPath(b, a) { PathOrder(a.path, b.path); }
    forall a: Normalized, b: Normalized, c: Normalized | ByPath(a, b) && ByPath(b, c) ensures ByPath(a, c) {
      PathTransitive(a.path, b.path, c.path);
    }
  }

  // ---- Symbolic links ----

  /** Where `target` leads when followed name by name from the directory `at`; None above the root. */
  function Resolve(at: Path, target: Path): (r: Option<Path>)
    ensures r.Some? && (forall i :: 0 <= i < |at| ==> at[i].Normal?) ==>
              forall i :: 0 <= i < |r.value| ==> r.value[i].Normal?
    decreases |target|
  {
    if target == [] then Some(at)
    else match target[0]
      case Normal(_) => Resolve(at + [target[0]], target[1..])
      case CurDir => Resolve(at, target[1..])
      case ParentDir => if at == [] then None else Resolve(at[..|at| - 1], target[1..])
      case RootDir => None
      case Prefix(_) => None
  }

  function ParentOf(p: Path): (dir: Path) {
    if p == [] then [] else p[..|p| - 1]
  }

  /** The target is relative, and following it from the link's directory ends strictly below the root. */
  predicate StaysInside(link: Path, target: Path) {
    && target != []
    && !Absolute(target)
    && !HasBackslash(target)
    && Resolve(ParentOf(link), target).Some?
    && Resolve(ParentOf(link), target).value != []
  }

  /** The depth counter decides exactly what name-by-name resolution decides. */
  method SymlinkStaysInside(link: Path, target: Path) returns (inside: bool)
    ensures inside <==> StaysInside(link, target)
  {
    if target == [] || Absolute(target) || HasBackslash(target) {
      return false;
    }
    var depth: nat := if link == [] then 0 else |link| - 1;
    ghost var at := ParentOf(link);
    for i := 0 to |target|
      invariant depth == |at|
      invariant Resolve(ParentOf(link), target) == Resolve(at, target[i..])
    {
      assert target[i..][0] == target[i] && target[i..][1..] == target[i + 1..];
      match target[i] {
        case Normal(_) =>
          depth := depth + 1;
          at := at + [target[i]];
        case CurDir =>
        case ParentDir =>
          if depth == 0 {
            return false;
          }
          depth := depth - 1;
          at := at[..|at| - 1];
        case RootDir =>
          return false;
        case Prefix(_) =>
          return false;
      }
    }
    return depth > 0;
  }

  // ---- The policy, stated on the whole listing ----

  /** What the policy asks of an entry by itself. */
  predicate EntryAllowed(e: Entry) {
    && PlainPath(e.path)
    && match e.kind {
       case Directory => e.size == 0
       case File => e.size <= FILE_SIZE_LIMIT
       case Symlink(target) => e.size == 0 && StaysInside(e.path, target)
       case HardLink(_) => false
       case Device => false
       case Fifo => false
       case Other => false
       }
  }

  function FileSize(e: Entry): (n: nat) {
    if e.kind.File? then e.size else 0
  }

  function TotalSize(entries: seq<Entry>): (n: nat) {
    if entries == [] then 0 else FileSize(entries[0]) + TotalSize(entries[1..])
  }

  ghost predicate DistinctPaths(entries: seq<Entry>) {
    forall i, j :: 0 <= i < j < |entries| ==> entries[i].path != entries[j].path
  }

  ghost predicate AllAllowed(entries: seq<Entry>) {
    forall e :: e in entries ==> EntryAllowed(e)
  }

  ghost predicate Acceptable(entries: seq<Entry>) {
    && |entries| <= ENTRY_LIMIT
    && AllAllowed(entries)
    && DistinctPaths(entries)
    && TotalSize(entries) <= TOTAL_LIMIT
  }

  function Mode(kind: Kind): (mode: nat) {
    match kind
    case Directory => 0x1ED
    case File => 0x1A4
    case Symlink(_) => 0x1FF
    case HardLink(_) => 0
    case Device => 0
    case Fifo => 0
    case Other => 0
  }

  function Normalize(e: Entry): (n: Normalized) {
    Normalized(e.path, e.kind, e.size, 0, 0, Mode(e.kind), 0)
  }

  function NormalizeAll(entries: seq<Entry>): (r: seq<Normalized>)
    ensures |r| == |entries|
    ensures forall i :: 0 <= i < |r| ==> r[i] == Normalize(entries[i])
  {
    if entries == [] then [] else [Normalize(entries[0])] + NormalizeAll(entries[1..])
  }

  function Listing(entries: seq<Entry>): (r: seq<Normalized>) {
    Sort(ByPath, NormalizeAll(entries))
  }

  // ---- The loop ----

  /** What entry `i` fails with, given the entries before it, in the source's order of checks. */
  function FaultAt(entries: seq<Entry>, i: nat): (fault: Option<PolicyError>)
    requires i < |entries|
  {
    var e := entries[i];
    if !PlainPath(e.path) then Some(UnsafeBuildOutput)
    else if exists j :: 0 <= j < i && entries[j].path == e.path then Some(UnsafeBuildOutput)
    else match e.kind
      case Directory => if e.size != 0 then Some(UnsafeBuildOutput) else None
      case File =>
        if e.size > FILE_SIZE_LIMIT || TotalSize(entries[..i]) + e.size > TOTAL_LIMIT
        then Some(BuildOutputLimitExceeded) else None
      case Symlink(target) =>
        if e.size != 0 || !StaysInside(e.path, target) then Some(UnsafeBuildOutput) else None
      case HardLink(_) => Some(UnsafeBuildOutput)
      case Device => Some(UnsafeBuildOutput)
      case Fifo => Some(UnsafeBuildOutput)
      case Other => Some(UnsafeBuildOutput)
  }

  ghost predicate FirstFault(entries: seq<Entry>, i: int, error: PolicyError) {
    && 0 <= i < |entries|
    && FaultAt(entries, i) == Some(error)
    && forall j :: 0 <= j < i ==> FaultAt(entries, j) == None
  }

  lemma {:induction false} TotalAppend(a: seq<Entry>, b: seq<Entry>)
    ensures TotalSize(a + b) == TotalSize(a) + TotalSize(b)
  {
    if a == [] {
      assert a + b == b;
    } else {
      assert (a + b)[0] == a[0] && (a + b)[1..] == a[1..] + b;
      TotalAppend(a[1..], b);
    }
  }

  lemma TotalSnoc(entries: seq<Entry>, i: nat)
    requires i < |entries|
    ensures TotalSize(entries[..i + 1]) == TotalSize(entries[..i]) + FileSize(entries[i])
    ensures TotalSize(entries[..i + 1]) <= TotalSize(entries)
  {
    TotalAppend(entries[..i], [entries[i]]);
    assert entries[..i] + [entries[i]] == entries[..i + 1];
    TotalAppend(entries[..i + 1], entries[i + 1..]);
    assert entries[..i + 1] + entries[i + 1..] == entries;
  }

  lemma FaultRefuses(entries: seq<Entry>, i: nat)
    requires i < |entries| && FaultAt(entries, i).Some?
    ensures !Acceptable(entries)
  {
    assert entries[i] in entries;
    TotalSnoc(entries, i);
  }

  /** What is known once the first `n` entries have passed. */
  ghost predicate Passed(entries: seq<Entry>, n: nat)
    requires n <= |entries|
  {
    && AllAllowed(entries[..n]) && DistinctPaths(entries[..n]) && TotalSize(entries[..n]) <= TOTAL_LIMIT
    && forall j :: 0 <= j < n ==> FaultAt(entries, j) == None
  }

  lemma PassedNext(entries: seq<Entry>, i: nat)
    requires i < |entries| && Passed(entries, i) && FaultAt(entries, i) == None
    ensures Passed(entries, i + 1)
  {
    TotalSnoc(entries, i);
    var n := entries[..i + 1];
    assert n == entries[..i] + [entries[i]];
    forall e | e in n ensures EntryAllowed(e) {
      assert e in entries[..i] || e == entries[i];
    }
    forall j, k | 0 <= j < k < |n| ensures n[j].path != n[k].path {
      if k < i { assert n[j] == entries[..i][j] && n[k] == entries[..i][k]; }
    }
  }

  lemma PassedAll(entries: seq<Entry>)
    requires |entries| <= ENTRY_LIMIT && Passed(entries, |entries|)
    ensures Acceptable(entries)
  {
    assert entries[..|entries|] == entries;
  }

  /** The loop body up to the mode: what entry `i` fails with, or its mode and the new total. */
  method AdmitEntry(ghost entries: seq<Entry>, ghost i: nat, e: Entry, seen: set<Path>, total: nat)
    returns (fault: Option<PolicyError>, mode: nat, newTotal: nat)
    requires i < |entries| && entries[i] == e
    requires seen == set j | 0 <= j < i :: entries[j].path
    requires total == TotalSize(entries[..i])
    ensures fault == FaultAt(entries, i)
    ensures fault.None? ==> mode == Mode(e.kind) && newTotal == TotalSize(entries[..i + 1])
  {
    mode, newTotal := 0, total;
    TotalSnoc(entries, i);
    if !PlainPath(e.path) {
      return Some(UnsafeBuildOutput), mode, newTotal;
    }
    if e.path in seen {
      return Some(UnsafeBuildOutput), mode, newTotal;
    }
    match e.kind {
      case Directory =>
        if e.size != 0 {
          return Some(UnsafeBuildOutput), mode, newTotal;
        }
        mode := 0x1ED;
      case File =>
        if e.size > FILE_SIZE_LIMIT || total + e.size > TOTAL_LIMIT {
          return Some(BuildOutputLimitExceeded), mode, newTotal;
        }
        newTotal := total + e.size;
        mode := 0x1A4;
      case Symlink(target) =>
        var inside := SymlinkStaysInside(e.path, target);
        if e.size != 0 || !inside {
          return Some(UnsafeBuildOutput), mode, newTotal;
        }
        mode := 0x1FF;
      case _ =>
        return Some(UnsafeBuildOutput), mode, newTotal;
    }
    return None, mode, newTotal;
  }

  method NormalizeBuildOutput(entries: seq<Entry>) returns (r: Result<seq<Normalized>, PolicyError>)
    ensures r.Ok? <==> Acceptable(entries)
    ensures r.Ok? ==> r.value == Listing(entries)
    ensures r.Err? && |entries| > ENTRY_LIMIT ==> r.error == BuildOutputLimitExceeded
    ensures r.Err? && |entries| <= ENTRY_LIMIT ==> exists i :: FirstFault(entries, i, r.error)
  {
    if |entries| > ENTRY_LIMIT {
      return Err(BuildOutputLimitExceeded);
    }
    var seen: set<Path> := {};
    var total: nat := 0;
    var normalized: seq<Normalized> := [];
    for i := 0 to |entries|
      invariant seen == set j | 0 <= j < i :: entries[j].path
      invariant total == TotalSize(entries[..i])
      invariant normalized == NormalizeAll(entries[..i])
      invariant Passed(entries, i)
    {
      var e := entries[i];
      var fault, mode, newTotal := AdmitEntry(entries, i, e, seen, total);
      if fault.Some? {
        FaultRefuses(entries, i);
        assert FirstFault(entries, i, fault.value);
        return Err(fault.value);
      }
      PassedNext(entries, i);
      assert entries[..i + 1] == entries[..i] + [e];
      seen := seen + {e.path};
      total := newTotal;
      normalized := normalized + [Normalized(e.path, e.kind, e.size, 0, 0, mode, 0)];
    }
    PassedAll(entries);
    assert entries[..|entries|] == entries;
    return Ok(Sort(ByPath, normalized));
  }

  // ---- What the accepted listing is ----

  ghost predicate StrictlyAscending(s: seq<Normalized>) {
    forall i, j :: 0 <= i < j < |s| ==> PathLeq(s[i].path, s[j].path) && s[i].path != s[j].path
  }

  lemma PathsTellApart(entries: seq<Entry>)
    requires DistinctPaths(entries)
    ensures Distinct(entries) && Distinct(NormalizeAll(entries))
    ensures NoTies(ByPath, NormalizeAll(entries))
  {
    var all := NormalizeAll(entries);
    forall a, b | a in all && b in all && ByPath(a, b) && ByPath(b, a) ensures a == b {
      PathOrder(a.path, b.path);
    }
  }

  /** The listing is the accepted entries, each exactly once, in strictly ascending path order. */
  lemma ListingCanonical(entries: seq<Entry>)
    requires Acceptable(entries)
    ensures multiset(Listing(entries)) == multiset(NormalizeAll(entries))
    ensures StrictlyAscending(Listing(entries))
  {
    var all, out := NormalizeAll(entries), Listing(entries);
    PathsTellApart(entries);
    DistinctPermutation(all, out);
    ByPathIsTotalPreorder();
    SortSorted(ByPath, all);
    SameElements(all, out);
    forall i, j | 0 <= i < j < |out|
      ensures PathLeq(out[i].path, out[j].path) && out[i].path != out[j].path
    {
      assert ByPath(out[i], out[j]);
      assert out[i] in all && out[j] in all;
    }
  }

  /** Every listed link leads, name by name, to a place strictly below the root. */
  lemma ListedLinksStayInside(entries: seq<Entry>, n: Normalized)
    requires Acceptable(entries) && n in Listing(entries) && n.kind.Symlink?
    ensures Resolve(ParentOf(n.path), n.kind.target).Some?
    ensures Resolve(ParentOf(n.path), n.kind.target).value != []
    ensures forall c :: c in Resolve(ParentOf(n.path), n.kind.target).value ==> c.Normal?
  {
    SameElements(NormalizeAll(entries), Listing(entries));
    var i :| 0 <= i < |entries| && NormalizeAll(entries)[i] == n;
    assert entries[i] in entries;
    assert EntryAllowed(entries[i]);
  }

  // ---- The order of the archive does not matter ----

  /** An entry can be moved to the front. */
  lemma MovedToFront(b: seq<Entry>, k: nat, rest: seq<Entry>)
    requires k < |b| && rest == b[..k] + b[k + 1..]
    ensures multiset([b[k]] + rest) == multiset(b)
    ensures TotalSize(b) == FileSize(b[k]) + TotalSize(rest)
  {
    var tail := [b[k]] + b[k + 1..];
    assert tail[1..] == b[k + 1..];
    assert b == b[..k] + tail;
    TotalAppend(b[..k], tail);
    TotalAppend(b[..k], b[k + 1..]);
  }

  lemma {:induction false} TotalPermutation(a: seq<Entry>, b: seq<Entry>)
    requires multiset(a) == multiset(b)
    ensures TotalSize(a) == TotalSize(b)
  {
    SameElements(a, b);
    if a != [] {
      assert a[0] in b;
      var k :| 0 <= k < |b| && b[k] == a[0];
      var rest := b[..k] + b[k + 1..];
      MovedToFront(b, k, rest);
      SameTails(a, [b[k]] + rest);
      assert ([b[k]] + rest)[1..] == rest;
      TotalPermutation(a[1..], rest);
    }
  }

  lemma DistinctPathsPermutation(a: seq<Entry>, b: seq<Entry>)
    requires DistinctPaths(a) && multiset(a) == multiset(b)
    ensures DistinctPaths(b)
  {
    PathsTellApart(a);
    DistinctPermutation(a, b);
    SameElements(a, b);
    forall i, j | 0 <= i < j < |b| ensures b[i].path != b[j].path {
      assert b[i] in a && b[j] in a;
    }
  }

  lemma AcceptablePermutation(a: seq<Entry>, b: seq<Entry>)
    requires Acceptable(a) && multiset(a) == multiset(b)
    ensures Acceptable(b)
  {
    SameElements(a, b);
    TotalPermutation(a, b);
    DistinctPathsPermutation(a, b);
  }

  lemma NormalizedPermutation(a: seq<Entry>, b: seq<Entry>)
    requires DistinctPaths(a) && DistinctPaths(b) && multiset(a) == multiset(b)
    ensures multiset(NormalizeAll(a)) == multiset(NormalizeAll(b))
  {
    PathsTellApart(a);
    PathsTellApart(b);
    SameElements(a, b);
    var p, q := NormalizeAll(a), NormalizeAll(b);
    forall x | x in p ensures x in q {
      var i :| 0 <= i < |a| && p[i] == x;
      assert a[i] in b;
      var j :| 0 <= j < |b| && b[j] == a[i];
      assert q[j] == x;
    }
    forall x | x in q ensures x in p {
      var i :| 0 <= i < |b| && q[i] == x;
      assert b[i] in a;
      var j :| 0 <= j < |a| && a[j] == b[i];
      assert p[j] == x;
    }
    DistinctSameMultiset(p, q);
  }

  /** Two archives with the same entries are accepted alike and give the same listing. */
  lemma ArchiveOrderIrrelevant(a: seq<Entry>, b: seq<Entry>)
    requires multiset(a) == multiset(b)
    ensures Acceptable(a) <==> Acceptable(b)
    ensures Acceptable(a) ==> Listing(a) == Listing(b)
  {
    if Acceptable(a) {
      AcceptablePermutation(a, b);
      NormalizedPermutation(a, b);
      ByPathIsTotalPreorder();
      SortSorted(ByPath, NormalizeAll(a));
      SortSorted(ByPath, NormalizeAll(b));
      PathsTellApart(a);
      SameElements(NormalizeAll(a), Listing(a));
      SortedUnique(ByPath, Listing(a), Listing(b));
    } else if Acceptable(b) {
      AcceptablePermutation(b, a);
    }
  }
}
