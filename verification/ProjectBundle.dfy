/** Materialising the input bundle of a processing job: the files are counted, sorted by path in
  place, checked and added up (backend/src/document_processing/project_input.rs). */
module ProjectBundle {
  import opened Wrappers
  import opened TextOrder

  datatype Kind = Document | Asset

  datatype File = File(path: string, kind: Kind, size: nat)

  datatype Bundle = Bundled(files: seq<File>) | TooManyFiles | DuplicatePath | EntryFileNotFound | TooLarge

  const MAX_PROJECT_FILES: nat := 4096
  const I64_MAX: int := 0x7FFF_FFFF_FFFF_FFFF

  // ---- sorting ----

  /** Puts a file behind every file that does not sort after it. */
  function Placed(files: seq<File>, f: File): (placed: seq<File>)
    ensures |placed| == |files| + 1
    decreases |files|
  {
    if files == [] || TextLe(files[|files| - 1].path, f.path) then files + [f]
    else Placed(files[..|files| - 1], f) + [files[|files| - 1]]
  }

  function SortByPath(files: seq<File>): (sorted: seq<File>)
    ensures |sorted| == |files|
  {
    if files == [] then [] else Placed(SortByPath(files[..|files| - 1]), files[|files| - 1])
  }

  ghost predicate SortedByPath(files: seq<File>) {
    forall i, j :: 0 <= i < j < |files| ==> TextLe(files[i].path, files[j].path)
  }

  lemma {:induction false} PlacedSorts(files: seq<File>, f: File)
    requires SortedByPath(files)
    ensures SortedByPath(Placed(files, f)) && multiset(Placed(files, f)) == multiset(files) + multiset{f}
    decreases |files|
  {
    if files != [] {
      var last := files[|files| - 1];
      var rest := files[..|files| - 1];
      assert files == rest + [last];
      TextLeTotal(last.path, f.path);
      if TextLe(last.path, f.path) {
        forall i | 0 <= i < |files|
          ensures TextLe(files[i].path, f.path)
        {
          if i < |files| - 1 {
            TextLeTransitive(files[i].path, last.path, f.path);
          }
        }
      } else {
        PlacedSorts(rest, f);
        var placed := Placed(rest, f);
        forall g | g in placed
          ensures TextLe(g.path, last.path)
        {
          assert g in multiset(placed);
          if g != f {
            assert g in rest;
            var i :| 0 <= i < |rest| && rest[i] == g;
            assert files[i] == g;
          }
        }
      }
    }
  }

  lemma {:induction false} SortSorts(files: seq<File>)
    ensures SortedByPath(SortByPath(files)) && multiset(SortByPath(files)) == multiset(files)
    decreases |files|
  {
    if files != [] {
      SortSorts(files[..|files| - 1]);
      PlacedSorts(SortByPath(files[..|files| - 1]), files[|files| - 1]);
      assert files == files[..|files| - 1] + [files[|files| - 1]];
    }
  }

  predicate DistinctPaths(files: seq<File>) {
    forall i, j :: 0 <= i < j < |files| ==> files[i].path != files[j].path
  }

  /** With distinct paths there is only one sorted arrangement of the same files. */
  lemma {:induction false} SortedIsUnique(a: seq<File>, b: seq<File>)
    requires SortedByPath(a) && SortedByPath(b) && multiset(a) == multiset(b) && DistinctPaths(a)
    ensures a == b
    decreases |a|
  {
    assert |a| == |multiset(a)| == |multiset(b)| == |b|;
    if a != [] {
      FirstIsFirst(a, b);
      assert a == [a[0]] + a[1..] && b == [b[0]] + b[1..];
      assert multiset(a[1..]) == multiset(a) - multiset{a[0]} == multiset(b) - multiset{b[0]} == multiset(b[1..]);
      SortedIsUnique(a[1..], b[1..]);
    }
  }

  lemma FirstIsFirst(a: seq<File>, b: seq<File>)
    requires a != [] && b != [] && SortedByPath(a) && SortedByPath(b) && multiset(a) == multiset(b) && DistinctPaths(a)
    ensures a[0] == b[0]
  {
    assert a[0] in multiset(b) && b[0] in multiset(a);
    var i :| 0 <= i < |b| && b[i] == a[0];
    var j :| 0 <= j < |a| && a[j] == b[0];
    TextLeTotal(a[0].path, b[0].path);
  }

  // ---- sizes ----

  function TotalSize(files: seq<File>): nat {
    if files == [] then 0 else TotalSize(files[..|files| - 1]) + files[|files| - 1].size
  }

  /** The total is that of the parts, and a single file's is its size. */
  lemma {:induction false} TotalAdds(a: seq<File>, b: seq<File>)
    ensures TotalSize(a + b) == TotalSize(a) + TotalSize(b)
    ensures TotalSize([]) == 0 && forall f: File :: TotalSize([f]) == f.size
    decreases |b|
  {
    assert forall f: File :: [f][..0] == [];
    if b == [] {
      assert a + b == a;
    } else {
      assert (a + b)[..|a + b| - 1] == a + b[..|b| - 1];
      TotalAdds(a, b[..|b| - 1]);
    }
  }

  lemma {:induction false} TotalWithout(files: seq<File>, i: nat)
    requires i < |files|
    ensures TotalSize(files) == TotalSize(files[..i] + files[i + 1..]) + files[i].size
    decreases |files|
  {
    var last := |files| - 1;
    if i < last {
      var rest := files[..last];
      TotalWithout(rest, i);
      var without := files[..i] + files[i + 1..];
      assert without[..|without| - 1] == rest[..i] + rest[i + 1..];
      assert without[|without| - 1] == files[last];
    } else {
      assert files[..i] + files[i + 1..] == files[..last];
    }
  }

  lemma SplitsAt(files: seq<File>, i: nat)
    requires i < |files|
    ensures multiset(files[..i] + files[i + 1..]) == multiset(files) - multiset{files[i]}
  {
    assert files == files[..i] + [files[i]] + files[i + 1..];
  }

  lemma RemoveFromBoth(a: seq<File>, b: seq<File>, i: nat)
    requires a != [] && multiset(a) == multiset(b) && i < |b| && b[i] == a[|a| - 1]
    ensures multiset(a[..|a| - 1]) == multiset(b[..i] + b[i + 1..])
  {
    SplitsAt(a, |a| - 1);
    SplitsAt(b, i);
    assert a[..|a| - 1] + a[|a|..] == a[..|a| - 1];
  }

  lemma Occurs(files: seq<File>, f: File) returns (i: nat)
    requires f in multiset(files)
    ensures i < |files| && files[i] == f
  {
    assert f in files;
    i :| i < |files| && files[i] == f;
  }

  lemma {:induction false} TotalOfPermutation(a: seq<File>, b: seq<File>)
    requires multiset(a) == multiset(b)
    ensures TotalSize(a) == TotalSize(b)
    decreases |a|
  {
    assert |multiset(a)| == |a| && |multiset(b)| == |b|;
    if a != [] {
      assert a[|a| - 1] in multiset(a);
      var i := Occurs(b, a[|a| - 1]);
      RemoveFromBoth(a, b, i);
      TotalOfPermutation(a[..|a| - 1], b[..i] + b[i + 1..]);
      TotalWithout(b, i);
    }
  }

  lemma {:induction false} PrefixIsSmaller(files: seq<File>, i: nat)
    requires i <= |files|
    ensures TotalSize(files[..i]) <= TotalSize(files)
    decreases |files| - i
  {
    if i < |files| {
      PrefixIsSmaller(files, i + 1);
      assert files[..i + 1][..i] == files[..i];
    } else {
      assert files[..i] == files;
    }
  }

  /** The fold in 64-bit arithmetic: it stops at the first size or sum that does not fit. */
  method CheckedTotal(files: seq<File>) returns (total: Option<int>)
    ensures total.Some? <==> TotalSize(files) <= 0x7FFF_FFFF_FFFF_FFFF
    ensures total.Some? ==> total.value == TotalSize(files)
  {
    var sum := 0;
    for i := 0 to |files|
      invariant sum == TotalSize(files[..i]) <= I64_MAX
    {
      assert files[..i + 1][..i] == files[..i];
      if files[i].size > I64_MAX || sum + files[i].size > I64_MAX {
        PrefixIsSmaller(files, i + 1);
        return None;
      }
      sum := sum + files[i].size;
    }
    assert files[..|files|] == files;
    total := Some(sum);
  }

  // ---- the checks, as one function of the files ----

  predicate HasEntry(files: seq<File>, entry: string) {
    exists i :: 0 <= i < |files| && files[i].kind.Document? && files[i].path == entry
  }

  function Materialised(files: seq<File>, entry: string, maxBytes: int): Bundle {
    if |files| > MAX_PROJECT_FILES then TooManyFiles
    else if !DistinctPaths(files) then DuplicatePath
    else if !HasEntry(files, entry) then EntryFileNotFound
    else if TotalSize(files) > maxBytes then TooLarge
    else Bundled(SortByPath(files))
  }

  lemma DistinctIsOrderless(a: seq<File>, b: seq<File>)
    requires multiset(a) == multiset(b) && DistinctPaths(a)
    ensures DistinctPaths(b)
  {
    forall i, j | 0 <= i < j < |b|
      ensures b[i].path != b[j].path
    {
      if b[i].path == b[j].path {
        assert b[i] in multiset(a) && b[j] in multiset(a);
        var k :| 0 <= k < |a| && a[k] == b[i];
        var l :| 0 <= l < |a| && a[l] == b[j];
        assert k == l;
        Twice(b, i, j);
        Once(a, k);
        assert false;
      }
    }
  }

  lemma Twice(files: seq<File>, i: nat, j: nat)
    requires i < j < |files| && files[i] == files[j]
    ensures multiset(files)[files[i]] >= 2
  {
    assert files == files[..j] + [files[j]] + files[j + 1..];
    assert files[i] in files[..j];
  }

  lemma Once(files: seq<File>, k: nat)
    requires k < |files| && DistinctPaths(files)
    ensures multiset(files)[files[k]] == 1
  {
    assert files == files[..k] + [files[k]] + files[k + 1..];
    assert files[k] !in files[..k] && files[k] !in files[k + 1..];
  }

  lemma EntryIsOrderless(a: seq<File>, b: seq<File>, entry: string)
    requires multiset(a) == multiset(b) && HasEntry(a, entry)
    ensures HasEntry(b, entry)
  {
    var i :| 0 <= i < |a| && a[i].kind.Document? && a[i].path == entry;
    assert a[i] in multiset(b);
  }

  lemma ChecksAreOrderless(a: seq<File>, b: seq<File>, entry: string)
    requires multiset(a) == multiset(b)
    ensures |a| == |b| && (DistinctPaths(a) <==> DistinctPaths(b)) && (HasEntry(a, entry) <==> HasEntry(b, entry))
    ensures TotalSize(a) == TotalSize(b)
  {
    assert |a| == |multiset(a)| == |multiset(b)| == |b|;
    if DistinctPaths(a) {
      DistinctIsOrderless(a, b);
    }
    if DistinctPaths(b) {
      DistinctIsOrderless(b, a);
    }
    if HasEntry(a, entry) {
      EntryIsOrderless(a, b, entry);
    }
    if HasEntry(b, entry) {
      EntryIsOrderless(b, a, entry);
    }
    TotalOfPermutation(a, b);
  }

  lemma SortedAlike(a: seq<File>, b: seq<File>)
    requires multiset(a) == multiset(b) && DistinctPaths(a)
    ensures SortByPath(a) == SortByPath(b)
  {
    SortSorts(a);
    SortSorts(b);
    DistinctIsOrderless(a, SortByPath(a));
    SortedIsUnique(SortByPath(a), SortByPath(b));
  }

  /** Materialisation depends only on which files there are: any order of the same files gives the
    same error or the same sorted list. */
  lemma OrderDoesNotMatter(a: seq<File>, b: seq<File>, entry: string, maxBytes: int)
    requires multiset(a) == multiset(b)
    ensures Materialised(a, entry, maxBytes) == Materialised(b, entry, maxBytes)
  {
    ChecksAreOrderless(a, b, entry);
    if DistinctPaths(a) {
      SortedAlike(a, b);
    }
  }

  /** Each answer, exactly under its condition on the files. */
  ghost predicate BundleOutcome(files: seq<File>, entry: string, maxBytes: int, bundle: Bundle) {
    if |files| > 4096 then bundle == TooManyFiles
    else if exists i, j :: 0 <= i < j < |files| && files[i].path == files[j].path then bundle == DuplicatePath
    else if forall i :: 0 <= i < |files| ==> files[i].kind == Asset || files[i].path != entry then
      bundle == EntryFileNotFound
    else if TotalSize(files) > maxBytes then bundle == TooLarge
    else bundle.Bundled?
  }

  lemma MaterialisedOutcome(files: seq<File>, entry: string, maxBytes: int)
    ensures BundleOutcome(files, entry, maxBytes, Materialised(files, entry, maxBytes))
  {
  }

  // ---- the algorithm ----

  method SortInPlace(files: array<File>)
    modifies files
    ensures files[..] == SortByPath(old(files[..]))
    ensures multiset(files[..]) == multiset(old(files[..]))
    ensures forall i, j :: 0 <= i < j < files.Length ==> TextLe(files[i].path, files[j].path)
  {
    ghost var was := files[..];
    for i := 0 to files.Length
      invariant files[..i] == SortByPath(was[..i]) && files[i..] == was[i..]
    {
      assert was[..i + 1][..i] == was[..i];
      PlaceLast(files, i);
    }
    assert was[..files.Length] == was && files[..files.Length] == files[..];
    SortSorts(was);
  }

  lemma PlacedBelow(files: seq<File>, j: nat, f: File)
    requires 0 < j <= |files| && !TextLe(files[j - 1].path, f.path)
    ensures Placed(files[..j], f) == Placed(files[..j - 1], f) + [files[j - 1]]
  {
    assert files[..j][..j - 1] == files[..j - 1] && files[..j][j - 1] == files[j - 1];
  }

  lemma Regroup(front: seq<File>, f: File, back: seq<File>)
    ensures front + [f] + back == front + ([f] + back)
  {
  }

  /** Moves the file at `i` down to its place among the sorted ones before it. */
  method PlaceLast(files: array<File>, i: nat)
    requires i < files.Length
    modifies files
    ensures files[..i + 1] == Placed(old(files[..i]), old(files[i])) && files[i + 1..] == old(files[i + 1..])
  {
    ghost var was := files[..i];
    var f := files[i];
    var j := i;
    while j > 0 && !TextLe(files[j - 1].path, f.path)
      invariant j <= i && files[..j] == was[..j] && files[j] == f
      invariant files[i + 1..] == old(files[i + 1..])
      invariant Placed(was, f) == Placed(was[..j], f) + files[j + 1..i + 1]
    {
      var above := files[j - 1];
      ghost var moved := files[j + 1..i + 1];
      PlacedBelow(was, j, f);
      files[j - 1], files[j] := f, above;
      assert files[j..i + 1] == [above] + moved;
      j := j - 1;
      Regroup(Placed(was[..j], f), above, moved);
    }
    assert files[..i + 1] == files[..j] + [f] + files[j + 1..i + 1];
  }

  method MaterializeBundle(files: array<File>, entry: string, maxBytes: int) returns (bundle: Bundle)
    requires maxBytes <= 0x7FFF_FFFF_FFFF_FFFF
    modifies files
    ensures bundle == Materialised(old(files[..]), entry, maxBytes)
    ensures BundleOutcome(old(files[..]), entry, maxBytes, bundle)
    ensures bundle.Bundled? ==>
      && SortedByPath(bundle.files) && DistinctPaths(bundle.files) && HasEntry(bundle.files, entry)
      && multiset(bundle.files) == multiset(old(files[..])) && TotalSize(bundle.files) <= maxBytes
  {
    ghost var was := files[..];
    MaterialisedOutcome(was, entry, maxBytes);
    if files.Length > MAX_PROJECT_FILES {
      return TooManyFiles;
    }
    SortInPlace(files);
    var sorted := files[..];
    SortSorts(was);
    TotalOfPermutation(was, sorted);
    if !DistinctPaths(sorted) {
      if DistinctPaths(was) {
        DistinctIsOrderless(was, sorted);
      }
      return DuplicatePath;
    }
    DistinctIsOrderless(sorted, was);
    if !HasEntry(sorted, entry) {
      if HasEntry(was, entry) {
        EntryIsOrderless(was, sorted, entry);
      }
      return EntryFileNotFound;
    }
    EntryIsOrderless(sorted, was, entry);
    var total := CheckedTotal(sorted);
    if total.None? || total.value > maxBytes {
      return TooLarge;
    }
    bundle := Bundled(sorted);
  }
}
