/** The byte stream a frontend bundle's digest hashes, and the freshness verdict drawn from it
    (main_harness_distcheck.go). A character stands for a byte. */
module DistHash {
  import opened Text
  import opened Sorting
  import opened Canonical

  const ZERO: char := '\0'

  datatype Entry = Entry(path: string, content: string)

  function Framed(e: Entry): string { e.path + [ZERO] + e.content + [ZERO] }

  function Stream(es: seq<Entry>): string {
    if es == [] then "" else Framed(es[0]) + Stream(es[1..])
  }

  /** A path a file system walk reports for a regular file. */
  predicate ValidPath(p: string) {
    ZERO !in p && forall i :: 0 <= i < |Split(p, '/')| ==> Split(p, '/')[i] !in {"", ".", ".."}
  }

  predicate Under(p: string, dir: string) { dir + "/" <= p }

  /** Two files of one tree, in path order: neither is a directory of the other. */
  predicate Beside(p: string, q: string) { Less(p, q) && !Under(q, p) && !Under(p, q) }

  /** A tree of files, listed in path order. */
  ghost predicate IsTree(es: seq<Entry>) {
    && (forall i :: 0 <= i < |es| ==> ValidPath(es[i].path))
    && (forall i, j :: 0 <= i < j < |es| ==> Beside(es[i].path, es[j].path))
  }

  /** es lists, in path order, the files of a walk with the contents read. */
  ghost predicate Lists(es: seq<Entry>, walk: seq<string>, disk: map<string, string>) {
    && (forall i, j :: 0 <= i < j < |es| ==> Less(es[i].path, es[j].path))
    && (forall p :: p in walk <==> exists i :: 0 <= i < |es| && es[i].path == p)
    && (forall i :: 0 <= i < |es| ==> es[i].path in disk && es[i].content == disk[es[i].path])
  }

  function Paths(es: seq<Entry>): (paths: seq<string>)
    ensures |paths| == |es| && forall i :: 0 <= i < |es| ==> paths[i] == es[i].path
  {
    seq(|es|, i requires 0 <= i < |es| => es[i].path)
  }

  lemma StringOrder()
    ensures TotalOrder(Less)
  {
    LessIsStrictWeakOrder();
  }

  /** The listing, and so the stream, is settled by the set of files alone: neither the walk's
      order nor anything else about the tree can change it. */
  lemma ListingIsUnique(a: seq<Entry>, b: seq<Entry>, walkA: seq<string>, walkB: seq<string>, disk: map<string, string>)
    requires Lists(a, walkA, disk) && Lists(b, walkB, disk) && SameElements(walkA, walkB)
    ensures a == b
  {
    StringOrder();
    forall p ensures p in Paths(a) <==> p in Paths(b) {
      assert p in Paths(a) <==> p in walkA;
      assert p in Paths(b) <==> p in walkB;
    }
    IncreasingUnique(Paths(a), Paths(b), Less);
    forall i | 0 <= i < |a| ensures a[i] == b[i] {
      assert Paths(a)[i] == Paths(b)[i];
    }
  }

  lemma {:induction false} StreamAppend(a: seq<Entry>, b: seq<Entry>)
    ensures Stream(a + b) == Stream(a) + Stream(b)
  {
    if a == [] {
      assert a + b == b;
    } else {
      assert (a + b)[1..] == a[1..] + b;
      StreamAppend(a[1..], b);
    }
  }

  /** One file's part of the hash input; None when it cannot be read. */
  method WriteFile(h: string, path: string, disk: map<string, string>) returns (r: Option<string>)
    ensures r.None? <==> path !in disk
    ensures r.Some? ==> r.value == h + Framed(Entry(path, disk[path]))
  {
    var out := h + path;
    out := out + [ZERO];
    if path !in disk { return None; }
    out := out + disk[path];
    out := out + [ZERO];
    assert out == h + Framed(Entry(path, disk[path]));
    return Some(out);
  }

  lemma SortedDistinctIncreases(walk: seq<string>, sorted: seq<string>)
    requires Sorted(sorted, Less) && multiset(sorted) == multiset(walk)
    requires forall i, j :: 0 <= i < j < |walk| ==> walk[i] != walk[j]
    ensures Increasing(sorted, Less)
  {
    LessIsStrictWeakOrder();
    forall p ensures multiset(walk)[p] <= 1 { OnceInDistinct(walk, p); }
    forall i, j | 0 <= i < j < |sorted| ensures Less(sorted[i], sorted[j]) {
      if sorted[i] == sorted[j] { TwiceInSorted(sorted, i, j); }
      assert sorted[i] != sorted[j];
    }
  }

  lemma {:induction false} OnceInDistinct(walk: seq<string>, p: string)
    requires forall i, j :: 0 <= i < j < |walk| ==> walk[i] != walk[j]
    ensures multiset(walk)[p] <= 1
  {
    if walk != [] {
      assert walk == [walk[0]] + walk[1..];
      OnceInDistinct(walk[1..], p);
      assert p == walk[0] ==> p !in walk[1..];
    }
  }

  lemma TwiceInSorted(s: seq<string>, i: nat, j: nat)
    requires i < j < |s| && s[i] == s[j]
    ensures multiset(s)[s[i]] > 1
  {
    assert s == s[..j] + [s[j]] + s[j + 1..];
    assert s[i] in s[..j];
  }

  /** The loop over the sorted paths. */
  method WriteFiles(paths: seq<string>, disk: map<string, string>) returns (r: Option<string>, ghost es: seq<Entry>)
    ensures r.None? <==> exists i :: 0 <= i < |paths| && paths[i] !in disk
    ensures r.Some? ==> Paths(es) == paths && r.value == Stream(es)
    ensures r.Some? ==> forall i :: 0 <= i < |es| ==> es[i].path in disk && es[i].content == disk[es[i].path]
  {
    var h := "";
    es := [];
    for k := 0 to |paths|
      invariant |es| == k && h == Stream(es)
      invariant forall i :: 0 <= i < k ==> es[i].path == paths[i]
      invariant forall i :: 0 <= i < k ==> paths[i] in disk && es[i].content == disk[paths[i]]
    {
      var written := WriteFile(h, paths[k], disk);
      if written.None? { return None, es; }
      ghost var e := Entry(paths[k], disk[paths[k]]);
      StreamAppend(es, [e]);
      assert Stream([e]) == Framed(e) + Stream([]);
      h, es := written.value, es + [e];
    }
    return Some(h), es;
  }

  lemma ListsSorted(walk: seq<string>, paths: seq<string>, es: seq<Entry>, disk: map<string, string>)
    requires Increasing(paths, Less) && SameElements(walk, paths) && Paths(es) == paths
    requires forall i :: 0 <= i < |es| ==> es[i].path in disk && es[i].content == disk[es[i].path]
    ensures Lists(es, walk, disk)
  {
    forall i, j | 0 <= i < j < |es| ensures Less(es[i].path, es[j].path) {
      assert Less(paths[i], paths[j]);
    }
    forall p ensures p in walk <==> exists i :: 0 <= i < |es| && es[i].path == p {
      assert p in walk <==> p in Paths(es);
    }
  }

  /** hashFSTree up to the hash: what it feeds the hash is the stream of the files in path
      order, and it fails exactly when some file cannot be read. */
  method HashInput(walk: seq<string>, disk: map<string, string>) returns (r: Option<string>, ghost es: seq<Entry>)
    requires forall i, j :: 0 <= i < j < |walk| ==> walk[i] != walk[j]
    ensures r.None? <==> exists p :: p in walk && p !in disk
    ensures r.Some? ==> Lists(es, walk, disk) && r.value == Stream(es)
  {
    var paths := new string[|walk|](i requires 0 <= i < |walk| => walk[i]);
    assert paths[..] == walk;
    LessIsStrictWeakOrder();
    SortSlice(paths, Less);
    SortedDistinctIncreases(walk, paths[..]);
    SameMultisetSameElements(walk, paths[..]);
    r, es := WriteFiles(paths[..], disk);
    if r.Some? {
      ListsSorted(walk, paths[..], es, disk);
      forall p | p in walk ensures p in disk { assert p in Paths(es); }
    } else {
      var i :| 0 <= i < |paths[..]| && paths[..][i] !in disk;
      assert paths[..][i] in walk;
    }
  }

  lemma SameMultisetSameElements(a: seq<string>, b: seq<string>)
    requires multiset(a) == multiset(b)
    ensures SameElements(a, b)
  {
    forall p ensures p in a <==> p in b {
      assert p in a <==> p in multiset(a);
      assert p in b <==> p in multiset(b);
    }
  }

  // ---- what the stream tells apart

  ghost predicate ZeroFree(es: seq<Entry>) {
    forall i :: 0 <= i < |es| ==> ZERO !in es[i].content
  }

  lemma FirstPieceAgrees(a: string, b: string, restA: string, restB: string)
    requires ZERO !in a && ZERO !in b && a + [ZERO] + restA == b + [ZERO] + restB
    ensures a == b && restA == restB
  {
    SplitPrefix(a, ZERO, restA);
    SplitPrefix(b, ZERO, restB);
    var s := a + [ZERO] + restA;
    assert Split(s, ZERO)[0] == a == b;
    assert s[|a| + 1..] == restA && s[|b| + 1..] == restB;
  }

  lemma StreamParts(es: seq<Entry>)
    requires es != []
    ensures Stream(es) == es[0].path + [ZERO] + (es[0].content + [ZERO] + Stream(es[1..]))
  {
  }

  /** Trees without a zero byte in any content are told apart. */
  lemma {:induction false} ZeroFreeTreesAreToldApart(a: seq<Entry>, b: seq<Entry>)
    requires IsTree(a) && IsTree(b) && ZeroFree(a) && ZeroFree(b)
    requires Stream(a) == Stream(b)
    ensures a == b
    decreases |a|
  {
    if a != [] { StreamParts(a); }
    if b != [] { StreamParts(b); }
    if a != [] && b != [] {
      FirstPieceAgrees(a[0].path, b[0].path,
                       a[0].content + [ZERO] + Stream(a[1..]), b[0].content + [ZERO] + Stream(b[1..]));
      FirstPieceAgrees(a[0].content, b[0].content, Stream(a[1..]), Stream(b[1..]));
      ZeroFreeTreesAreToldApart(a[1..], b[1..]);
      assert a == [a[0]] + a[1..] && b == [b[0]] + b[1..];
    }
  }

  /** The content holds, between two zero bytes, a path that could stand beside the file's. */
  ghost predicate HoldsAPath(e: Entry) {
    exists i, j :: PathAt(e, i, j)
  }

  predicate PathAt(e: Entry, i: int, j: int) {
    0 <= i < j < |e.content| && e.content[i] == ZERO && e.content[j] == ZERO &&
    ValidPath(e.content[i + 1..j]) && Beside(e.path, e.content[i + 1..j])
  }

  /** The trees the stream identifies. */
  ghost predicate Identified(es: seq<Entry>) {
    es == [] || (|es| == 1 && !HoldsAPath(es[0]))
  }

  lemma {:induction false} StreamEndsInZero(es: seq<Entry>)
    requires es != []
    ensures |Stream(es)| >= 2 && Stream(es)[|Stream(es)| - 1] == ZERO
  {
    if |es| > 1 { StreamEndsInZero(es[1..]); }
  }

  /** Any tree of two or more files is imitated by one file. */
  ghost function Merged(es: seq<Entry>): (e: Entry)
    requires |es| > 1
    ensures e.path == es[0].path && Stream([e]) == Stream(es)
  {
    StreamParts(es);
    StreamEndsInZero(es[1..]);
    var tail := Stream(es[1..]);
    var e := Entry(es[0].path, es[0].content + [ZERO] + tail[..|tail| - 1]);
    MergedStream(es[0], tail, e);
    e
  }

  lemma MergedStream(first: Entry, tail: string, e: Entry)
    requires tail != "" && tail[|tail| - 1] == ZERO
    requires e == Entry(first.path, first.content + [ZERO] + tail[..|tail| - 1])
    ensures Stream([e]) == Framed(first) + tail
  {
    assert tail == tail[..|tail| - 1] + [ZERO];
    assert [e][1..] == [];
  }

  lemma MergedImitates(es: seq<Entry>)
    requires |es| > 1 && IsTree(es)
    ensures IsTree([Merged(es)]) && Stream([Merged(es)]) == Stream(es) && [Merged(es)] != es
  {
    assert [Merged(es)][0] == Merged(es);
  }

  /** A file whose content holds a path is imitated by two files. */
  function Parted(e: Entry, i: int, j: int): seq<Entry>
    requires PathAt(e, i, j)
  {
    [Entry(e.path, e.content[..i]), Entry(e.content[i + 1..j], e.content[j + 1..])]
  }

  lemma PartedImitates(e: Entry, i: int, j: int)
    requires IsTree([e]) && PathAt(e, i, j)
    ensures IsTree(Parted(e, i, j)) && Stream(Parted(e, i, j)) == Stream([e])
  {
    var es := Parted(e, i, j);
    assert [e][0] == e;
    assert es[1..] == [es[1]];
    assert Stream([es[1]]) == Framed(es[1]) + Stream([]);
    assert Stream([e]) == Framed(e) + Stream([]);
    assert e.content == e.content[..i] + [ZERO] + e.content[i + 1..j] + [ZERO] + e.content[j + 1..];
  }

  /** Only such a content can be taken for more files. */
  lemma ImitatorShowsAPath(e: Entry, es: seq<Entry>)
    requires IsTree([e]) && IsTree(es) && |es| > 1 && Stream(es) == Stream([e])
    ensures HoldsAPath(e)
  {
    assert [e][0] == e;
    StreamParts([e]);
    StreamParts(es);
    StreamParts(es[1..]);
    assert Stream([e][1..]) == "";
    var c0, p1, rest := es[0].content, es[1].path, es[1].content + [ZERO] + Stream(es[2..]);
    assert es[1..][0] == es[1] && es[1..][1..] == es[2..];
    assert e.path == es[0].path && e.content + [ZERO] == c0 + [ZERO] + (p1 + [ZERO] + rest) by {
      FirstPieceAgrees(e.path, es[0].path, e.content + [ZERO] + "", c0 + [ZERO] + Stream(es[1..]));
      assert e.content + [ZERO] + "" == e.content + [ZERO];
    }
    var whole := c0 + [ZERO] + (p1 + [ZERO] + rest);
    assert e.content == whole[..|whole| - 1];
    assert |rest| >= 1;
    var i, j := |c0|, |c0| + 1 + |p1|;
    assert whole[i] == ZERO && whole[j] == ZERO && whole[i + 1..j] == p1;
    assert e.content[i + 1..j] == p1;
    assert PathAt(e, i, j);
  }

  /** The digest's promise, that any change of the files changes its input, holds of exactly
      these trees: the empty one, and a single file whose content holds no path between zero
      bytes. Every other tree has an imitator. */
  lemma IdentifiedIff(es: seq<Entry>)
    requires IsTree(es)
    ensures Identified(es) <==> forall other :: IsTree(other) && Stream(other) == Stream(es) ==> other == es
  {
    if Identified(es) {
      forall other | IsTree(other) && Stream(other) == Stream(es) ensures other == es {
        IdentifiedIsUnique(es, other);
      }
    } else if |es| > 1 {
      MergedImitates(es);
      assert IsTree([Merged(es)]);
    } else {
      var i, j :| PathAt(es[0], i, j);
      assert es == [es[0]];
      PartedImitates(es[0], i, j);
      assert IsTree(Parted(es[0], i, j)) && Parted(es[0], i, j) != es;
    }
  }

  lemma DropLast(a: string, b: string)
    requires a + [ZERO] + "" == b + [ZERO] + ""
    ensures a == b
  {
    assert |a + [ZERO] + ""| == |a| + 1 && |b + [ZERO] + ""| == |b| + 1;
    forall i | 0 <= i < |a| ensures a[i] == b[i] { assert (a + [ZERO] + "")[i] == (b + [ZERO] + "")[i]; }
  }

  lemma IdentifiedIsUnique(es: seq<Entry>, other: seq<Entry>)
    requires IsTree(es) && Identified(es) && IsTree(other) && Stream(other) == Stream(es)
    ensures other == es
  {
    if es == [] {
      if other != [] { StreamEndsInZero(other); }
    } else {
      assert es == [es[0]];
      StreamEndsInZero(es);
      assert other != [];
      if |other| > 1 {
        ImitatorShowsAPath(es[0], other);
        assert false;
      }
      assert other == [other[0]];
      StreamParts(es);
      StreamParts(other);
      assert es[1..] == [] && other[1..] == [];
      FirstPieceAgrees(es[0].path, other[0].path, es[0].content + [ZERO] + "", other[0].content + [ZERO] + "");
      DropLast(es[0].content, other[0].content);
    }
  }

  lemma OneLetterPath(p: string)
    requires |p| == 1 && p[0] != '/' && p[0] != '.' && p[0] != ZERO
    ensures ValidPath(p)
  {
    SplitOne(p, '/');
  }

  /** One file a with content x 0 b 0 y, and two files a and b with contents x and y. */
  lemma OneFileImitatesTwo()
    ensures var one, two := [Entry("a", "x\0b\0y")], [Entry("a", "x"), Entry("b", "y")];
            IsTree(one) && IsTree(two) && Stream(one) == Stream(two)
  {
    OneLetterPath("a");
    OneLetterPath("b");
    var two := [Entry("a", "x"), Entry("b", "y")];
    assert two[1..] == [Entry("b", "y")];
    assert Stream(two) == Framed(two[0]) + (Framed(two[1]) + Stream([]));
    assert Stream([Entry("a", "x\0b\0y")]) == Framed(Entry("a", "x\0b\0y")) + Stream([]);
  }

  // ---- the verdict

  datatype Freshness = Match | Stale | Unknown

  /** compareEmbeddedDist, for any hash: stale only ever means different files, and a match
      means the same files when the hash keeps the two streams apart and no content holds a
      zero byte. */
  method CompareDist(embedded: seq<string>, embeddedDisk: map<string, string>,
                     onDisk: seq<string>, disk: map<string, string>, hash: string -> string)
    returns (verdict: Freshness, ghost a: seq<Entry>, ghost b: seq<Entry>)
    requires forall i, j :: 0 <= i < j < |embedded| ==> embedded[i] != embedded[j]
    requires forall i, j :: 0 <= i < j < |onDisk| ==> onDisk[i] != onDisk[j]
    ensures verdict == Unknown <==> (exists p :: p in embedded && p !in embeddedDisk) || (exists p :: p in onDisk && p !in disk)
    ensures verdict != Unknown ==> Lists(a, embedded, embeddedDisk) && Lists(b, onDisk, disk)
    ensures verdict != Unknown ==> (verdict == Match <==> hash(Stream(a)) == hash(Stream(b)))
    ensures verdict == Stale ==> a != b
    ensures verdict == Match && IsTree(a) && IsTree(b) && ZeroFree(a) && ZeroFree(b) ==>
              (hash(Stream(a)) == hash(Stream(b)) ==> Stream(a) == Stream(b)) ==> a == b
  {
    var embHash, diskHash;
    embHash, a := HashInput(embedded, embeddedDisk);
    diskHash, b := HashInput(onDisk, disk);
    if embHash.None? || diskHash.None? { return Unknown, a, b; }
    if hash(embHash.value) != hash(diskHash.value) { return Stale, a, b; }
    if Stream(a) == Stream(b) && IsTree(a) && IsTree(b) && ZeroFree(a) && ZeroFree(b) {
      ZeroFreeTreesAreToldApart(a, b);
    }
    return Match, a, b;
  }
}
