/** Cutting a list of files into groups whose paths fit on one command line. */
module ArgvChunks {

  const ARGV_BUDGET: nat := 96 * 1024

  /** A file, by the UTF-8 length of its path plus one for the separator. */
  datatype File = File(path: string, argvBytes: nat)

  function Bytes(files: seq<File>): nat {
    if files == [] then 0 else files[0].argvBytes + Bytes(files[1..])
  }

  function Flatten(chunks: seq<seq<File>>): seq<File> {
    if chunks == [] then [] else Flatten(chunks[..|chunks| - 1]) + chunks[|chunks| - 1]
  }

  /** One file, however long its path, or several within 96 KiB. */
  predicate Fits(chunk: seq<File>) {
    |chunk| == 1 || (|chunk| > 1 && Bytes(chunk) <= 98_304)
  }

  /** The files cut, in order, into chunks that fit. */
  predicate IsSplit(chunks: seq<seq<File>>, files: seq<File>) {
    Flatten(chunks) == files && forall c :: c in chunks ==> Fits(c)
  }

  lemma {:induction false} BytesAppend(x: seq<File>, y: seq<File>)
    ensures Bytes(x + y) == Bytes(x) + Bytes(y)
  {
    if x == [] {
      assert x + y == y;
    } else {
      BytesAppend(x[1..], y);
      assert (x + y)[1..] == x[1..] + y;
    }
  }

  lemma BytesSnoc(x: seq<File>, f: File)
    ensures Bytes(x + [f]) == Bytes(x) + f.argvBytes
  {
    BytesAppend(x, [f]);
    assert [f][1..] == [];
  }

  /** Taking the last file out of a split leaves a split, with at most one chunk less. */
  lemma WithoutLastFile(chunks: seq<seq<File>>, files: seq<File>, f: File) returns (shorter: seq<seq<File>>)
    requires IsSplit(chunks, files + [f])
    ensures chunks != [] && IsSplit(shorter, files)
    ensures if chunks[|chunks| - 1] == [f] then |shorter| == |chunks| - 1
            else |shorter| == |chunks| && shorter[|shorter| - 1] + [f] == chunks[|chunks| - 1]
  {
    var n := |chunks| - 1;
    var init, last := chunks[..n], chunks[n];
    assert last in chunks;
    assert last[|last| - 1] == (Flatten(init) + last)[|files|] == f;
    var kept := last[..|last| - 1];
    assert last == kept + [f];
    assert Flatten(init) + kept == (Flatten(init) + last)[..|files|] == files;
    if kept == [] {
      shorter := init;
    } else {
      shorter := init + [kept];
      BytesSnoc(kept, f);
      assert shorter[..n] == init;
    }
  }

  /** What greedy cutting has established for the files read so far: a split, and every
      other split of them is either longer or leaves no more room in its last chunk. */
  ghost predicate Ahead(chunks: seq<seq<File>>, current: seq<File>, files: seq<File>) {
    && Flatten(chunks) + current == files
    && (forall c :: c in chunks ==> Fits(c))
    && (current == [] ==> files == [] && chunks == [])
    && (current != [] ==> Fits(current))
    && (forall other :: current != [] && IsSplit(other, files) ==>
          || |other| > |chunks| + 1
          || (|other| == |chunks| + 1 && |other[|chunks|]| >= |current|))
  }

  lemma LastChunkIsSuffix(chunks: seq<seq<File>>, files: seq<File>, k: nat)
    requires IsSplit(chunks, files) && chunks != [] && k <= |chunks[|chunks| - 1]|
    ensures k <= |files| && Bytes(files[|files| - k..]) <= Bytes(chunks[|chunks| - 1])
  {
    var last := chunks[|chunks| - 1];
    var i := |last| - k;
    assert last == last[..i] + last[i..];
    BytesAppend(last[..i], last[i..]);
    assert files[|files| - k..] == last[i..];
  }

  lemma FileJoins(chunks: seq<seq<File>>, current: seq<File>, files: seq<File>, f: File)
    requires Ahead(chunks, current, files)
    requires current == [] || Bytes(current) + f.argvBytes <= ARGV_BUDGET
    ensures Ahead(chunks, current + [f], files + [f])
  {
    assert Flatten(chunks) + (current + [f]) == Flatten(chunks) + current + [f];
    BytesSnoc(current, f);
    forall other | IsSplit(other, files + [f])
      ensures |other| > |chunks| + 1 || (|other| == |chunks| + 1 && |other[|chunks|]| >= |current| + 1)
    {
      var shorter := WithoutLastFile(other, files, f);
    }
  }

  lemma FileStartsChunk(chunks: seq<seq<File>>, current: seq<File>, files: seq<File>, f: File)
    requires Ahead(chunks, current, files)
    requires current != [] && Bytes(current) + f.argvBytes > ARGV_BUDGET
    ensures Ahead(chunks + [current], [f], files + [f])
  {
    assert (chunks + [current])[..|chunks|] == chunks;
    forall other | IsSplit(other, files + [f])
      ensures |other| > |chunks| + 2 || (|other| == |chunks| + 2 && |other[|chunks| + 1]| >= 1)
    {
      var shorter := WithoutLastFile(other, files, f);
      var last := other[|other| - 1];
      assert last in other;
      if last != [f] && |other| == |chunks| + 1 {
        // The last chunk would hold the whole of `current` and `f`, which do not fit.
        LastChunkIsSuffix(other, files + [f], |current| + 1);
        assert (files + [f])[|files| - |current|..] == current + [f];
        BytesSnoc(current, f);
        assert false;
      }
    }
  }

  lemma NoFiles()
    ensures Ahead([], [], [])
  {
  }

  /** No in-order split of the files into chunks that fit has fewer chunks. */
  method ChunkFilesByArgv(files: seq<File>) returns (chunks: seq<seq<File>>)
    ensures IsSplit(chunks, files)
    ensures forall other :: IsSplit(other, files) ==> |chunks| <= |other|
  {
    hide Ahead;
    chunks := [];
    var current: seq<File> := [];
    var bytes := 0;
    NoFiles();
    for i := 0 to |files|
      invariant Ahead(chunks, current, files[..i])
      invariant bytes == Bytes(current)
    {
      var file := files[i];
      assert files[..i + 1] == files[..i] + [file];
      if |current| > 0 && bytes + file.argvBytes > ARGV_BUDGET {
        FileStartsChunk(chunks, current, files[..i], file);
        chunks := chunks + [current];
        current, bytes := [], 0;
      } else {
        FileJoins(chunks, current, files[..i], file);
      }
      BytesSnoc(current, file);
      assert [] + [file] == [file];
      current, bytes := current + [file], bytes + file.argvBytes;
    }
    assert files[..|files|] == files;
    Shortest(chunks, current, files);
    if |current| > 0 {
      chunks := chunks + [current];
    }
  }

  lemma Shortest(chunks: seq<seq<File>>, current: seq<File>, files: seq<File>)
    requires Ahead(chunks, current, files)
    ensures var result := if current != [] then chunks + [current] else chunks;
            IsSplit(result, files) && forall other :: IsSplit(other, files) ==> |result| <= |other|
  {
    assert (chunks + [current])[..|chunks|] == chunks;
  }
}
