/**
 * The byte stream behind a source hash: for every file its path, a NUL, the digest of its
 * bytes, a NUL. Hash functions stay arbitrary, so equal hashes mean equal sources unless
 * two of the very strings that were hashed collide.
 */
module SourceIdentity {
  import opened Prelude

  datatype Item = Item(path: seq<Byte>, digest: seq<Byte>)

  datatype File = File(path: seq<Byte>, contents: seq<Byte>)

  type Hash = seq<Byte> -> seq<Byte>

  predicate WellFormed(item: Item) {
    0 !in item.path && |item.digest| == 32
  }

  predicate AllWellFormed(items: seq<Item>) {
    forall i :: 0 <= i < |items| ==> WellFormed(items[i])
  }

  function Chunk(item: Item): seq<Byte> {
    item.path + [0] + item.digest + [0]
  }

  /** Everything the loop feeds to the hash, file by file. */
  function Stream(items: seq<Item>): seq<Byte> {
    if items == [] then [] else Chunk(items[0]) + Stream(items[1..])
  }

  // ---------------------------------------------------------------- reading the stream back

  /** Position of the first NUL. */
  function FirstNul(stream: seq<Byte>): (i: nat)
    ensures i <= |stream| && 0 !in stream[..i] && (i < |stream| ==> stream[i] == 0)
  {
    if stream == [] || stream[0] == 0 then 0
    else
      var rest := FirstNul(stream[1..]);
      assert stream[..rest + 1] == [stream[0]] + stream[1..][..rest];
      rest + 1
  }

  /** The only way to read a stream; None when it is not one. */
  function Parse(stream: seq<Byte>): Option<seq<Item>>
    decreases |stream|
  {
    if stream == [] then Some([])
    else
      var n := FirstNul(stream);
      if n + 34 > |stream| || stream[n + 33] != 0 then None
      else
        var rest := Parse(stream[n + 34..]);
        if rest.None? then None else Some([Item(stream[..n], stream[n + 1..n + 33])] + rest.value)
  }

  lemma FirstNulOf(path: seq<Byte>, rest: seq<Byte>)
    requires 0 !in path
    ensures FirstNul(path + [0] + rest) == |path|
  {
    var stream := path + [0] + rest;
    assert stream[|path|] == 0 && stream[..|path|] == path;
    FirstNulUnique(stream, |path|);
  }

  lemma {:induction false} FirstNulUnique(stream: seq<Byte>, n: nat)
    requires n < |stream| && 0 !in stream[..n] && stream[n] == 0
    ensures FirstNul(stream) == n
  {
    if n > 0 {
      assert stream[..n][0] != 0;
      assert stream[1..][..n - 1] == stream[..n][1..];
      FirstNulUnique(stream[1..], n - 1);
    }
  }

  /** Reading back what was fed gives the list that was fed. */
  lemma {:induction false} ParseInvertsStream(items: seq<Item>)
    requires AllWellFormed(items)
    ensures Parse(Stream(items)) == Some(items)
    decreases |items|
  {
    if items != [] {
      hide Parse;
      assert WellFormed(items[0]);
      ParseInvertsStream(items[1..]);
      ParseChunk(items[0], Stream(items[1..]));
      assert items == [items[0]] + items[1..];
    } else {
      assert Stream(items) == [];
    }
  }

  lemma ChunkParts(item: Item, rest: seq<Byte>)
    requires |item.digest| == 32
    ensures var (n, stream) := (|item.path|, Chunk(item) + rest);
      && |stream| == n + 34 + |rest| && stream == item.path + [0] + (item.digest + [0] + rest)
      && stream[..n] == item.path && stream[n + 1..n + 33] == item.digest && stream[n + 33] == 0
  {
  }

  lemma ChunkTail(item: Item, rest: seq<Byte>)
    requires |item.digest| == 32
    ensures (Chunk(item) + rest)[|item.path| + 34..] == rest
  {
  }

  lemma ParseChunk(item: Item, rest: seq<Byte>)
    requires WellFormed(item) && Parse(rest).Some?
    ensures Parse(Chunk(item) + rest) == Some([item] + Parse(rest).value)
  {
    hide Chunk, FirstNul;
    ChunkParts(item, rest);
    ChunkTail(item, rest);
    FirstNulOf(item.path, item.digest + [0] + rest);
  }

  /** Two lists with the same stream are the same list. */
  lemma StreamDecides(a: seq<Item>, b: seq<Item>)
    requires AllWellFormed(a) && AllWellFormed(b) && Stream(a) == Stream(b)
    ensures a == b
  {
    ParseInvertsStream(a);
    ParseInvertsStream(b);
  }

  // ---------------------------------------------------------------- source revisions

  function ItemOf(sha: Hash, file: File): Item {
    Item(file.path, sha(file.contents))
  }

  function Items(sha: Hash, files: seq<File>): (items: seq<Item>)
    ensures |items| == |files| && forall i :: 0 <= i < |files| ==> items[i] == ItemOf(sha, files[i])
  {
    seq(|files|, i requires 0 <= i < |files| => ItemOf(sha, files[i]))
  }

  predicate Listing(files: seq<File>) {
    forall i :: 0 <= i < |files| ==> 0 !in files[i].path
  }

  function Revision(sha: Hash, files: seq<File>): seq<Byte> {
    sha(Stream(Items(sha, files)))
  }

  predicate Clash(sha: Hash, x: seq<Byte>, y: seq<Byte>) {
    x != y && sha(x) == sha(y)
  }

  /** Two different strings among those hashed for the two sources have one hash. */
  predicate Collides(sha: Hash, a: seq<File>, b: seq<File>) {
    || Clash(sha, Stream(Items(sha, a)), Stream(Items(sha, b)))
    || exists i :: 0 <= i < |a| && i < |b| && Clash(sha, a[i].contents, b[i].contents)
  }

  /** One revision, one source: the same paths with the same contents, or a collision in plain sight. */
  lemma RevisionDecides(sha: Hash, a: seq<File>, b: seq<File>)
    requires (forall x :: |sha(x)| == 32) && Listing(a) && Listing(b) && Revision(sha, a) == Revision(sha, b)
    ensures a == b || Collides(sha, a, b)
  {
    if !Collides(sha, a, b) {
      StreamDecides(Items(sha, a), Items(sha, b));
      forall i | 0 <= i < |a| ensures a[i] == b[i] {
        assert ItemOf(sha, a[i]) == Items(sha, a)[i] == Items(sha, b)[i] == ItemOf(sha, b[i]);
      }
    }
  }

  // ---------------------------------------------------------------- the loop

  lemma {:induction false} StreamGrows(items: seq<Item>, item: Item)
    ensures Stream(items + [item]) == Stream(items) + Chunk(item)
    decreases |items|
  {
    if items == [] {
      assert [item][1..] == [];
      assert Stream([item]) == Chunk(item) + [];
      assert items + [item] == [item];
    } else {
      assert (items + [item])[1..] == items[1..] + [item];
      StreamGrows(items[1..], item);
      assert Chunk(items[0]) + (Stream(items[1..]) + Chunk(item)) == Chunk(items[0]) + Stream(items[1..]) + Chunk(item);
    }
  }

  /** _source_hash and source_revision: four updates per file. */
  method SourceHash(sha: Hash, files: seq<File>) returns (r: seq<Byte>)
    ensures r == Revision(sha, files)
  {
    var fed: seq<Byte> := [];
    for i := 0 to |files|
      invariant fed == Stream(Items(sha, files[..i]))
    {
      var file := files[i];
      StreamGrows(Items(sha, files[..i]), ItemOf(sha, file));
      assert Items(sha, files[..i]) + [ItemOf(sha, file)] == Items(sha, files[..i + 1]);
      fed := fed + file.path;
      fed := fed + [0];
      fed := fed + sha(file.contents);
      fed := fed + [0];
    }
    assert files[..|files|] == files;
    r := sha(fed);
  }
}
