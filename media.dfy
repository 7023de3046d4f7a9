/**
 * The browser values the recorder component handles: the data blobs a
 * MediaRecorder delivers, the blob assembled from them and the object URL
 * that names it.
 */
module Media {

  type Byte = b: int | 0 <= b < 256

  /** The `data` blob of one `dataavailable` event. */
  datatype Chunk = Chunk(bytes: seq<Byte>)

  /** `Blob.size` */
  function Size(c: Chunk): nat
  {
    |c.bytes|
  }

  /** `new Blob(parts, { type: mimeType })` */
  datatype Blob = Blob(parts: seq<Chunk>, mimeType: string)

  /** `URL.createObjectURL(blob)` */
  datatype ObjectUrl = ObjectUrl(blob: Blob)

  const WebmType := "audio/webm"

  /** The bytes of the chunks, one after another. */
  function Concat(cs: seq<Chunk>): seq<Byte>
  {
    if cs == [] then [] else Concat(cs[..|cs| - 1]) + cs[|cs| - 1].bytes
  }

  /** The content of a blob is the content of its parts in order. */
  function BlobBytes(b: Blob): seq<Byte>
  {
    Concat(b.parts)
  }

  /** The chunks a `size > 0` filter keeps, in arrival order. */
  function NonEmpty(cs: seq<Chunk>): (r: seq<Chunk>)
    ensures |r| <= |cs|
    ensures forall i :: 0 <= i < |r| ==> Size(r[i]) > 0
    ensures forall c :: c in r <==> c in cs && Size(c) > 0
  {
    if cs == [] then []
    else
      var init, last := cs[..|cs| - 1], cs[|cs| - 1];
      assert cs == init + [last];
      if Size(last) > 0 then NonEmpty(init) + [last] else NonEmpty(init)
  }

  /** Appending one chunk to the input appends it to the filtered sequence exactly when it is non-empty. */
  lemma NonEmptySnoc(cs: seq<Chunk>, c: Chunk)
    ensures NonEmpty(cs + [c]) == if Size(c) > 0 then NonEmpty(cs) + [c] else NonEmpty(cs)
  {
    assert (cs + [c])[..|cs|] == cs;
  }

  /** Filtering distributes over concatenation, so the relative order of the kept chunks is that of arrival. */
  lemma {:induction false} NonEmptyAppend(a: seq<Chunk>, b: seq<Chunk>)
    ensures NonEmpty(a + b) == NonEmpty(a) + NonEmpty(b)
    decreases |b|
  {
    if b != [] {
      var init, last := b[..|b| - 1], b[|b| - 1];
      assert b == init + [last];
      assert a + b == (a + init) + [last];
      NonEmptySnoc(a + init, last);
      NonEmptySnoc(init, last);
      NonEmptyAppend(a, init);
    } else {
      assert a + b == a;
    }
  }

  /** A sequence with no empty chunk passes the filter unchanged. */
  lemma {:induction false} NonEmptyIdentity(cs: seq<Chunk>)
    requires forall i :: 0 <= i < |cs| ==> Size(cs[i]) > 0
    ensures NonEmpty(cs) == cs
  {
    if cs != [] {
      var init := cs[..|cs| - 1];
      assert cs == init + [cs[|cs| - 1]];
      NonEmptyIdentity(init);
    }
  }

  /** Dropping empty chunks does not change the recorded bytes. */
  lemma {:induction false} NonEmptyKeepsBytes(cs: seq<Chunk>)
    ensures Concat(NonEmpty(cs)) == Concat(cs)
  {
    if cs != [] {
      var init, last := cs[..|cs| - 1], cs[|cs| - 1];
      NonEmptyKeepsBytes(init);
      if Size(last) > 0 {
        var r := NonEmpty(init) + [last];
        assert r[..|r| - 1] == NonEmpty(init);
      } else {
        assert last.bytes == [];
      }
    }
  }
}
