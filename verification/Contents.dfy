/**
 What an edit makes of a file, without any disk: the bytes it is to hold, block by
 block, and what a reader sees of it while some blocks are new and some are old.
 */
module Contents {
  import opened Words
  import opened Disk
  import opened Reader

  /** `s` with `data` at `offset`, cut or extended to `size`; what neither covers is zero. */
  function Edited(s: Bytes, offset: nat, data: Bytes, size: nat): (u: Bytes)
    ensures |u| == size
  {
    seq(size, k requires 0 <= k < size =>
      if offset <= k < offset + |data| then data[k - offset] else if k < |s| then s[k] else 0)
  }

  /** The old file as a reader of the old length sees it once the edit's bytes are in place. */
  function Overlaid(s: Bytes, u: Bytes): (v: Bytes)
    ensures |v| == |s|
  {
    seq(|s|, k requires 0 <= k < |s| => if k < |u| then u[k] else s[k])
  }

  /** The first `n` bytes of the new file, the rest of the old one. */
  function Torn(s: Bytes, v: Bytes, n: nat): (t: Bytes)
    requires |v| == |s|
    ensures |t| == |s|
  {
    if n <= |s| then v[..n] + s[n..] else v
  }

  /** Where the edit leaves the bytes of the old file alone, a torn file is the old one. */
  lemma NothingTorn(s: Bytes, u: Bytes, n: nat)
    requires forall k :: 0 <= k < |s| && k < |u| ==> u[k] == s[k]
    ensures Overlaid(s, u) == s && Torn(s, Overlaid(s, u), n) == s
  {}

  /** Bytes `start..start + len` hold a byte of `lo..hi`. */
  predicate Overlaps(start: nat, len: nat, lo: nat, hi: nat) {
    lo < hi && start < hi && lo < start + len
  }

  // ---- One block of the new file ------------------------------------------------------------

  /** What a block at `start` is filled with: what was there, zeros after it, `data` over both. */
  function Filled(was: Bytes, len: nat, start: nat, offset: nat, data: Bytes): (b: Bytes)
    requires |was| <= len
    ensures |b| == len
  {
    seq(len, k requires 0 <= k < len =>
      if offset <= start + k < offset + |data| then data[start + k - offset] else if k < |was| then was[k] else 0)
  }

  predicate InData(k: int, offset: nat, n: nat) {
    offset <= k < offset + n
  }

  /** Filling a block from the old file's bytes there gives the block of the new file. */
  lemma FilledIsChunk(s: Bytes, offset: nat, data: Bytes, size: nat, payload: nat, i: nat, start: nat, keep: nat)
    requires start == i * payload
    requires keep <= LenAt(size, payload, i) && (keep > 0 ==> start + keep <= |s|)
    requires forall k :: start + keep <= k < |s| && k < size && k < start + payload ==> InData(k, offset, |data|)
    ensures Filled(if keep > 0 then s[start..start + keep] else [], LenAt(size, payload, i), start, offset, data) ==
              Chunk(Edited(s, offset, data, size), payload, i)
  {
    var u := Edited(s, offset, data, size);
    var len := LenAt(size, payload, i);
    ChunkSize(u, payload, i);
    var was := if keep > 0 then s[start..start + keep] else [];
    var b, c := Filled(was, len, start, offset, data), Chunk(u, payload, i);
    forall k | 0 <= k < len
      ensures b[k] == c[k]
    {
      assert c[k] == u[start + k];
      if start + k < |s| && keep <= k { assert InData(start + k, offset, |data|); }
    }
  }

  /** A block no byte of which the edit touches reads, at the new length, as it did. */
  lemma UntouchedChunk(s: Bytes, offset: nat, data: Bytes, size: nat, payload: nat, i: nat, start: nat)
    requires start == i * payload && LenAt(size, payload, i) <= LenAt(|s|, payload, i)
    requires !Overlaps(start, LenAt(size, payload, i), offset, offset + |data|)
    ensures Chunk(Edited(s, offset, data, size), payload, i) == Chunk(s, payload, i)[..LenAt(size, payload, i)]
  {
    var u := Edited(s, offset, data, size);
    ChunkSize(u, payload, i);
    ChunkSize(s, payload, i);
    var b, c := Chunk(u, payload, i), Chunk(s, payload, i)[..LenAt(size, payload, i)];
    forall k | 0 <= k < |b|
      ensures b[k] == c[k]
    {
      assert b[k] == u[start + k] && c[k] == s[start + k];
    }
  }

  // ---- The old file while its blocks are rewritten ----------------------------------------------

  lemma TornChunkBefore(s: Bytes, v: Bytes, payload: nat, i: nat, n: nat)
    requires |v| == |s| && (i * payload + payload <= n || |s| <= n)
    ensures Chunk(Torn(s, v, n), payload, i) == Chunk(v, payload, i)
  {
    var t := Torn(s, v, n);
    ChunkSize(t, payload, i);
    ChunkSize(v, payload, i);
    var a, b := Chunk(t, payload, i), Chunk(v, payload, i);
    forall k | 0 <= k < |a|
      ensures a[k] == b[k]
    {
      assert a[k] == t[i * payload + k] && b[k] == v[i * payload + k];
    }
  }

  lemma TornChunkAfter(s: Bytes, v: Bytes, payload: nat, i: nat, n: nat)
    requires |v| == |s| && n <= i * payload
    ensures Chunk(Torn(s, v, n), payload, i) == Chunk(s, payload, i)
  {
    var t := Torn(s, v, n);
    ChunkSize(t, payload, i);
    ChunkSize(s, payload, i);
    var a, b := Chunk(t, payload, i), Chunk(s, payload, i);
    forall k | 0 <= k < |a|
      ensures a[k] == b[k]
    {
      assert a[k] == t[i * payload + k] && b[k] == s[i * payload + k];
    }
  }

  /** What the new block delivers to a reader of the old length. */
  lemma OverlaidChunk(s: Bytes, u: Bytes, payload: nat, i: nat)
    requires LenAt(|s|, payload, i) <= LenAt(|u|, payload, i)
    ensures Chunk(Overlaid(s, u), payload, i) == Chunk(u, payload, i)[..LenAt(|s|, payload, i)]
  {
    var v := Overlaid(s, u);
    ChunkSize(v, payload, i);
    ChunkSize(u, payload, i);
    var a, b := Chunk(v, payload, i), Chunk(u, payload, i)[..LenAt(|s|, payload, i)];
    forall k | 0 <= k < |a|
      ensures a[k] == b[k]
    {
      assert a[k] == v[i * payload + k] && b[k] == u[i * payload + k];
    }
  }

  /** A block the edit leaves alone is the same in all of them. */
  lemma UntouchedOverlay(s: Bytes, offset: nat, data: Bytes, size: nat, payload: nat, i: nat, start: nat)
    requires start == i * payload && !Overlaps(start, LenAt(size, payload, i), offset, offset + |data|)
    requires size >= |s| || data == []
    ensures Chunk(Overlaid(s, Edited(s, offset, data, size)), payload, i) == Chunk(s, payload, i)
  {
    var v := Overlaid(s, Edited(s, offset, data, size));
    ChunkSize(v, payload, i);
    ChunkSize(s, payload, i);
    var a, b := Chunk(v, payload, i), Chunk(s, payload, i);
    forall k | 0 <= k < |a|
      ensures a[k] == b[k]
    {
      assert a[k] == v[start + k] && b[k] == s[start + k];
    }
  }

  // ---- Lengths ----------------------------------------------------------------------------------

  lemma LenAtFull(size: nat, payload: nat, i: nat)
    requires payload > 0 && i + 1 < CeilDiv(size, payload)
    ensures LenAt(size, payload, i) == payload
  {
    BlockInside(size, payload, i);
    BlockInside(size, payload, i + 1);
  }

  lemma LenAtInside(size: nat, payload: nat, i: nat)
    requires payload > 0 && i < CeilDiv(size, payload)
    ensures 0 < LenAt(size, payload, i) <= payload && i * payload + LenAt(size, payload, i) <= size
    ensures i + 1 == CeilDiv(size, payload) ==> i * payload + LenAt(size, payload, i) == size
  {
    BlockInside(size, payload, i);
  }

  lemma LenAtOutside(size: nat, payload: nat, i: nat)
    requires payload > 0 && CeilDiv(size, payload) <= i
    ensures size <= i * payload && LenAt(size, payload, i) == 0
  {
    MulMonotone(CeilDiv(size, payload), i, payload);
  }
}
