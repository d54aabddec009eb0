/**
 The mail body on its way into one RADOS object: the buffering output stream collects the pieces
 the client sends, and `save_mail_write_append` writes the buffer in chunks of at most `max` bytes.
 */
module ChunkedWriter {
  import opened Rados

  const INT_MAX: nat := 0x7fff_ffff

  /** Number of write operations for a buffer of `size` bytes. */
  function ChunkCount(size: nat, max: nat): nat
    requires max > 0
  {
    size / max + (if size % max > 0 then 1 else 0)
  }

  /** Number of bytes written once `i` chunks are done. */
  function Offset(size: nat, max: nat, i: nat): (off: nat)
    ensures off <= size
  {
    if i * max <= size then i * max else size
  }

  /** The length the code computes for chunk `i`. */
  function ChunkLength(size: nat, max: nat, i: nat): nat
    requires max > 0
  {
    if size < (i + 1) * max then size % max else max
  }

  lemma MulMonotone(a: nat, b: nat, m: nat)
    requires a <= b
    ensures a * m <= b * m
    ensures (a + 1) * m == a * m + m
  {
  }

  lemma DivMod(size: nat, max: nat)
    requires max > 0
    ensures size == (size / max) * max + size % max && size % max < max
  {
  }

  /** The offset splitter and the appender agree on where chunk `i` starts and ends, and the last
      chunk ends at the end of the buffer. */
  lemma ChunkBounds(size: nat, max: nat, i: nat)
    requires max > 0 && i < ChunkCount(size, max)
    ensures i * max < size
    ensures Offset(size, max, i) == i * max
    ensures i * max + ChunkLength(size, max, i) == Offset(size, max, i + 1)
    ensures i + 1 == ChunkCount(size, max) <==> Offset(size, max, i + 1) == size
  {
    var q, r := size / max, size % max;
    DivMod(size, max);
    MulMonotone(i, i, max);
    if i < q {
      MulMonotone(i + 1, q, max);
      if i + 1 < q {
        MulMonotone(i + 2, q, max);
        MulMonotone(i + 1, i + 1, max);
      }
    } else {
      assert i == q;
    }
  }

  lemma AllWritten(size: nat, max: nat)
    requires max > 0
    ensures Offset(size, max, ChunkCount(size, max)) == size
    ensures Offset(size, max, 0) == 0
    ensures size > 0 <==> ChunkCount(size, max) > 0
  {
    DivMod(size, max);
    MulMonotone(size / max, size / max, max);
  }

  /** The concatenation of the pieces of one or more sends. */
  function Concat(pieces: seq<seq<byte>>): seq<byte> {
    if pieces == [] then [] else Concat(pieces[..|pieces| - 1]) + pieces[|pieces| - 1]
  }

  lemma ConcatOne(piece: seq<byte>)
    ensures Concat([piece]) == piece
  {
    assert [piece][..0] == [];
  }

  lemma {:induction false} ConcatAppends(a: seq<seq<byte>>, b: seq<seq<byte>>)
    ensures Concat(a + b) == Concat(a) + Concat(b)
  {
    if b == [] {
      assert a + b == a;
    } else {
      var front := b[..|b| - 1];
      ConcatAppends(a, front);
      assert (a + b)[..|a + b| - 1] == a + front;
    }
  }

  /** The output stream in buffering mode. */
  class BufferStream {
    var buffer: seq<byte>
    var offset: nat
    ghost var sent: seq<seq<byte>>

    ghost predicate Valid()
      reads this
    {
      buffer == Concat(sent) && offset == |buffer|
    }

    constructor ()
      ensures Valid() && sent == []
    {
      buffer, offset, sent := [], 0, [];
    }

    /** Appends every piece; the stream offset stays the length of everything sent so far. */
    method Sendv(iov: seq<seq<byte>>) returns (ret: nat)
      requires Valid()
      modifies this
      ensures Valid() && sent == old(sent) + iov
      ensures buffer == old(buffer) + Concat(iov) && ret == |Concat(iov)|
    {
      ret := 0;
      var i := 0;
      while i < |iov|
        invariant i <= |iov|
        invariant buffer == old(buffer) + Concat(iov[..i])
        invariant offset == old(offset) + |Concat(iov[..i])|
        invariant ret == |Concat(iov[..i])| && sent == old(sent)
      {
        assert iov[..i + 1][..i] == iov[..i];
        buffer := buffer + iov[i];
        offset := offset + |iov[i]|;
        ret := ret + |iov[i]|;
        i := i + 1;
      }
      assert iov[..i] == iov;
      ConcatAppends(sent, iov);
      sent := sent + iov;
    }
  }

  /** `done` is the number of operations of the plan that succeed before the first that fails. */
  ghost predicate SuccessCount(plan: seq<bool>, done: nat) {
    && done <= |plan|
    && (forall i :: 0 <= i < done ==> plan[i])
    && (done < |plan| ==> !plan[done])
  }

  /** The object that holds `prefix` after a save whose metadata operation went as `metaOk` says. */
  function Saved(prefix: seq<byte>, metaOk: bool, box: BoxId): Object {
    Object(prefix, metaOk, if metaOk then box else "", None)
  }

  /** The store after the metadata operation and `done` chunks of `buffer` to the new object `oid`. */
  function Written(objects: map<Oid, Object>, oid: Oid, box: BoxId, buffer: seq<byte>, max: nat,
                   metaOk: bool, done: nat): map<Oid, Object>
  {
    if !metaOk && done == 0 then objects
    else objects[oid := Saved(buffer[..Offset(|buffer|, max, done)], metaOk, box)]
  }

  /** Where an object ends, writing at that offset is appending. */
  lemma WriteAtEndAppends(objects: map<Oid, Object>, oid: Oid, bytes: seq<byte>)
    ensures WriteAt(objects, oid, |ObjectAt(objects, oid).data|, bytes) == Append(objects, oid, bytes)
  {
    var o := ObjectAt(objects, oid);
    assert o.data[..|o.data|] == o.data;
    if bytes == [] { assert o.data[|o.data|..] == []; }
    assert o.data + bytes + [] == o.data + bytes;
  }

  /** One more chunk, whether appended or written at its offset, extends the written prefix. */
  lemma ChunkExtends(objects: map<Oid, Object>, oid: Oid, box: BoxId, buffer: seq<byte>, max: nat,
                     metaOk: bool, i: nat)
    requires max > 0 && i < ChunkCount(|buffer|, max) && oid !in objects
    ensures var before := Written(objects, oid, box, buffer, max, metaOk, i);
            var end := Offset(|buffer|, max, i + 1);
            && i * max <= end
            && Append(before, oid, buffer[i * max..end]) == Written(objects, oid, box, buffer, max, metaOk, i + 1)
            && WriteAt(before, oid, i * max, buffer[i * max..end]) == Append(before, oid, buffer[i * max..end])
  {
    ChunkBounds(|buffer|, max, i);
    var start, end := i * max, Offset(|buffer|, max, i + 1);
    var before := Written(objects, oid, box, buffer, max, metaOk, i);
    assert buffer[..start] + buffer[start..end] == buffer[..end];
    assert ObjectAt(before, oid) == Saved(buffer[..start], metaOk, box);
    WriteAtEndAppends(before, oid, buffer[start..end]);
  }

  /**
   `save_mail_write_append` on a fresh object. `plan[i]` is the outcome of the i-th chunk operation.
   The result of the metadata operation is a `bool` that the code compares with `< 0`, so `metaOk`
   does not influence `ret`.
   */
  method SaveMailWriteAppend(c: Cluster, oid: Oid, box: BoxId, buffer: seq<byte>, max: nat,
                             metaOk: bool, plan: seq<bool>) returns (ret: int, done: nat)
    requires 0 < max && |buffer| <= INT_MAX
    requires oid !in c.objects
    requires |plan| == ChunkCount(|buffer|, max)
    modifies c
    ensures SuccessCount(plan, done)
    ensures ret == if 0 < done == |plan| then 0 else -1
    ensures buffer == [] ==> c.objects == old(c.objects)
    ensures buffer != [] ==> c.objects == Written(old(c.objects), oid, box, buffer, max, metaOk, done)
    ensures ret == 0 ==> oid in c.objects && c.objects[oid].data == buffer && c.objects[oid].uid == None
    ensures ret == 0 ==> c.objects[oid].meta == metaOk && (metaOk ==> c.objects[oid].box == box)
    ensures forall o :: o != oid ==> (o in c.objects <==> o in old(c.objects))
    ensures forall o :: o != oid && o in c.objects ==> c.objects[o] == old(c.objects)[o]
  {
    done, ret := 0, 0;
    AllWritten(|buffer|, max);
    if |buffer| == 0 { return -1, 0; }
    if metaOk { c.objects := SetMeta(c.objects, oid, box); }
    assert buffer[..0] == [];
    assert c.objects == Written(old(c.objects), oid, box, buffer, max, metaOk, 0);
    var rest := |buffer| % max;
    var count := |buffer| / max + (if rest > 0 then 1 else 0);
    for i := 0 to count
      invariant done == i && ret == 0
      invariant forall j :: 0 <= j < i ==> plan[j]
      invariant c.objects == Written(old(c.objects), oid, box, buffer, max, metaOk, i)
    {
      ChunkBounds(|buffer|, max, i);
      ChunkExtends(old(c.objects), oid, box, buffer, max, metaOk, i);
      var offset := i * max;
      var length := if |buffer| < (i + 1) * max then rest else max;
      // neither range check of the code can fail, and `offset` fits an int
      assert offset < |buffer| <= INT_MAX && offset + length <= |buffer|;
      if !plan[i] { ret := -1; return; }
      if count == 1 {
        assert buffer[offset..offset + length] == buffer;
        c.objects := WriteAt(c.objects, oid, 0, buffer);
      } else {
        c.objects := Append(c.objects, oid, buffer[offset..offset + length]);
      }
      done := i + 1;
    }
    assert buffer[..|buffer|] == buffer;
  }

  /** The older writer, which writes every chunk at its offset and does notice a failed metadata operation. */
  method SplitBufferAndExecOp(c: Cluster, oid: Oid, box: BoxId, buffer: seq<byte>, max: nat,
                              metaOk: bool, plan: seq<bool>) returns (ret: int, done: nat)
    requires 0 < max && |buffer| <= INT_MAX
    requires oid !in c.objects
    requires |plan| == ChunkCount(|buffer|, max)
    modifies c
    ensures !metaOk || buffer == [] ==> ret == -1 && c.objects == old(c.objects)
    ensures metaOk && buffer != [] ==>
              && SuccessCount(plan, done)
              && ret == (if done == |plan| then 0 else -1)
              && c.objects == Written(old(c.objects), oid, box, buffer, max, true, done)
  {
    done, ret := 0, 0;
    AllWritten(|buffer|, max);
    if |buffer| == 0 || !metaOk { return -1, 0; }
    c.objects := SetMeta(c.objects, oid, box);
    assert buffer[..0] == [];
    var rest := |buffer| % max;
    var count := |buffer| / max + (if rest > 0 then 1 else 0);
    for i := 0 to count
      invariant done == i && ret == 0
      invariant forall j :: 0 <= j < i ==> plan[j]
      invariant c.objects == Written(old(c.objects), oid, box, buffer, max, true, i)
    {
      ChunkBounds(|buffer|, max, i);
      ChunkExtends(old(c.objects), oid, box, buffer, max, true, i);
      var offset := i * max;
      var length := if |buffer| < (i + 1) * max then rest else max;
      if !plan[i] { ret := -1; return; }
      if count == 1 {
        assert buffer[offset..offset + length] == buffer;
        c.objects := WriteAt(c.objects, oid, 0, buffer);
      } else {
        c.objects := WriteAt(c.objects, oid, offset, buffer[offset..offset + length]);
      }
      done := i + 1;
    }
  }

  /** Both writers leave the same objects exactly when the metadata operation succeeds or no chunk is written. */
  lemma WritersAgree(objects: map<Oid, Object>, oid: Oid, box: BoxId, buffer: seq<byte>, max: nat,
                     metaOk: bool, done: nat)
    requires 0 < max && oid !in objects && buffer != [] && done <= ChunkCount(|buffer|, max)
    ensures var appended := Written(objects, oid, box, buffer, max, metaOk, done);
            var split := if metaOk then Written(objects, oid, box, buffer, max, true, done) else objects;
            appended == split <==> metaOk || done == 0
  {
    if !metaOk && done > 0 {
      assert oid in Written(objects, oid, box, buffer, max, metaOk, done);
    }
  }
}
