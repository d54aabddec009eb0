/** Names shared by the modules: bytes, identifiers, RADOS objects and the operations on one object. */
module Rados {

  type byte = x: int | 0 <= x < 256

  type Oid = string
  type BoxId = string

  datatype Option<+T> = None | Some(value: T)

  /**
   One mail object. `meta` says that the metadata operation of the save was applied, `box` is the
   mailbox GUID attribute (M) and `uid` the UID attribute (U).
   */
  datatype Object = Object(data: seq<byte>, meta: bool, box: BoxId, uid: Option<nat>)

  /** A write to an object that does not exist creates it. */
  function ObjectAt(objects: map<Oid, Object>, oid: Oid): Object {
    if oid in objects then objects[oid] else Object([], false, "", None)
  }

  function Append(objects: map<Oid, Object>, oid: Oid, bytes: seq<byte>): map<Oid, Object> {
    var o := ObjectAt(objects, oid);
    objects[oid := o.(data := o.data + bytes)]
  }

  /** `write(off, bytes)`: overwrites in place, and fills a gap with zero bytes. */
  function WriteAt(objects: map<Oid, Object>, oid: Oid, off: nat, bytes: seq<byte>): map<Oid, Object> {
    var o := ObjectAt(objects, oid);
    var head := if off <= |o.data| then o.data[..off] else o.data + seq(off - |o.data|, _ => 0);
    var tail := if off + |bytes| <= |o.data| then o.data[off + |bytes|..] else [];
    objects[oid := o.(data := head + bytes + tail)]
  }

  /** The metadata operation sets the attributes and leaves the data alone. */
  function SetMeta(objects: map<Oid, Object>, oid: Oid, box: BoxId): map<Oid, Object> {
    objects[oid := ObjectAt(objects, oid).(meta := true, box := box)]
  }

  /** No element of `xs` occurs twice. */
  predicate Distinct<T(==)>(xs: seq<T>) {
    forall i, j :: 0 <= i < j < |xs| ==> xs[i] != xs[j]
  }

  /** The objects of one RADOS namespace. */
  class Cluster {
    var objects: map<Oid, Object>
  }
}
