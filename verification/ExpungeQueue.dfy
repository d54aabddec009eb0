/** Expunging: records are marked and queued while the sync records are read, objects are removed after the commit. */
module ExpungeQueue {
  import opened Rados

  /** A record of the sync view; `oid` is missing when the record has no extension data. */
  datatype Rec = Rec(uid: nat, oid: Option<Oid>)

  /** The view: a record that cannot be looked up is None. Sequence numbers start at 1. */
  type View = seq<Option<Rec>>

  datatype Range = Range(first: nat, last: nat)

  /** A queued item, with the sequence number it came from. */
  datatype Item = Item(number: nat, uid: nat, oid: Oid)

  predicate Covers(r: Range, q: nat) { r.first <= q <= r.last }

  ghost predicate Covered(rs: seq<Range>, q: nat) { exists i :: 0 <= i < |rs| && Covers(rs[i], q) }

  predicate Present(view: View, q: nat) { 1 <= q <= |view| && view[q - 1].Some? }

  function OidOf(view: View, q: nat): Option<Oid> { if Present(view, q) then view[q - 1].value.oid else None }

  // ----- the queue -----

  predicate ItemOk(view: View, expunged: set<nat>, e: Item) {
    e.number in expunged && Present(view, e.number) && view[e.number - 1].value == Rec(e.uid, Some(e.oid))
  }

  ghost predicate Queued(items: seq<Item>, q: nat) { exists i :: 0 <= i < |items| && items[i].number == q }

  /** Every expunged record that names an object is queued exactly once, and nothing else is. */
  ghost predicate QueueOk(view: View, expunged: set<nat>, items: seq<Item>) {
    && (forall q :: q in expunged ==> Present(view, q))
    && (forall i :: 0 <= i < |items| ==> ItemOk(view, expunged, items[i]))
    && (forall i, j :: 0 <= i < j < |items| ==> items[i].number != items[j].number)
    && (forall q :: q in expunged && OidOf(view, q).Some? ==> Queued(items, q))
  }

  lemma QueueGrows(view: View, expunged: set<nat>, items: seq<Item>, q: nat)
    requires QueueOk(view, expunged, items) && Present(view, q) && q !in expunged
    ensures var rec := view[q - 1].value;
            QueueOk(view, expunged + {q}, if rec.oid.Some? then items + [Item(q, rec.uid, rec.oid.value)] else items)
  {
    var rec := view[q - 1].value;
    if rec.oid.Some? {
      QueueAdds(view, expunged, items, Item(q, rec.uid, rec.oid.value));
    }
  }

  lemma QueueAdds(view: View, expunged: set<nat>, items: seq<Item>, e: Item)
    requires QueueOk(view, expunged, items) && e.number !in expunged && ItemOk(view, {e.number}, e)
    ensures QueueOk(view, expunged + {e.number}, items + [e])
  {
    var items' := items + [e];
    forall i | 0 <= i < |items'|
      ensures ItemOk(view, expunged + {e.number}, items'[i])
    {
      if i < |items| { assert ItemOk(view, expunged, items[i]); }
    }
    forall p | p in expunged + {e.number} && OidOf(view, p).Some?
      ensures Queued(items', p)
    {
      QueuedStill(items, e, p);
    }
  }

  lemma QueuedStill(items: seq<Item>, e: Item, p: nat)
    requires Queued(items, p) || p == e.number
    ensures Queued(items + [e], p)
  {
    if p == e.number {
      assert (items + [e])[|items|].number == p;
    } else {
      var i :| 0 <= i < |items| && items[i].number == p;
      assert (items + [e])[i].number == p;
    }
  }

  class SyncContext {
    const view: View
    var expunged: set<nat>
    var items: seq<Item>

    ghost predicate Valid()
      reads this
    {
      QueueOk(view, expunged, items)
    }

    constructor (view: View)
      ensures Valid() && this.view == view && expunged == {} && items == []
    {
      this.view := view;
      expunged, items := {}, [];
    }

    /** `rbox_sync_expunge` */
    method Expunge(first: nat, last: nat)
      requires Valid()
      modifies this
      ensures Valid()
      ensures forall q :: q in expunged <==> q in old(expunged) || (Covers(Range(first, last), q) && Present(view, q))
      ensures old(items) <= items
    {
      var q := first;
      while q <= last
        invariant Valid() && old(items) <= items && (first <= last ==> first <= q <= last + 1)
        invariant first > last ==> q == first
        invariant forall p :: p in expunged <==> p in old(expunged) || (first <= p < q && p <= last && Present(view, p))
        decreases last + 1 - q
      {
        if Present(view, q) && q !in expunged {
          QueueGrows(view, expunged, items, q);
          var rec := view[q - 1].value;
          expunged := expunged + {q};
          if rec.oid.Some? { items := items + [Item(q, rec.uid, rec.oid.value)]; }
        }
        q := q + 1;
      }
    }

    /** The expunge records of a sync, whose ranges may overlap. */
    method SyncIndex(ranges: seq<Range>)
      requires Valid() && expunged == {} && items == []
      modifies this
      ensures Valid()
      ensures forall q :: q in expunged <==> Covered(ranges, q) && Present(view, q)
    {
      var i := 0;
      while i < |ranges|
        invariant i <= |ranges| && Valid()
        invariant forall q :: q in expunged <==> (exists j :: 0 <= j < i && Covers(ranges[j], q)) && Present(view, q)
      {
        assert ranges[i] == Range(ranges[i].first, ranges[i].last);
        Expunge(ranges[i].first, ranges[i].last);
        i := i + 1;
      }
    }

    /** `rbox_sync_expunge_rbox_objects`; `stuck` are the objects that cannot be removed. */
    method RemoveObjects(objects: set<Oid>, stuck: set<Oid>) returns (objects': set<Oid>)
      requires Valid()
      ensures forall o :: o in objects' <==> o in objects && (o in stuck || !Removed(view, expunged, o))
    {
      objects' := objects;
      var i := 0;
      while i < |items|
        invariant i <= |items|
        invariant forall o :: o in objects' <==>
                    o in objects && (o in stuck || forall j :: 0 <= j < i ==> items[j].oid != o)
      {
        if items[i].oid !in stuck { objects' := objects' - {items[i].oid}; }
        i := i + 1;
      }
      forall o
        ensures Removed(view, expunged, o) <==> exists j :: 0 <= j < |items| && items[j].oid == o
      {
        RemovedIff(view, expunged, items, o);
      }
    }

    /** `rbox_sync_finish`: the records go when the index commits, and only then the objects. */
    method Finish(objects: set<Oid>, stuck: set<Oid>, success: bool, commits: bool)
      returns (ret: int, objects': set<Oid>, records: set<nat>)
      requires Valid()
      ensures ret == if success && commits then 0 else -1
      ensures ret == 0 ==> records == Numbers(view) - expunged
      ensures ret == 0 ==> forall o :: o in objects' <==> o in objects && (o in stuck || !Removed(view, expunged, o))
      ensures ret < 0 ==> records == Numbers(view) && objects' == objects
    {
      objects', records := objects, Numbers(view);
      if !success || !commits { return -1, objects', records; }
      records := records - expunged;
      objects' := RemoveObjects(objects, stuck);
      return 0, objects', records;
    }
  }

  /** The object is named by an expunged record. */
  ghost predicate Removed(view: View, expunged: set<nat>, o: Oid) {
    exists q :: q in expunged && OidOf(view, q) == Some(o)
  }

  lemma RemovedIff(view: View, expunged: set<nat>, items: seq<Item>, o: Oid)
    requires QueueOk(view, expunged, items)
    ensures Removed(view, expunged, o) <==> exists j :: 0 <= j < |items| && items[j].oid == o
  {
    if Removed(view, expunged, o) {
      var q :| q in expunged && OidOf(view, q) == Some(o);
      assert Queued(items, q);
      var j :| 0 <= j < |items| && items[j].number == q;
      assert ItemOk(view, expunged, items[j]);
    }
    if j :| 0 <= j < |items| && items[j].oid == o {
      assert ItemOk(view, expunged, items[j]);
      assert OidOf(view, items[j].number) == Some(o);
    }
  }

  function Numbers(view: View): set<nat> { set q: nat | 1 <= q <= |view| && Present(view, q) }

  /** No two records of the view name the same object. */
  ghost predicate DistinctOids(view: View) {
    forall p, q :: Present(view, p) && Present(view, q) && OidOf(view, p).Some? && OidOf(view, p) == OidOf(view, q) ==>
        p == q
  }

  /** With distinct oids, no object that a remaining record names is removed, however the ranges overlap. */
  lemma RemainingKeepObjects(view: View, expunged: set<nat>, q: nat)
    requires DistinctOids(view) && expunged <= Numbers(view) && q in Numbers(view) - expunged && OidOf(view, q).Some?
    ensures !Removed(view, expunged, OidOf(view, q).value)
  {
  }

  /**
   Every choice of records to expunge keeps the objects of the remaining ones iff no two records of the view name the
   same object.
   */
  lemma AlwaysSafeIff(view: View)
    ensures DistinctOids(view) <==> forall expunged :: expunged <= Numbers(view) ==> KeepsObjects(view, expunged)
  {
    if DistinctOids(view) {
      forall expunged | expunged <= Numbers(view)
        ensures KeepsObjects(view, expunged)
      {
        forall q | q in Numbers(view) - expunged && OidOf(view, q).Some?
          ensures !Removed(view, expunged, OidOf(view, q).value)
        {
          RemainingKeepObjects(view, expunged, q);
        }
      }
    } else {
      var p, q :| Present(view, p) && Present(view, q) && OidOf(view, p).Some? && OidOf(view, p) == OidOf(view, q)
          && p != q;
      assert p in {p} && OidOf(view, p) == Some(OidOf(view, q).value);
      assert Removed(view, {p}, OidOf(view, q).value) && q in Numbers(view) - {p};
      assert {p} <= Numbers(view) && !KeepsObjects(view, {p});
    }
  }

  /** No object that a remaining record names is removed. */
  ghost predicate KeepsObjects(view: View, expunged: set<nat>) {
    forall q :: q in Numbers(view) - expunged && OidOf(view, q).Some? ==> !Removed(view, expunged, OidOf(view, q).value)
  }
}
