/**
 The rebuild and the save protocol: the protocol's rebuild event, whose effect is given by its parameters, is what the
 rebuild does to the attributes, the indexes and the recovery index.
 */
module RebuildBridge {
  import opened Rados
  import opened RecoveryIndex
  import P = SaveProtocol
  import opened Rebuild
  import opened RebuildPasses

  // ----- from attributes to the objects of the protocol -----

  /** All attributes that the metadata operation of a save writes are there and valid. */
  predicate Saved(a: Attrs) {
    && Numeric(a, RECEIVED_TIME) && Numeric(a, PHYSICAL_SIZE) && Numeric(a, VIRTUAL_SIZE)
    && NumericOptional(a, FLAGS) && NumericOptional(a, PVT_FLAGS)
    && MAILBOX_GUID in a && MAIL_GUID in a
  }

  function Abstract(bytes: seq<byte>, a: Attrs): Object {
    Object(bytes, Saved(a), if MAILBOX_GUID in a then a[MAILBOX_GUID] else "",
           if Numeric(a, MAIL_UID) then Some(Value(a[MAIL_UID])) else None)
  }

  /** Valid metadata means the same in both models. */
  lemma SameValid(bytes: seq<byte>, a: Attrs)
    ensures P.Valid(Abstract(bytes, a)) <==> Validate(a)
  {
  }

  function Store(objects: map<Oid, Attrs>, data: map<Oid, seq<byte>>): map<Oid, Object> {
    map o | o in objects :: Abstract(if o in data then data[o] else [], objects[o])
  }

  lemma SameLoaded(objects: map<Oid, Attrs>, data: map<Oid, seq<byte>>, list: set<Oid>)
    ensures P.Loaded(Store(objects, data), list) == Mails(objects, list)
  {
    forall o
      ensures o in P.Loaded(Store(objects, data), list) <==> o in Mails(objects, list)
    {
      if o in objects { SameValid(if o in data then data[o] else [], objects[o]); }
    }
  }

  // ----- from indexes to the records of the protocol -----

  function BoxRecords(g: BoxId, es: seq<Entry>): seq<P.Record> {
    seq(|es|, i requires 0 <= i < |es| => P.Record(g, es[i].uid, es[i].oid))
  }

  /** The records of the mailboxes, one mailbox after the other. */
  function AllRecords(indexes: map<BoxId, MailIndex>, boxes: seq<BoxId>): seq<P.Record>
    requires forall g :: g in boxes ==> g in indexes
  {
    if boxes == [] then []
    else
      var g := boxes[|boxes| - 1];
      AllRecords(indexes, boxes[..|boxes| - 1]) + BoxRecords(g, indexes[g].entries)
  }

  function NextUids(indexes: map<BoxId, MailIndex>): map<BoxId, nat> { map g | g in indexes :: FirstUid(indexes[g]) }

  ghost predicate RecordOf(indexes: map<BoxId, MailIndex>, r: P.Record) {
    r.box in indexes && Entry(r.uid, r.oid) in indexes[r.box].entries
  }

  lemma BoxRecordsIff(g: BoxId, es: seq<Entry>, r: P.Record)
    ensures r in BoxRecords(g, es) <==> r.box == g && Entry(r.uid, r.oid) in es
  {
    var rs := BoxRecords(g, es);
    if r in rs {
      var i :| 0 <= i < |rs| && rs[i] == r;
      assert es[i] == Entry(r.uid, r.oid);
    }
    if r.box == g && Entry(r.uid, r.oid) in es {
      var i :| 0 <= i < |es| && es[i] == Entry(r.uid, r.oid);
      assert rs[i] == r;
    }
  }

  lemma {:induction false} AllRecordsIff(indexes: map<BoxId, MailIndex>, boxes: seq<BoxId>, r: P.Record)
    requires forall g :: g in boxes ==> g in indexes
    ensures r in AllRecords(indexes, boxes) <==> r.box in boxes && RecordOf(indexes, r)
  {
    if boxes != [] {
      var n := |boxes| - 1;
      AllRecordsIff(indexes, boxes[..n], r);
      BoxRecordsIff(boxes[n], indexes[boxes[n]].entries, r);
      assert boxes == boxes[..n] + [boxes[n]];
    }
  }

  /** Within one mailbox: distinct oids, ascending UIDs, all below the next one. */
  ghost predicate IndexOk(i: MailIndex) {
    && (forall a, b :: 0 <= a < b < |i.entries| ==>
          i.entries[a].oid != i.entries[b].oid && i.entries[a].uid < i.entries[b].uid)
    && (forall a :: 0 <= a < |i.entries| ==> i.entries[a].uid < FirstUid(i))
  }

  ghost predicate VisitedRecord(indexes: map<BoxId, MailIndex>, boxes: seq<BoxId>, r: P.Record) {
    RecordOf(indexes, r) && r.box in boxes
  }

  ghost predicate DisjointBoxes(indexes: map<BoxId, MailIndex>, boxes: seq<BoxId>) {
    forall r, r' :: VisitedRecord(indexes, boxes, r) && VisitedRecord(indexes, boxes, r') && r.oid == r'.oid ==>
      r.box == r'.box
  }

  lemma {:induction false} AllRecordsOk(indexes: map<BoxId, MailIndex>, boxes: seq<BoxId>)
    requires Distinct(boxes) && (forall g :: g in boxes ==> g in indexes && IndexOk(indexes[g]))
    requires DisjointBoxes(indexes, boxes)
    ensures P.RecordsOk(AllRecords(indexes, boxes), NextUids(indexes))
  {
    if boxes != [] {
      var n := |boxes| - 1;
      var g := boxes[n];
      FewerBoxes(indexes, boxes);
      AllRecordsOk(indexes, boxes[..n]);
      var front, back := AllRecords(indexes, boxes[..n]), BoxRecords(g, indexes[g].entries);
      forall i, j | 0 <= i < |front| && 0 <= j < |back|
        ensures front[i].box != back[j].box && front[i].oid != back[j].oid
      {
        AllRecordsIff(indexes, boxes[..n], front[i]);
        BoxRecordsIff(g, indexes[g].entries, back[j]);
        assert RecordOf(indexes, front[i]) && RecordOf(indexes, back[j]);
      }
      JoinedOk(front, back, NextUids(indexes));
    }
  }

  lemma FewerBoxes(indexes: map<BoxId, MailIndex>, boxes: seq<BoxId>)
    requires boxes != [] && DisjointBoxes(indexes, boxes) && Distinct(boxes)
    ensures var n := |boxes| - 1;
            DisjointBoxes(indexes, boxes[..n]) && Distinct(boxes[..n]) && boxes[n] !in boxes[..n]
  {
  }

  lemma JoinedOk(front: seq<P.Record>, back: seq<P.Record>, nextUid: map<BoxId, nat>)
    requires P.RecordsOk(front, nextUid) && P.RecordsOk(back, nextUid)
    requires forall i, j :: 0 <= i < |front| && 0 <= j < |back| ==>
               front[i].box != back[j].box && front[i].oid != back[j].oid
    ensures P.RecordsOk(front + back, nextUid)
  {
  }

  lemma RecordIsOk(objects: map<Oid, Attrs>, valid: set<Oid>, indexes: map<BoxId, MailIndex>, boxes: seq<BoxId>,
                   r: P.Record)
    requires Complete(objects, valid, indexes, boxes) && RecordOf(indexes, r) && r.box in boxes
    ensures r.oid in valid && RecordOk(objects, r.box, Entry(r.uid, r.oid))
  {
    var es := indexes[r.box].entries;
    assert IndexComplete(objects, valid, r.box, es);
    var i :| 0 <= i < |es| && es[i] == Entry(r.uid, r.oid);
  }

  lemma RebuiltIndexes(objects: map<Oid, Attrs>, valid: set<Oid>, before: map<BoxId, MailIndex>,
                       indexes: map<BoxId, MailIndex>, boxes: seq<BoxId>)
    requires Complete(objects, valid, indexes, boxes) && AllUidsOk(before, indexes, boxes)
    ensures forall g :: g in boxes ==> g in indexes && IndexOk(indexes[g])
    ensures DisjointBoxes(indexes, boxes)
  {
    forall g | g in boxes
      ensures g in indexes && IndexOk(indexes[g])
    {
      assert UidsOk(before[g], indexes[g]) && IndexComplete(objects, valid, g, indexes[g].entries);
    }
    forall r | RecordOf(indexes, r) && r.box in boxes
      ensures r.oid in objects && MAILBOX_GUID in objects[r.oid] && objects[r.oid][MAILBOX_GUID] == r.box
    {
      RecordIsOk(objects, valid, indexes, boxes, r);
    }
  }

  lemma NamedByRecord(objects: map<Oid, Attrs>, valid: set<Oid>, indexes: map<BoxId, MailIndex>, boxes: seq<BoxId>,
                      o: Oid)
    requires Complete(objects, valid, indexes, boxes)
    ensures o in valid <==> exists r :: r in AllRecords(indexes, boxes) && r.oid == o
  {
    if o in valid {
      assert HasRecord(objects, indexes, boxes, o);
      var g := objects[o][MAILBOX_GUID];
      var es := indexes[g].entries;
      var i :| 0 <= i < |es| && es[i].oid == o;
      var r := P.Record(g, es[i].uid, o);
      assert es[i] == Entry(r.uid, r.oid);
      AllRecordsIff(indexes, boxes, r);
    }
    if r :| r in AllRecords(indexes, boxes) && r.oid == o {
      AllRecordsIff(indexes, boxes, r);
      RecordIsOk(objects, valid, indexes, boxes, r);
    }
  }

  /** The records of the visited mailboxes have distinct oids and ascending UIDs, and name exactly the valid objects. */
  lemma RebuiltRecords(objects: map<Oid, Attrs>, valid: set<Oid>, before: map<BoxId, MailIndex>,
                       indexes: map<BoxId, MailIndex>, boxes: seq<BoxId>)
    requires Complete(objects, valid, indexes, boxes) && AllUidsOk(before, indexes, boxes) && Distinct(boxes)
    ensures (forall g :: g in boxes ==> g in indexes) && P.RecordsOk(AllRecords(indexes, boxes), NextUids(indexes))
    ensures forall o :: o in valid <==> exists r :: r in AllRecords(indexes, boxes) && r.oid == o
    ensures forall r :: r in AllRecords(indexes, boxes) ==> r.oid in valid
  {
    RebuiltIndexes(objects, valid, before, indexes, boxes);
    AllRecordsOk(indexes, boxes);
    forall o
      ensures o in valid <==> exists r :: r in AllRecords(indexes, boxes) && r.oid == o
    {
      NamedByRecord(objects, valid, indexes, boxes, o);
    }
  }

  // ----- the rebuild is a step of the protocol -----

  /** The stores of the rebuild are those of a world of the protocol, up to what the abstraction forgets. */
  ghost predicate Represents(w: P.World, s: Stores, data: map<Oid, seq<byte>>) {
    && w.db.store == Store(s.objects, data)
    && w.index == s.text
    && (forall g :: P.NextUid(w.db.nextUid, g) == P.NextUid(NextUids(s.indexes), g))
    && forall r :: r in w.db.records <==> RecordOf(s.indexes, r)
  }

  lemma NextUidsGrow(before: map<BoxId, MailIndex>, after: map<BoxId, MailIndex>, boxes: seq<BoxId>)
    requires AllUidsOk(before, after, boxes)
    ensures forall g :: P.NextUid(NextUids(before), g) <= P.NextUid(NextUids(after), g)
  {
    forall g | g in before
      ensures FirstUid(before[g]) <= FirstUid(after[g])
    {
      if g in boxes { assert UidsOk(before[g], after[g]); }
    }
  }

  /** What the rebuild did to one object is what the protocol's step does to it. */
  lemma ObjectReassigned(objects: map<Oid, Attrs>, objects': map<Oid, Attrs>, valid: set<Oid>, data: map<Oid,
                         seq<byte>>,
                         indexes: map<BoxId, MailIndex>, boxes: seq<BoxId>, inbox: Option<BoxId>, o: Oid)
    requires Complete(objects', valid, indexes, boxes) && Homes(objects, objects', valid, boxes, inbox) && o in objects
    ensures o in objects' && Store(objects', data)[o] ==
            match P.Lookup(AllRecords(indexes, boxes), o)
            case Some(r) => Store(objects, data)[o].(uid := Some(r.uid), box := r.box)
            case None => Store(objects, data)[o]
  {
    NamedByRecord(objects', valid, indexes, boxes, o);
    var found := P.Lookup(AllRecords(indexes, boxes), o);
    if found.Some? {
      AllRecordsIff(indexes, boxes, found.value);
      RecordIsOk(objects', valid, indexes, boxes, found.value);
      DecimalRoundTrip(found.value.uid);
      assert HomeOk(objects[o], objects'[o], boxes, inbox);
    }
  }

  lemma StoreReassigned(objects: map<Oid, Attrs>, objects': map<Oid, Attrs>, valid: set<Oid>, data: map<Oid, seq<byte>>,
                        indexes: map<BoxId, MailIndex>, boxes: seq<BoxId>, inbox: Option<BoxId>)
    requires Complete(objects', valid, indexes, boxes) && Homes(objects, objects', valid, boxes, inbox)
    ensures P.Reassigned(Store(objects, data), AllRecords(indexes, boxes)) == Store(objects', data)
  {
    forall o | o in objects
      ensures P.Reassigned(Store(objects, data), AllRecords(indexes, boxes))[o] == Store(objects', data)[o]
    {
      ObjectReassigned(objects, objects', valid, data, indexes, boxes, inbox, o);
    }
  }

  /** The event that stands for a rebuild with the given outcome. */
  function RebuildEvent(s: Stores, boxes: seq<BoxId>): P.Event
    requires forall g :: g in boxes ==> g in s.indexes
  {
    P.Rebuild(s.text, AllRecords(s.indexes, boxes), NextUids(s.indexes))
  }

  /**
   A rebuild by search method 2 that visits every mailbox and restores every mail is a step of the protocol: its
   guard holds, and its stores are those the rebuild leaves.
   */
  lemma RebuildIsProtocolStep(w: P.World, before: Stores, after: Stores, data: map<Oid, seq<byte>>, boxes: seq<BoxId>,
                              inbox: Option<BoxId>)
    requires Represents(w, before, data) && w.sessions == map[]
    requires Distinct(boxes) && forall g :: g in before.indexes ==> g in boxes
    requires var valid := FoundBy(true, before.objects, before.text);
             && Rebuilt(before.objects, after.objects, valid, before.indexes, after.indexes, boxes, inbox)
             && TextAfter(true, true, valid, before.text, after.text)
    ensures (forall g :: g in boxes ==> g in after.indexes) && P.Enabled(w, RebuildEvent(after, boxes))
    ensures Represents(P.Step(w, RebuildEvent(after, boxes)), after, data)
  {
    var valid := FoundBy(true, before.objects, before.text);
    SameLoaded(before.objects, data, OidSet(before.text));
    RebuiltRecords(after.objects, valid, before.indexes, after.indexes, boxes);
    NextUidsGrow(before.indexes, after.indexes, boxes);
    forall g | g in w.db.nextUid
      ensures w.db.nextUid[g] <= P.NextUid(NextUids(after.indexes), g)
    {
      assert P.NextUid(w.db.nextUid, g) == P.NextUid(NextUids(before.indexes), g);
    }
    StoreReassigned(before.objects, after.objects, valid, data, after.indexes, boxes, inbox);
    forall r
      ensures r in AllRecords(after.indexes, boxes) <==> RecordOf(after.indexes, r)
    {
      AllRecordsIff(after.indexes, boxes, r);
    }
  }

  // ----- every rebuild is a step -----

  /** Of the world: objects have owners, and records name known oids that were given a UID. */
  ghost predicate Known(w: P.World) {
    && (forall o :: o in w.db.store ==> o in w.db.owner)
    && (forall r :: r in w.db.records ==>
          r.oid in w.db.owner && (r.oid in w.db.store ==> w.db.store[r.oid].uid.Some?))
  }

  /** `order` lists all mailboxes. */
  ghost predicate Lists(order: seq<BoxId>, indexes: map<BoxId, MailIndex>) { forall g :: g in order <==> g in indexes }

  /** The event that stands for a rebuild, however it ended. */
  function RepairEvent(s: Stores, data: map<Oid, seq<byte>>, order: seq<BoxId>): P.Event
    requires forall g :: g in order ==> g in s.indexes
  {
    P.Repair(Store(s.objects, data), s.text, AllRecords(s.indexes, order), NextUids(s.indexes))
  }

  lemma RehomedObject(bytes: seq<byte>, a: Attrs, a': Attrs)
    requires RehomedOk(a, a')
    ensures var o, o' := Abstract(bytes, a), Abstract(bytes, a');
            o'.data == o.data && o'.meta == o.meta && o'.uid.Some? && o.uid.Some?
  {
  }

  lemma RehomedStore(objects: map<Oid, Attrs>, objects': map<Oid, Attrs>, valid: set<Oid>, data: map<Oid, seq<byte>>)
    requires Rehomed(objects, objects', valid)
    ensures P.SameMails(Store(objects, data), Store(objects', data))
  {
    forall o | o in objects && o in valid
      ensures var x, x' := Store(objects, data)[o], Store(objects', data)[o];
              x'.data == x.data && x'.meta == x.meta && x'.uid.Some? == x.uid.Some?
    {
      RehomedObject(if o in data then data[o] else [], objects[o], objects'[o]);
    }
  }

  lemma RecordKnown(w: P.World, before: Stores, after: Stores, data: map<Oid, seq<byte>>, valid: set<Oid>, r: P.Record)
    requires Represents(w, before, data) && Known(w) && RecordOf(after.indexes, r)
    requires IndexesKept(before.indexes, after.indexes, valid) && Rehomed(before.objects, after.objects, valid)
    requires ValidIn(before.objects, valid)
    ensures r.oid in w.db.owner
    ensures var store := Store(after.objects, data); r.oid in store ==> store[r.oid].uid.Some?
  {
    RehomedStore(before.objects, after.objects, valid, data);
    assert IndexKept(before.indexes[r.box], after.indexes[r.box], valid);
    if RecordOf(before.indexes, r) {
      assert r in w.db.records;
    } else {
      var es := after.indexes[r.box].entries;
      var i :| 0 <= i < |es| && es[i] == Entry(r.uid, r.oid);
      assert RehomedOk(before.objects[r.oid], after.objects[r.oid]);
    }
  }

  /**
   A rebuild by search method 2 of any mailboxes, with any mails that cannot be converted and with or without INBOX, is
   a step of the protocol, and leaves a represented world again.
   */
  lemma AnyRebuildIsStep(w: P.World, before: Stores, after: Stores, data: map<Oid, seq<byte>>, order: seq<BoxId>)
    requires Represents(w, before, data) && Known(w) && w.sessions == map[] && Lists(order, after.indexes)
    requires var valid := FoundBy(true, before.objects, before.text);
             && AtMost(before.objects, after.objects, before.indexes, after.indexes, valid)
             && TextAfter(true, true, valid, before.text, after.text)
    ensures P.Enabled(w, RepairEvent(after, data, order))
    ensures Represents(P.Step(w, RepairEvent(after, data, order)), after, data)
  {
    var valid := FoundBy(true, before.objects, before.text);
    SameLoaded(before.objects, data, OidSet(before.text));
    RehomedStore(before.objects, after.objects, valid, data);
    forall r
      ensures r in AllRecords(after.indexes, order) <==> RecordOf(after.indexes, r)
    {
      AllRecordsIff(after.indexes, order, r);
    }
    forall r | r in AllRecords(after.indexes, order)
      ensures r.oid in w.db.owner
      ensures var store := Store(after.objects, data); r.oid in store ==> store[r.oid].uid.Some?
    {
      RecordKnown(w, before, after, data, valid, r);
    }
  }

  /** The two ways to find the mails agree. */
  ghost predicate Agree(s: Stores, data: map<Oid, seq<byte>>) {
    var store := Store(s.objects, data);
    P.Loaded(store, OidSet(s.text)) == P.Loaded(store, store.Keys)
  }

  /** Whatever becomes of a rebuild, the recovery index and a listing go on finding the same mails. */
  lemma AgreementSurvives(before: Stores, after: Stores, data: map<Oid, seq<byte>>)
    requires Agree(before, data) && SameValidity(before.objects, after.objects)
    requires after.text == before.text
               || TextAfter(true, true, FoundBy(true, before.objects, before.text), before.text, after.text)
    ensures Agree(after, data)
  {
    SameLoaded(before.objects, data, OidSet(before.text));
    SameLoaded(before.objects, data, before.objects.Keys);
    SameLoaded(after.objects, data, OidSet(after.text));
    SameLoaded(after.objects, data, after.objects.Keys);
    assert Store(before.objects, data).Keys == before.objects.Keys
        && Store(after.objects, data).Keys == after.objects.Keys;
    forall o
      ensures o in Mails(after.objects, OidSet(after.text)) <==> o in Mails(after.objects, after.objects.Keys)
    {
      assert o in Mails(before.objects, OidSet(before.text)) <==> o in Mails(before.objects, before.objects.Keys);
      if o in before.objects { assert Validate(after.objects[o]) <==> Validate(before.objects[o]); }
    }
  }

  /** Any forced rebuild by search method 2 of a world without open transactions that visits a mailbox at all. */
  method AnyForcedRebuild(s: Storage, nss: seq<seq<Box>>, validity: nat, ghost order: seq<BoxId>, ghost w: P.World,
                          ghost data: map<Oid, seq<byte>>)
    returns (ret: int, ghost w': P.World)
    requires s.byIndex && s.writable && validity != 0 && VisitedAll(nss) != [] && Lists(order, s.indexes)
    requires Distinct(VisitedAll(nss)) && forall g :: g in VisitedAll(nss) ==> g in s.indexes
    requires Represents(w, Stores(s.objects, s.indexes, s.text), data) && Known(w) && w.sessions == map[]
    modifies s
    ensures Lists(order, s.indexes) && P.Enabled(w, RepairEvent(Stores(s.objects, s.indexes, s.text), data, order))
    ensures w' == P.Step(w, RepairEvent(Stores(s.objects, s.indexes, s.text), data, order))
    ensures Represents(w', Stores(s.objects, s.indexes, s.text), data)
  {
    ghost var before := Stores(s.objects, s.indexes, s.text);
    ret := RebuildInContext(s, nss, validity, true);
    ghost var after := Stores(s.objects, s.indexes, s.text);
    AnyRebuildIsStep(w, before, after, data, order);
    w' := P.Step(w, RepairEvent(after, data, order));
  }

  /** A forced rebuild by search method 2 of a world without open transactions, with every mailbox visited. */
  method ForcedRebuild(s: Storage, nss: seq<seq<Box>>, validity: nat, ghost w: P.World, ghost data: map<Oid, seq<byte>>)
    returns (ret: int, ghost w': P.World)
    requires s.byIndex && s.writable && validity != 0 && VisitedAll(nss) != []
    requires Distinct(VisitedAll(nss)) && forall g :: g in s.indexes <==> g in VisitedAll(nss)
    requires Represents(w, Stores(s.objects, s.indexes, s.text), data) && w.sessions == map[]
    modifies s
    ensures Succeeds(s.conv, old(s.objects), FoundBy(true, old(s.objects), old(s.text)), VisitedAll(nss),
                     DefaultInbox(nss), true) ==>
              && ret == 0 && (forall g :: g in VisitedAll(nss) ==> g in s.indexes)
              && P.Enabled(w, RebuildEvent(Stores(s.objects, s.indexes, s.text), VisitedAll(nss)))
              && w' == P.Step(w, RebuildEvent(Stores(s.objects, s.indexes, s.text), VisitedAll(nss)))
              && Represents(w', Stores(s.objects, s.indexes, s.text), data)
    ensures Agree(Stores(old(s.objects), old(s.indexes), old(s.text)), data) ==>
              Agree(Stores(s.objects, s.indexes, s.text), data)
  {
    ghost var before := Stores(s.objects, s.indexes, s.text);
    ret := RebuildInContext(s, nss, validity, true);
    ghost var after := Stores(s.objects, s.indexes, s.text);
    w' := w;
    ghost var valid := FoundBy(true, before.objects, before.text);
    if Succeeds(s.conv, before.objects, valid, VisitedAll(nss), DefaultInbox(nss), true) {
      RebuildIsProtocolStep(w, before, after, data, VisitedAll(nss), DefaultInbox(nss));
      w' := P.Step(w, RebuildEvent(after, VisitedAll(nss)));
    }
    if Agree(before, data) { AgreementSurvives(before, after, data); }
  }
}
