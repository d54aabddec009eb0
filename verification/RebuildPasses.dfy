/** The whole forced rebuild: a pass over all mailboxes, the lost mails given to INBOX, and at most one more pass. */
module RebuildPasses {
  import opened Rados
  import opened RecoveryIndex
  import opened Rebuild

  type Convert = (Oid, string) -> bool

  // ----- what a rebuild is for -----

  /** The record is for an object of this mailbox, whose U attribute is the UID of the record. */
  ghost predicate RecordOk(objects: map<Oid, Attrs>, g: BoxId, e: Entry) {
    && e.oid in objects && Validate(objects[e.oid])
    && objects[e.oid][MAILBOX_GUID] == g && objects[e.oid][MAIL_UID] == Decimal(e.uid)
  }

  /** The valid objects and the records of the mailboxes correspond one to one. */
  ghost predicate Complete(objects: map<Oid, Attrs>, valid: set<Oid>, indexes: map<BoxId, MailIndex>,
                           boxes: seq<BoxId>) {
    && (forall g :: g in boxes ==> g in indexes && IndexComplete(objects, valid, g, indexes[g].entries))
    && (forall o :: o in valid ==> HasRecord(objects, indexes, boxes, o))
  }

  ghost predicate IndexComplete(objects: map<Oid, Attrs>, valid: set<Oid>, g: BoxId, es: seq<Entry>) {
    && (forall i :: 0 <= i < |es| ==> es[i].oid in valid && RecordOk(objects, g, es[i]))
    && (forall i, j :: 0 <= i < j < |es| ==> es[i].oid != es[j].oid)
  }

  ghost predicate HasRecord(objects: map<Oid, Attrs>, indexes: map<BoxId, MailIndex>, boxes: seq<BoxId>, o: Oid) {
    && o in objects && Validate(objects[o])
    && var g := objects[o][MAILBOX_GUID]; g in boxes && g in indexes && Named(indexes[g].entries, o)
  }

  function Home(g: BoxId, boxes: seq<BoxId>, inbox: Option<BoxId>): BoxId {
    if g in boxes || inbox.None? then g else inbox.value
  }

  /** Apart from U, valid objects change only in that lost ones belong to INBOX; the others do not change at all. */
  ghost predicate Homes(objects: map<Oid, Attrs>, objects': map<Oid, Attrs>, valid: set<Oid>, boxes: seq<BoxId>,
                        inbox: Option<BoxId>)
  {
    && objects'.Keys == objects.Keys
    && forall o :: o in objects ==> if o in valid then HomeOk(objects[o], objects'[o], boxes, inbox)
        else objects'[o] == objects[o]
  }

  ghost predicate HomeOk(a: Attrs, a': Attrs, boxes: seq<BoxId>, inbox: Option<BoxId>) {
    && Validate(a) && Validate(a')
    && a' == a[MAILBOX_GUID := Home(a[MAILBOX_GUID], boxes, inbox)][MAIL_UID := a'[MAIL_UID]]
  }

  /** Whatever becomes of a rebuild, no object appears, disappears, or becomes valid or invalid. */
  ghost predicate SameValidity(objects: map<Oid, Attrs>, objects': map<Oid, Attrs>) {
    objects'.Keys == objects.Keys && forall o :: o in objects ==> (Validate(objects'[o]) <==> Validate(objects[o]))
  }

  /** Only the mailbox and the UID of valid objects may differ. */
  ghost predicate Rehomed(objects: map<Oid, Attrs>, objects': map<Oid, Attrs>, valid: set<Oid>) {
    && objects'.Keys == objects.Keys
    && forall o :: o in objects ==> if o in valid then RehomedOk(objects[o], objects'[o]) else objects'[o] == objects[o]
  }

  ghost predicate RehomedOk(a: Attrs, a': Attrs) {
    && Validate(a) && Validate(a')
    && a' == a[MAILBOX_GUID := a'[MAILBOX_GUID]][MAIL_UID := a'[MAIL_UID]]
  }

  /** Every index has the records it had, or records of valid objects only, and no next UID goes back. */
  ghost predicate IndexesKept(indexes: map<BoxId, MailIndex>, indexes': map<BoxId, MailIndex>, valid: set<Oid>) {
    indexes'.Keys == indexes.Keys && forall g :: g in indexes ==> IndexKept(indexes[g], indexes'[g], valid)
  }

  ghost predicate IndexKept(before: MailIndex, after: MailIndex, valid: set<Oid>) {
    && (after.entries == before.entries || forall i :: 0 <= i < |after.entries| ==> after.entries[i].oid in valid)
    && Max(1, before.nextUid) <= Max(1, after.nextUid)
  }

  /** What a rebuild changes at most, however it ends. */
  ghost predicate AtMost(objects: map<Oid, Attrs>, objects': map<Oid, Attrs>, indexes: map<BoxId, MailIndex>,
                         indexes': map<BoxId, MailIndex>, valid: set<Oid>)
  {
    SameValidity(objects, objects') && Rehomed(objects, objects', valid) && IndexesKept(indexes, indexes', valid)
  }

  /** Section 2.3.1.1 of RFC 3501: consecutive UIDs up to the next one, none used before, and a UIDVALIDITY that
      stays. */
  ghost predicate UidsOk(before: MailIndex, after: MailIndex) {
    && (forall i :: 0 <= i < |after.entries| ==> Max(1, before.nextUid) <= after.entries[i].uid < after.nextUid)
    && (forall i :: 0 <= i < |after.entries| ==> after.entries[i].uid == after.nextUid - |after.entries| + i)
    && before.nextUid <= after.nextUid
    && after.uidValidity != 0 && (before.uidValidity != 0 ==> after.uidValidity == before.uidValidity)
  }

  /** A rebuild in one pass numbers the mails of a mailbox from its next UID on. */
  ghost predicate FromNext(before: map<BoxId, MailIndex>, after: map<BoxId, MailIndex>, boxes: seq<BoxId>) {
    forall g, i :: g in boxes && g in before && g in after && 0 <= i < |after[g].entries| ==>
      after[g].entries[i].uid == (if before[g].nextUid == 0 then 1 else before[g].nextUid) + i
  }

  ghost predicate AllUidsOk(before: map<BoxId, MailIndex>, after: map<BoxId, MailIndex>, boxes: seq<BoxId>) {
    && after.Keys == before.Keys
    && (forall g :: g in boxes ==> g in before && UidsOk(before[g], after[g]))
    && (forall g :: g in before && g !in boxes ==> after[g] == before[g])
  }

  /** When a rebuild brings every valid object into an index. */
  ghost predicate Succeeds(conv: Convert, objects: map<Oid, Attrs>, valid: set<Oid>, boxes: seq<BoxId>,
                           inbox: Option<BoxId>, firstTry: bool)
  {
    && AllConvert(conv, objects, valid)
    && (AllHome(objects, valid, boxes) || (firstTry && inbox.Some? && inbox.value in boxes))
  }

  ghost predicate Rebuilt(objects: map<Oid, Attrs>, objects': map<Oid, Attrs>, valid: set<Oid>, indexes: map<BoxId,
                          MailIndex>,
                          indexes': map<BoxId, MailIndex>, boxes: seq<BoxId>, inbox: Option<BoxId>)
  {
    && Complete(objects', valid, indexes', boxes)
    && Homes(objects, objects', valid, boxes, inbox)
    && AllUidsOk(indexes, indexes', boxes)
  }

  // ----- one pass -----

  /** A pass loads each valid object once. */
  lemma LoadedAreValid(conv: Convert, p: Pass, mails: Groups, done: seq<BoxId>)
    requires Loaded(p) && FlagsOk(conv, p, mails, done)
    ensures forall o :: InGroups(mails, mails.Keys, o) <==> o in p.valid
  {
    FlaggedDisjoint(conv, p, mails, done);
    forall o | o in p.valid
      ensures InGroups(mails, mails.Keys, o)
    {
      var g := p.objects[o][MAILBOX_GUID];
      var i :| 0 <= i < |p.mails[g]| && p.mails[g][i].oid == o;
      assert mails[g][i].oid == o;
      assert Holds(mails[g], o);
    }
  }

  /** What the totals of a pass count. */
  lemma PassCounts(conv: Convert, p: Pass, mails: Groups, done: seq<BoxId>)
    requires Loaded(p) && FlagsOk(conv, p, mails, done)
    ensures Disjoint(mails) && forall o :: InGroups(mails, mails.Keys, o) <==> o in p.valid
    ensures AllRestored(mails) <==> AllConvert(conv, p.objects, p.valid) && AllHome(p.objects, p.valid, done)
  {
    FlaggedDisjoint(conv, p, mails, done);
    LoadedAreValid(conv, p, mails, done);
    AllRestoredIff(conv, p, mails, done);
  }

  /** All namespaces, then the two totals. */
  method RepairAndCount(s: Storage, nss: seq<seq<Box>>, validity: nat)
    returns (mails: Groups, homed: nat, stray: nat, ghost p: Pass)
    requires Distinct(VisitedAll(nss)) && (forall g :: g in VisitedAll(nss) ==> g in s.indexes) && validity != 0
    modifies s
    ensures p.objects == old(s.objects) && p.indexes == old(s.indexes) && p.text == old(s.text)
    ensures TextOk(s.byIndex, s.writable, p, s.text, VisitedAll(nss) != [])
    ensures VisitedAll(nss) == [] ==> s.objects == p.objects && s.indexes == p.indexes && stray == 0
    ensures VisitedAll(nss) != [] ==>
              && Loaded(p) && PassOk(s.conv, p, s.objects, s.indexes, mails, VisitedAll(nss)) && Disjoint(mails)
              && homed + stray == |p.valid|
              && (stray == 0 <==>
                  AllConvert(s.conv, p.objects, p.valid) && AllHome(p.objects, p.valid, VisitedAll(nss)))
  {
    mails, p := RepairAll(s, nss, validity);
    ghost var counted;
    if VisitedAll(nss) != [] { PassCounts(s.conv, p, mails, VisitedAll(nss)); }
    homed, stray, counted := CountMails(mails);
    if VisitedAll(nss) != [] { assert counted == p.valid; }
  }

  method RepairAll(s: Storage, nss: seq<seq<Box>>, validity: nat) returns (mails: Groups, ghost p: Pass)
    requires Distinct(VisitedAll(nss)) && (forall g :: g in VisitedAll(nss) ==> g in s.indexes) && validity != 0
    modifies s
    ensures p.objects == old(s.objects) && p.indexes == old(s.indexes) && p.text == old(s.text)
    ensures s.During(p, mails, VisitedAll(nss))
  {
    mails := map[];
    p := Pass(s.objects, s.indexes, s.text, Mails(s.objects, Search(s.byIndex, s.objects, s.text)), map[]);
    ghost var done: seq<BoxId> := [];
    var i := 0;
    while i < |nss|
      invariant i <= |nss| && done + VisitedAll(nss[i..]) == VisitedAll(nss)
      invariant p.objects == old(s.objects) && p.indexes == old(s.indexes) && p.text == old(s.text)
      invariant s.During(p, mails, done)
      invariant s.indexes.Keys == old(s.indexes.Keys)
    {
      assert nss[i..][1..] == nss[i + 1..];
      OneNamespace(done, Visited(nss[i]), VisitedAll(nss[i + 1..]), VisitedAll(nss));
      mails, p, done := s.RepairNamespace(nss[i], mails, validity, p, done);
      i := i + 1;
    }
    assert done == VisitedAll(nss);
  }

  lemma OneNamespace(done: seq<BoxId>, now: seq<BoxId>, rest: seq<BoxId>, all: seq<BoxId>)
    requires done + (now + rest) == all && Distinct(all)
    ensures Distinct(done + now) && forall g :: g in done + now ==> g in all
    ensures done + now + rest == all
  {
    assert done + now == all[..|done + now|];
  }

  /** With every mail convertible, each visited mailbox is rebuilt. */
  lemma PassUids(conv: Convert, p: Pass, indexes: map<BoxId, MailIndex>, done: seq<BoxId>)
    requires Loaded(p) && IndexesOk(conv, p, indexes, done) && AllConvert(conv, p.objects, p.valid)
    ensures AllUidsOk(p.indexes, indexes, done) && FromNext(p.indexes, indexes, done)
  {
    forall g | g in done
      ensures UidsOk(p.indexes[g], indexes[g])
    {
      NoneBad(conv, p, g);
      assert BoxOk(conv, p.indexes[g], indexes[g], Group(p.mails, g));
    }
  }

  lemma NoneBad(conv: Convert, p: Pass, g: BoxId)
    requires Loaded(p) && AllConvert(conv, p.objects, p.valid)
    ensures FirstBad(conv, Group(p.mails, g)) == |Group(p.mails, g)|
  {
    var ms := Group(p.mails, g);
    forall i | 0 <= i < |ms|
      ensures Converts(conv, ms[i])
    {
      assert GroupOk(p.objects, g, ms);
    }
  }

  lemma EntryRebuilt(conv: Convert, p: Pass, indexes: map<BoxId, MailIndex>, done: seq<BoxId>, g: BoxId, i: nat)
    requires Loaded(p) && IndexesOk(conv, p, indexes, done) && AllConvert(conv, p.objects, p.valid)
    requires g in p.mails && i < |p.mails[g]| && g in done
    ensures g in p.indexes && g in indexes && |indexes[g].entries| == |p.mails[g]|
    ensures indexes[g].entries[i] == Entry(FirstUid(p.indexes[g]) + i, p.mails[g][i].oid)
  {
    NoneBad(conv, p, g);
    assert BoxOk(conv, p.indexes[g], indexes[g], Group(p.mails, g));
    NumberedSize(FirstUid(p.indexes[g]), p.mails[g]);
  }

  lemma AttrsRebuilt(conv: Convert, p: Pass, now: map<Oid, Attrs>, done: seq<BoxId>, g: BoxId, i: nat)
    requires Loaded(p) && ObjectsOk(conv, p, now, done) && FirstBad(conv, Group(p.mails, g)) == |Group(p.mails, g)|
    requires g in p.mails && i < |p.mails[g]| && g in done && g in p.indexes
    ensures RecordOk(now, g, Entry(FirstUid(p.indexes[g]) + i, p.mails[g][i].oid))
  {
    assert GroupOk(p.objects, g, p.mails[g]);
    assert MailOk(conv, p, now, done, g, i);
    StaysValid(p.objects[p.mails[g][i].oid], FirstUid(p.indexes[g]) + i);
  }

  /** A UID does not change whether metadata is valid, nor anything else. */
  lemma StaysValid(a: Attrs, uid: nat)
    requires Validate(a)
    ensures var a' := a[MAIL_UID := Decimal(uid)];
            Validate(a') && a'[MAIL_UID] == Decimal(uid) && a'[MAILBOX_GUID] == a[MAILBOX_GUID]
  {
  }

  /** The records of a mailbox are those it had, or fit the objects they name. */
  ghost predicate RecordsFit(objects: map<Oid, Attrs>, g: BoxId, before: MailIndex, after: MailIndex) {
    after.entries == before.entries || forall i :: 0 <= i < |after.entries| ==> RecordOk(objects, g, after.entries[i])
  }

  lemma PassFits(conv: Convert, p: Pass, now: map<Oid, Attrs>, indexes: map<BoxId, MailIndex>, mails: Groups,
                 done: seq<BoxId>, g: BoxId)
    requires Loaded(p) && PassOk(conv, p, now, indexes, mails, done) && g in done
    ensures g in p.indexes && g in indexes && RecordsFit(now, g, p.indexes[g], indexes[g])
  {
    var ms := Group(p.mails, g);
    assert BoxOk(conv, p.indexes[g], indexes[g], ms);
    if FirstBad(conv, ms) == |ms| {
      NumberedSize(FirstUid(p.indexes[g]), ms);
      forall i | 0 <= i < |ms|
        ensures RecordOk(now, g, indexes[g].entries[i])
      {
        AttrsRebuilt(conv, p, now, done, g, i);
      }
    }
  }

  /** Every object belongs to the mailbox it belonged to or to INBOX. */
  ghost predicate Moved(objects: map<Oid, Attrs>, objects': map<Oid, Attrs>, inbox: Option<BoxId>) {
    forall o :: o in objects && 'M' in objects[o] ==>
      o in objects' && 'M' in objects'[o] && (objects'[o]['M'] == objects[o]['M'] || inbox == Some(objects'[o]['M']))
  }

  ghost predicate AllFit(objects: map<Oid, Attrs>, before: map<BoxId, MailIndex>, after: map<BoxId, MailIndex>,
                         boxes: seq<BoxId>)
  {
    forall g :: g in boxes ==> g in before && g in after && RecordsFit(objects, g, before[g], after[g])
  }

  lemma PassAllFits(conv: Convert, p: Pass, now: map<Oid, Attrs>, indexes: map<BoxId, MailIndex>, mails: Groups,
                    done: seq<BoxId>)
    requires Loaded(p) && PassOk(conv, p, now, indexes, mails, done)
    ensures AllFit(now, p.indexes, indexes, done) && Moved(p.objects, now, None)
  {
    forall o | o in p.objects && MAILBOX_GUID in p.objects[o]
      ensures o in now && MAILBOX_GUID in now[o] && now[o][MAILBOX_GUID] == p.objects[o][MAILBOX_GUID]
    {
      ValidAfterPass(conv, p, now, done, o);
    }
    forall g | g in done
      ensures g in p.indexes && g in indexes && RecordsFit(now, g, p.indexes[g], indexes[g])
    {
      PassFits(conv, p, now, indexes, mails, done, g);
    }
  }

  lemma MailRebuilt(conv: Convert, p: Pass, now: map<Oid, Attrs>, indexes: map<BoxId, MailIndex>, done: seq<BoxId>,
                    g: BoxId, i: nat)
    requires Loaded(p) && ObjectsOk(conv, p, now, done) && IndexesOk(conv, p, indexes, done)
    requires AllConvert(conv, p.objects, p.valid)
    requires g in p.mails && i < |p.mails[g]| && g in done
    ensures g in indexes && |indexes[g].entries| == |p.mails[g]| && indexes[g].entries[i].oid == p.mails[g][i].oid
    ensures RecordOk(now, g, indexes[g].entries[i])
  {
    EntryRebuilt(conv, p, indexes, done, g, i);
    NoneBad(conv, p, g);
    AttrsRebuilt(conv, p, now, done, g, i);
  }

  lemma EmptyBox(conv: Convert, p: Pass, indexes: map<BoxId, MailIndex>, done: seq<BoxId>, g: BoxId)
    requires IndexesOk(conv, p, indexes, done) && g in done && g !in p.mails
    ensures g in indexes && indexes[g].entries == []
  {
    assert BoxOk(conv, p.indexes[g], indexes[g], []);
  }

  lemma BoxComplete(conv: Convert, p: Pass, now: map<Oid, Attrs>, indexes: map<BoxId, MailIndex>, done: seq<BoxId>,
                    g: BoxId)
    requires Loaded(p) && ObjectsOk(conv, p, now, done) && IndexesOk(conv, p, indexes, done)
    requires AllConvert(conv, p.objects, p.valid) && g in done
    ensures g in indexes && IndexComplete(now, p.valid, g, indexes[g].entries)
  {
    if g !in p.mails {
      EmptyBox(conv, p, indexes, done, g);
    } else {
      MailRebuilt(conv, p, now, indexes, done, g, 0);
      forall i | 0 <= i < |p.mails[g]|
        ensures RecordOk(now, g, indexes[g].entries[i]) && indexes[g].entries[i].oid == p.mails[g][i].oid
      {
        MailRebuilt(conv, p, now, indexes, done, g, i);
      }
      assert GroupOk(p.objects, g, p.mails[g]);
    }
  }

  /** Where a loaded object is in the groups. */
  lemma Position(p: Pass, o: Oid) returns (g: BoxId, i: nat)
    requires Loaded(p) && o in p.valid
    ensures o in p.objects && Validate(p.objects[o]) && g == p.objects[o][MAILBOX_GUID]
    ensures g in p.mails && i < |p.mails[g]| && p.mails[g][i].oid == o
  {
    g := p.objects[o][MAILBOX_GUID];
    assert Holds(p.mails[g], o);
    i :| 0 <= i < |p.mails[g]| && p.mails[g][i].oid == o;
  }

  lemma ValidAfterPass(conv: Convert, p: Pass, now: map<Oid, Attrs>, done: seq<BoxId>, o: Oid)
    requires Loaded(p) && ObjectsOk(conv, p, now, done) && o in p.objects
    ensures o in now && (Validate(now[o]) <==> Validate(p.objects[o]))
    ensures if o in p.valid then Validate(now[o]) && now[o] == p.objects[o][MAIL_UID := now[o][MAIL_UID]]
            else now[o] == p.objects[o]
  {
    if o in p.valid {
      var g, i := Position(p, o);
      assert MailOk(conv, p, now, done, g, i);
      if g in p.indexes { StaysValid(p.objects[o], FirstUid(p.indexes[g]) + i); }
    }
  }

  /** A pass over objects that all convert and all have a home restores all of them. */
  lemma PassCompletes(conv: Convert, p: Pass, now: map<Oid, Attrs>, indexes: map<BoxId, MailIndex>, mails: Groups,
                      done: seq<BoxId>)
    requires Loaded(p) && PassOk(conv, p, now, indexes, mails, done)
    requires AllConvert(conv, p.objects, p.valid) && AllHome(p.objects, p.valid, done)
    ensures Complete(now, p.valid, indexes, done)
  {
    forall g | g in done
      ensures g in indexes && IndexComplete(now, p.valid, g, indexes[g].entries)
    {
      BoxComplete(conv, p, now, indexes, done, g);
    }
    forall o | o in p.valid
      ensures HasRecord(now, indexes, done, o)
    {
      ValidAfterPass(conv, p, now, done, o);
      var g, i := Position(p, o);
      MailRebuilt(conv, p, now, indexes, done, g, i);
    }
  }

  lemma PassHomes(conv: Convert, p: Pass, now: map<Oid, Attrs>, done: seq<BoxId>, inbox: Option<BoxId>)
    requires Loaded(p) && ObjectsOk(conv, p, now, done) && AllHome(p.objects, p.valid, done)
    ensures Homes(p.objects, now, p.valid, done, inbox)
  {
    forall o | o in p.objects
      ensures if o in p.valid then HomeOk(p.objects[o], now[o], done, inbox) else now[o] == p.objects[o]
    {
      ValidAfterPass(conv, p, now, done, o);
    }
  }

  lemma PassRehomes(conv: Convert, p: Pass, now: map<Oid, Attrs>, done: seq<BoxId>)
    requires Loaded(p) && ObjectsOk(conv, p, now, done)
    ensures SameValidity(p.objects, now) && Rehomed(p.objects, now, p.valid)
  {
    forall o | o in p.objects
      ensures Validate(now[o]) <==> Validate(p.objects[o])
      ensures if o in p.valid then RehomedOk(p.objects[o], now[o]) else now[o] == p.objects[o]
    {
      ValidAfterPass(conv, p, now, done, o);
    }
  }

  lemma PassIndexes(conv: Convert, p: Pass, indexes: map<BoxId, MailIndex>, done: seq<BoxId>)
    requires Loaded(p) && IndexesOk(conv, p, indexes, done)
    ensures IndexesKept(p.indexes, indexes, p.valid)
  {
    forall g | g in p.indexes
      ensures IndexKept(p.indexes[g], indexes[g], p.valid)
    {
      if g in done {
        var ms := Group(p.mails, g);
        assert BoxOk(conv, p.indexes[g], indexes[g], ms);
        NumberedSize(FirstUid(p.indexes[g]), ms);
        forall i | 0 <= i < |ms|
          ensures ms[i].oid in p.valid
        {
        }
      }
    }
  }

  lemma PassAtMost(conv: Convert, p: Pass, now: map<Oid, Attrs>, indexes: map<BoxId, MailIndex>, mails: Groups,
                   done: seq<BoxId>)
    requires Loaded(p) && PassOk(conv, p, now, indexes, mails, done)
    ensures AtMost(p.objects, now, p.indexes, indexes, p.valid)
  {
    PassRehomes(conv, p, now, done);
    PassIndexes(conv, p, indexes, done);
  }

  lemma NothingAtMost(objects: map<Oid, Attrs>, indexes: map<BoxId, MailIndex>, valid: set<Oid>)
    requires ValidIn(objects, valid)
    ensures AtMost(objects, objects, indexes, indexes, valid)
  {
    forall o | o in valid
      ensures RehomedOk(objects[o], objects[o])
    {
      var a := objects[o];
      assert a == a[MAILBOX_GUID := a[MAILBOX_GUID]][MAIL_UID := a[MAIL_UID]];
    }
  }

  lemma AtMostTwice(o0: map<Oid, Attrs>, o1: map<Oid, Attrs>, o2: map<Oid, Attrs>, i0: map<BoxId, MailIndex>,
                    i1: map<BoxId, MailIndex>, i2: map<BoxId, MailIndex>, valid: set<Oid>)
    requires AtMost(o0, o1, i0, i1, valid) && AtMost(o1, o2, i1, i2, valid)
    ensures AtMost(o0, o2, i0, i2, valid)
  {
    forall o | o in o0 && o in valid
      ensures RehomedOk(o0[o], o2[o])
    {
      assert RehomedOk(o0[o], o1[o]) && RehomedOk(o1[o], o2[o]);
    }
    forall g | g in i0
      ensures IndexKept(i0[g], i2[g], valid)
    {
      assert IndexKept(i0[g], i1[g], valid) && IndexKept(i1[g], i2[g], valid);
    }
  }

  // ----- between the passes -----

  lemma RestoredWhen(conv: Convert, p: Pass, mails: Groups, done: seq<BoxId>, g: BoxId, i: nat)
    requires Loaded(p) && FlagsOk(conv, p, mails, done) && g in p.mails && i < |p.mails[g]|
    ensures |mails[g]| == |p.mails[g]| && mails[g][i].oid == p.mails[g][i].oid
    ensures mails[g][i].restored ==> g in done
    ensures AllConvert(conv, p.objects, p.valid) && g in done ==> mails[g][i].restored
  {
    assert NoneRestored(p.mails[g]);
    assert Flagged(p.mails[g], mails[g], if g in done then FirstBad(conv, p.mails[g]) else 0);
    if AllConvert(conv, p.objects, p.valid) { NoneBad(conv, p, g); }
  }

  /** `a''` is `a` after a pass and after the lost mails were given away. */
  ghost predicate GivenOk(all: bool, a: Attrs, a'': Attrs, done: seq<BoxId>, inbox: BoxId) {
    && Validate(a) && Validate(a'')
    && a'' == a[MAILBOX_GUID := a''[MAILBOX_GUID]][MAIL_UID := a''[MAIL_UID]]
    && (a''[MAILBOX_GUID] == inbox || (a''[MAILBOX_GUID] == a[MAILBOX_GUID] && a''[MAILBOX_GUID] in done))
    && (all ==> a''[MAILBOX_GUID] == Home(a[MAILBOX_GUID], done, Some(inbox)))
  }

  lemma GivenAttrs(all: bool, a: Attrs, a': Attrs, restored: bool, done: seq<BoxId>, inbox: BoxId)
    requires Validate(a) && Validate(a') && a' == a[MAIL_UID := a'[MAIL_UID]]
    requires restored ==> a[MAILBOX_GUID] in done
    requires all && a[MAILBOX_GUID] in done ==> restored
    ensures GivenOk(all, a, Given(a', restored, inbox), done, inbox)
  {
  }

  /** What giving the lost mails to INBOX does to one valid object. */
  lemma GivenOne(conv: Convert, p: Pass, now: map<Oid, Attrs>, now': map<Oid, Attrs>, mails: Groups,
                 done: seq<BoxId>, inbox: BoxId, o: Oid)
    requires Loaded(p) && ObjectsOk(conv, p, now, done) && FlagsOk(conv, p, mails, done)
    requires GivenToInbox(now, now', mails, inbox) && o in p.valid
    ensures o in p.objects && o in now'
    ensures GivenOk(AllConvert(conv, p.objects, p.valid), p.objects[o], now'[o], done, inbox)
  {
    var g, i := Position(p, o);
    ValidAfterPass(conv, p, now, done, o);
    RestoredWhen(conv, p, mails, done, g, i);
    assert GroupGiven(now, now', mails[g], inbox);
    GivenAttrs(AllConvert(conv, p.objects, p.valid), p.objects[o], now[o], mails[g][i].restored, done, inbox);
  }

  lemma OthersNotGiven(conv: Convert, p: Pass, now: map<Oid, Attrs>, now': map<Oid, Attrs>, mails: Groups,
                       done: seq<BoxId>, inbox: BoxId, o: Oid)
    requires Loaded(p) && ObjectsOk(conv, p, now, done) && FlagsOk(conv, p, mails, done)
    requires GivenToInbox(now, now', mails, inbox) && o in p.objects && o !in p.valid
    ensures o in now' && now'[o] == p.objects[o]
  {
    LoadedAreValid(conv, p, mails, done);
    assert Untouched(now, now', o);
  }

  ghost predicate GivenAway(all: bool, objects: map<Oid, Attrs>, now: map<Oid, Attrs>, valid: set<Oid>,
                            done: seq<BoxId>, inbox: BoxId)
  {
    && now.Keys == objects.Keys && ValidIn(objects, valid)
    && forall o :: o in objects ==>
         if o in valid then GivenOk(all, objects[o], now[o], done, inbox) else now[o] == objects[o]
  }

  /** Whether mails can be converted does not change, and afterwards every mail is in a visited mailbox if INBOX is. */
  lemma AfterGiving(conv: Convert, p: Pass, now: map<Oid, Attrs>, now': map<Oid, Attrs>, mails: Groups,
                    done: seq<BoxId>, inbox: BoxId)
    requires Loaded(p) && ObjectsOk(conv, p, now, done) && FlagsOk(conv, p, mails, done)
    requires GivenToInbox(now, now', mails, inbox)
    ensures SameValidity(p.objects, now') && Rehomed(p.objects, now', p.valid)
    ensures Moved(p.objects, now', Some(inbox))
    ensures AllConvert(conv, now', p.valid) <==> AllConvert(conv, p.objects, p.valid)
    ensures inbox in done ==> AllHome(now', p.valid, done)
    ensures AllConvert(conv, p.objects, p.valid) ==> Homes(p.objects, now', p.valid, done, Some(inbox))
  {
    var all := AllConvert(conv, p.objects, p.valid);
    forall o | o in p.objects
      ensures o in now'
      ensures if o in p.valid then GivenOk(all, p.objects[o], now'[o], done, inbox) else now'[o] == p.objects[o]
    {
      if o in p.valid {
        GivenOne(conv, p, now, now', mails, done, inbox, o);
      } else {
        OthersNotGiven(conv, p, now, now', mails, done, inbox, o);
      }
    }
    GivenAll(conv, p.objects, now', p.valid, done, inbox);
  }

  lemma GivenAll(conv: Convert, objects: map<Oid, Attrs>, now: map<Oid, Attrs>, valid: set<Oid>, done: seq<BoxId>,
                 inbox: BoxId)
    requires GivenAway(AllConvert(conv, objects, valid), objects, now, valid, done, inbox)
    ensures SameValidity(objects, now) && Rehomed(objects, now, valid)
    ensures Moved(objects, now, Some(inbox))
    ensures AllConvert(conv, now, valid) <==> AllConvert(conv, objects, valid)
    ensures inbox in done ==> AllHome(now, valid, done)
    ensures AllConvert(conv, objects, valid) ==> Homes(objects, now, valid, done, Some(inbox))
  {
    forall o | o in valid
      ensures o in now && now[o][MAIL_GUID] == objects[o][MAIL_GUID]
    {
    }
    if AllConvert(conv, objects, valid) {
      forall o | o in objects && o in valid
        ensures HomeOk(objects[o], now[o], done, Some(inbox))
      {
      }
    }
  }

  /** An unvisited INBOX does not become a home. */
  lemma StillHomeless(objects: map<Oid, Attrs>, now: map<Oid, Attrs>, valid: set<Oid>, done: seq<BoxId>, inbox: BoxId)
    requires Homes(objects, now, valid, done, Some(inbox)) && inbox !in done
    ensures AllHome(now, valid, done) <==> AllHome(objects, valid, done)
  {
    forall o | o in objects && o in valid
      ensures Validate(now[o]) && Validate(objects[o])
      ensures now[o][MAILBOX_GUID] in done <==> objects[o][MAILBOX_GUID] in done
    {
      assert HomeOk(objects[o], now[o], done, Some(inbox));
    }
  }

  lemma HomesCompose(o0: map<Oid, Attrs>, o1: map<Oid, Attrs>, o2: map<Oid, Attrs>, valid: set<Oid>,
                     boxes: seq<BoxId>, inbox: BoxId)
    requires inbox in boxes && Homes(o0, o1, valid, boxes, Some(inbox)) && Homes(o1, o2, valid, boxes, Some(inbox))
    ensures Homes(o0, o2, valid, boxes, Some(inbox))
  {
    forall o | o in o0
      ensures if o in valid then HomeOk(o0[o], o2[o], boxes, Some(inbox)) else o2[o] == o0[o]
    {
      if o in valid {
        assert HomeOk(o0[o], o1[o], boxes, Some(inbox)) && HomeOk(o1[o], o2[o], boxes, Some(inbox));
      }
    }
  }

  lemma UidsCompose(i0: map<BoxId, MailIndex>, i1: map<BoxId, MailIndex>, i2: map<BoxId, MailIndex>,
                    boxes: seq<BoxId>)
    requires AllUidsOk(i0, i1, boxes) && AllUidsOk(i1, i2, boxes)
    ensures AllUidsOk(i0, i2, boxes)
  {
    forall g | g in boxes
      ensures UidsOk(i0[g], i2[g])
    {
      assert UidsOk(i0[g], i1[g]) && UidsOk(i1[g], i2[g]);
    }
  }

  /** No pass gives out a UID that an earlier one gave out. */
  lemma UidsNeverReused(i0: MailIndex, i1: MailIndex, i2: MailIndex, a: nat, b: nat)
    requires UidsOk(i0, i1) && UidsOk(i1, i2) && a < |i1.entries| && b < |i2.entries|
    ensures i1.entries[a].uid < i2.entries[b].uid
  {
  }

  /** The second search finds the same mails as the first. */
  lemma SearchedTwice(byIndex: bool, writable: bool, p: Pass, now: map<Oid, Attrs>, text: string)
    requires TextOk(byIndex, writable, p, text, true) && SameValidity(p.objects, now)
    ensures Mails(now, Search(byIndex, now, text)) == p.valid
  {
    var list := Search(byIndex, now, text);
    forall o
      ensures o in Mails(now, list) <==> o in p.valid
    {
      assert o in p.valid <==> o in Mails(p.objects, Search(byIndex, p.objects, p.text));
      assert o in p.objects ==> (Validate(now[o]) <==> Validate(p.objects[o]));
    }
  }

  // ----- both passes -----

  /** The text of the recovery index after a rebuild. */
  ghost predicate TextAfter(byIndex: bool, writable: bool, valid: set<Oid>, text: string, text': string) {
    if byIndex && writable then WellFormed(text') && OidSet(text') == valid else text' == text
  }

  /** The mails a rebuild finds. */
  function FoundBy(byIndex: bool, objects: map<Oid, Attrs>, text: string): set<Oid> {
    Mails(objects, Search(byIndex, objects, text))
  }

  /** What the stores are like before or after a rebuild. */
  datatype Stores = Stores(objects: map<Oid, Attrs>, indexes: map<BoxId, MailIndex>, text: string)

  /** How a rebuild of the mailboxes `boxes` ends that finds the mails `valid`. */
  ghost predicate Outcome(conv: Convert, valid: set<Oid>, before: Stores, after: Stores, boxes: seq<BoxId>,
                          inbox: Option<BoxId>, firstTry: bool, ret: int)
  {
    var succeeds := Succeeds(conv, before.objects, valid, boxes, inbox, firstTry);
    && (ret == 0 || ret == -1)
    && (ret == 0 <==> boxes == [] || inbox.None? || succeeds)
    && (boxes != [] && succeeds ==>
          Rebuilt(before.objects, after.objects, valid, before.indexes, after.indexes, boxes, inbox))
    && (AllConvert(conv, before.objects, valid) && AllHome(before.objects, valid, boxes) ==>
          FromNext(before.indexes, after.indexes, boxes))
    && AtMost(before.objects, after.objects, before.indexes, after.indexes, valid)
    && Moved(before.objects, after.objects, inbox)
    && (inbox.None? ==> AllFit(after.objects, before.indexes, after.indexes, boxes))
  }

  /** `rbox_storage_rebuild_in_context` with force: returns 0 exactly in the cases `Outcome` lists, and if it can
      restore every mail it does. */
  method RebuildInContext(s: Storage, nss: seq<seq<Box>>, validity: nat, firstTry: bool) returns (ret: int)
    requires Distinct(VisitedAll(nss)) && (forall g :: g in VisitedAll(nss) ==> g in s.indexes) && validity != 0
    modifies s
    decreases firstTry, 3
    ensures Outcome(s.conv, FoundBy(s.byIndex, old(s.objects), old(s.text)),
                    Stores(old(s.objects), old(s.indexes), old(s.text)), Stores(s.objects, s.indexes, s.text),
                    VisitedAll(nss), DefaultInbox(nss), firstTry, ret)
    ensures if VisitedAll(nss) == [] then s.text == old(s.text)
            else TextAfter(s.byIndex, s.writable, FoundBy(s.byIndex, old(s.objects), old(s.text)), old(s.text), s.text)
    ensures LostToInbox(old(s.objects), s.objects, nss, s.conv, FoundBy(s.byIndex, old(s.objects), old(s.text)),
                        firstTry)
  {
    var mails, homed, stray;
    ghost var p;
    mails, homed, stray, p := RepairAndCount(s, nss, validity);
    if stray > 0 {
      ret := Leftovers(s, nss, validity, firstTry, mails, p, VisitedAll(nss));
      LostAreGiven(s.conv, p.valid, Stores(p.objects, p.indexes, p.text), Stores(s.objects, s.indexes, s.text), nss,
                   firstTry, ret);
      return;
    }
    if VisitedAll(nss) == [] {
      NothingAtMost(s.objects, s.indexes, p.valid);
    } else {
      PassAtMost(s.conv, p, s.objects, s.indexes, mails, VisitedAll(nss));
      PassAllFits(s.conv, p, s.objects, s.indexes, mails, VisitedAll(nss));
      OnePass(s.conv, p, s.objects, s.indexes, mails, VisitedAll(nss), DefaultInbox(nss));
    }
    ret := 0;
    LostAreGiven(s.conv, p.valid, Stores(p.objects, p.indexes, p.text), Stores(s.objects, s.indexes, s.text), nss,
                 firstTry, ret);
  }

  /**
   A mail whose mailbox is not visited is in the end in a mailbox that is called INBOX: the last one of the first
   namespace that has one and can be read to its end.
   */
  ghost predicate LostToInbox(objects: map<Oid, Attrs>, objects': map<Oid, Attrs>, nss: seq<seq<Box>>, conv: Convert,
                              valid: set<Oid>, firstTry: bool)
  {
    VisitedAll(nss) != [] && Succeeds(conv, objects, valid, VisitedAll(nss), DefaultInbox(nss), firstTry) ==>
      forall o :: o in valid && o in objects && 'M' in objects[o] && objects[o]['M'] !in VisitedAll(nss) ==>
        o in objects' && 'M' in objects'[o] && InboxNamed(nss, objects'[o]['M']) && IsDefault(nss, objects'[o]['M'])
  }

  predicate InboxNamed(nss: seq<seq<Box>>, guid: BoxId) {
    exists k, i :: 0 <= k < |nss| && 0 <= i < |nss[k]| && nss[k][i].name == "INBOX" && nss[k][i].guid == guid
  }

  lemma LostAreGiven(conv: Convert, valid: set<Oid>, before: Stores, after: Stores, nss: seq<seq<Box>>, firstTry: bool,
                     ret: int)
    requires Outcome(conv, valid, before, after, VisitedAll(nss), DefaultInbox(nss), firstTry, ret)
    ensures LostToInbox(before.objects, after.objects, nss, conv, valid, firstTry)
  {
    var boxes, inbox := VisitedAll(nss), DefaultInbox(nss);
    if boxes != [] && Succeeds(conv, before.objects, valid, boxes, inbox, firstTry) {
      forall o | o in valid && o in before.objects && 'M' in before.objects[o] && before.objects[o]['M'] !in boxes
        ensures o in after.objects && 'M' in after.objects[o] && inbox == Some(after.objects[o]['M'])
      {
        assert HomeOk(before.objects[o], after.objects[o], boxes, inbox);
        assert HasRecord(after.objects, after.indexes, boxes, o);
      }
      if inbox.Some? { assert InboxNamed(nss, inbox.value); }
    }
  }

  /** Mails are left over: without a default mailbox they stay where they are. */
  method Leftovers(s: Storage, nss: seq<seq<Box>>, validity: nat, firstTry: bool, mails: Groups, ghost p: Pass,
                   ghost boxes: seq<BoxId>) returns (ret: int)
    requires boxes == VisitedAll(nss)
    requires Distinct(boxes) && (forall g :: g in boxes ==> g in s.indexes) && validity != 0
    requires boxes != [] && TextOk(s.byIndex, s.writable, p, s.text, true)
    requires Loaded(p) && PassOk(s.conv, p, s.objects, s.indexes, mails, boxes) && Disjoint(mails)
    requires !(AllConvert(s.conv, p.objects, p.valid) && AllHome(p.objects, p.valid, boxes))
    modifies s
    decreases firstTry, 2
    ensures Outcome(s.conv, p.valid, Stores(p.objects, p.indexes, p.text), Stores(s.objects, s.indexes, s.text),
                    boxes, DefaultInbox(nss), firstTry, ret)
    ensures TextAfter(s.byIndex, s.writable, p.valid, p.text, s.text)
  {
    var inbox := FindDefault(nss);
    if inbox.None? {
      PassAtMost(s.conv, p, s.objects, s.indexes, mails, boxes);
      PassAllFits(s.conv, p, s.objects, s.indexes, mails, boxes);
      GivenUp(s.conv, p, Stores(s.objects, s.indexes, s.text), boxes, inbox, firstTry);
      return 0;
    }
    var given := GiveAway(s, mails, p, boxes, inbox.value);
    ret := Repeat(s, nss, validity, firstTry, given, inbox.value, p, boxes);
  }

  /** Mails were given to INBOX: the rebuild is repeated, but only once. */
  method Repeat(s: Storage, nss: seq<seq<Box>>, validity: nat, firstTry: bool, given: nat, inbox: BoxId,
                ghost p: Pass, ghost boxes: seq<BoxId>) returns (ret: int)
    requires boxes == VisitedAll(nss) && DefaultInbox(nss) == Some(inbox) && given > 0
    requires Distinct(boxes) && (forall g :: g in boxes ==> g in s.indexes) && validity != 0
    requires boxes != [] && TextOk(s.byIndex, s.writable, p, s.text, true)
    requires Middle(s.conv, p, s.objects, s.indexes, boxes, inbox)
    requires !(AllConvert(s.conv, p.objects, p.valid) && AllHome(p.objects, p.valid, boxes))
    modifies s
    decreases firstTry, 1
    ensures Outcome(s.conv, p.valid, Stores(p.objects, p.indexes, p.text), Stores(s.objects, s.indexes, s.text),
                    boxes, Some(inbox), firstTry, ret)
    ensures TextAfter(s.byIndex, s.writable, p.valid, p.text, s.text)
  {
    if firstTry {
      ret := SecondTry(s, nss, validity, p, inbox, boxes);
    } else {
      GivenUp(s.conv, p, Stores(s.objects, s.indexes, s.text), boxes, Some(inbox), firstTry);
      ret := -1;
    }
  }

  lemma GivenUp(conv: Convert, p: Pass, after: Stores, boxes: seq<BoxId>, inbox: Option<BoxId>, firstTry: bool)
    requires !(AllConvert(conv, p.objects, p.valid) && AllHome(p.objects, p.valid, boxes)) && boxes != []
    requires (inbox.None? || !firstTry) && AtMost(p.objects, after.objects, p.indexes, after.indexes, p.valid)
    requires Moved(p.objects, after.objects, inbox)
    requires inbox.None? ==> AllFit(after.objects, p.indexes, after.indexes, boxes)
    ensures Outcome(conv, p.valid, Stores(p.objects, p.indexes, p.text), after, boxes, inbox, firstTry,
                    if inbox.None? then 0 else -1)
  {
  }

  method GiveAway(s: Storage, mails: Groups, ghost p: Pass, ghost boxes: seq<BoxId>, inbox: BoxId) returns (given: nat)
    requires Loaded(p) && PassOk(s.conv, p, s.objects, s.indexes, mails, boxes) && Disjoint(mails)
    requires !(AllConvert(s.conv, p.objects, p.valid) && AllHome(p.objects, p.valid, boxes))
    modifies s`objects
    ensures given > 0 && Middle(s.conv, p, s.objects, s.indexes, boxes, inbox)
  {
    ghost var now := s.objects;
    MailsThere(s.conv, p, now, mails, boxes);
    given := s.GiveToInbox(mails, inbox);
    Between(s.conv, p, now, s.objects, s.indexes, mails, boxes, inbox);
  }

  /** The state between the passes. */
  ghost predicate Middle(conv: Convert, p: Pass, now: map<Oid, Attrs>, indexes: map<BoxId, MailIndex>,
                         boxes: seq<BoxId>, inbox: BoxId)
  {
    && AtMost(p.objects, now, p.indexes, indexes, p.valid) && Moved(p.objects, now, Some(inbox))
    && (AllConvert(conv, now, p.valid) <==> AllConvert(conv, p.objects, p.valid))
    && (AllConvert(conv, p.objects, p.valid) ==>
          && (AllHome(now, p.valid, boxes) <==> inbox in boxes || AllHome(p.objects, p.valid, boxes))
          && Homes(p.objects, now, p.valid, boxes, Some(inbox))
          && AllUidsOk(p.indexes, indexes, boxes))
  }

  /** The one repetition, from the state between the passes. */
  method SecondTry(s: Storage, nss: seq<seq<Box>>, validity: nat, ghost p: Pass, inbox: BoxId, ghost boxes: seq<BoxId>)
    returns (ret: int)
    requires boxes == VisitedAll(nss) && DefaultInbox(nss) == Some(inbox)
    requires Distinct(boxes) && (forall g :: g in boxes ==> g in s.indexes) && validity != 0
    requires boxes != [] && TextOk(s.byIndex, s.writable, p, s.text, true)
    requires Middle(s.conv, p, s.objects, s.indexes, boxes, inbox)
    requires !(AllConvert(s.conv, p.objects, p.valid) && AllHome(p.objects, p.valid, boxes))
    modifies s
    decreases true, 0
    ensures Outcome(s.conv, p.valid, Stores(p.objects, p.indexes, p.text), Stores(s.objects, s.indexes, s.text),
                    boxes, Some(inbox), true, ret)
    ensures TextAfter(s.byIndex, s.writable, p.valid, p.text, s.text)
  {
    ghost var middle, indexes := s.objects, s.indexes;
    SearchedTwice(s.byIndex, s.writable, p, s.objects, s.text);
    ret := RebuildInContext(s, nss, validity, false);
    AtMostTwice(p.objects, middle, s.objects, p.indexes, indexes, s.indexes, p.valid);
    if ret == 0 {
      TwoPasses(p.objects, middle, s.objects, p.valid, p.indexes, indexes, s.indexes, boxes, inbox);
    }
  }

  lemma MailsThere(conv: Convert, p: Pass, now: map<Oid, Attrs>, mails: Groups, done: seq<BoxId>)
    requires Loaded(p) && ObjectsOk(conv, p, now, done) && FlagsOk(conv, p, mails, done)
    ensures forall g, i :: g in mails && 0 <= i < |mails[g]| ==> mails[g][i].oid in now
    ensures AllRestored(mails) <==> AllConvert(conv, p.objects, p.valid) && AllHome(p.objects, p.valid, done)
  {
    FlaggedDisjoint(conv, p, mails, done);
    AllRestoredIff(conv, p, mails, done);
  }

  lemma OnePass(conv: Convert, p: Pass, now: map<Oid, Attrs>, indexes: map<BoxId, MailIndex>, mails: Groups,
                done: seq<BoxId>, inbox: Option<BoxId>)
    requires Loaded(p) && PassOk(conv, p, now, indexes, mails, done)
    requires AllConvert(conv, p.objects, p.valid) && AllHome(p.objects, p.valid, done)
    ensures Rebuilt(p.objects, now, p.valid, p.indexes, indexes, done, inbox) && FromNext(p.indexes, indexes, done)
  {
    PassCompletes(conv, p, now, indexes, mails, done);
    PassHomes(conv, p, now, done, inbox);
    PassUids(conv, p, indexes, done);
  }

  lemma Between(conv: Convert, p: Pass, now: map<Oid, Attrs>, now': map<Oid, Attrs>, indexes: map<BoxId, MailIndex>,
                mails: Groups, done: seq<BoxId>, inbox: BoxId)
    requires Loaded(p) && PassOk(conv, p, now, indexes, mails, done) && GivenToInbox(now, now', mails, inbox)
    ensures Middle(conv, p, now', indexes, done, inbox)
  {
    AfterGiving(conv, p, now, now', mails, done, inbox);
    PassIndexes(conv, p, indexes, done);
    if AllConvert(conv, p.objects, p.valid) {
      PassUids(conv, p, indexes, done);
      if inbox !in done { StillHomeless(p.objects, now', p.valid, done, inbox); }
    }
  }

  lemma TwoPasses(o0: map<Oid, Attrs>, o1: map<Oid, Attrs>, o2: map<Oid, Attrs>, valid: set<Oid>,
                  i0: map<BoxId, MailIndex>, i1: map<BoxId, MailIndex>, i2: map<BoxId, MailIndex>,
                  boxes: seq<BoxId>, inbox: BoxId)
    requires inbox in boxes && Homes(o0, o1, valid, boxes, Some(inbox)) && AllUidsOk(i0, i1, boxes)
    requires Rebuilt(o1, o2, valid, i1, i2, boxes, Some(inbox))
    ensures Rebuilt(o0, o2, valid, i0, i2, boxes, Some(inbox))
  {
    HomesCompose(o0, o1, o2, valid, boxes, inbox);
    UidsCompose(i0, i1, i2, boxes);
  }
}
