/** The records of the committed index: durable, unique and ascending, as long as every rebuild restores everything. */
module SaveRecords {
  import opened Rados
  import opened RecoveryIndex
  import opened SaveProtocol
  import opened SaveInvariant

  // ----- the invariant -----

  /** Records name live oids, each once, with ascending UIDs, and the objects are there. */
  ghost predicate Recorded(d: Db) {
    && (forall r :: r in d.records ==> r.oid in d.owner && d.owner[r.oid].Live?)
    && RecordsOk(d.records, d.nextUid)
    && Durable(d)
  }

  /** What a session is about to expunge is named by records of its own mailbox only. */
  ghost predicate QueueOk(d: Db, c: Ctx) {
    Locked(c) ==> forall r :: r in d.records && r.oid in c.expunged ==> r.box == c.box
  }

  ghost predicate QueuesOk(d: Db, sessions: map<Sid, Ctx>) {
    forall s :: s in sessions ==> QueueOk(d, sessions[s])
  }

  ghost predicate FullInv(w: World) {
    Inv(w) && Recorded(w.db) && QueuesOk(w.db, w.sessions)
  }

  // ----- steps that leave the records alone -----

  /** The records and all that is known and stored of the oids they name are the same. */
  ghost predicate KeepsRecords(d: Db, d': Db) {
    && d'.records == d.records && d'.nextUid == d.nextUid
    && forall r :: r in d.records ==> SameOid(d, d', r.oid)
  }

  ghost predicate SameOid(d: Db, d': Db, o: Oid) {
    && (o in d.owner ==> o in d'.owner && d'.owner[o] == d.owner[o])
    && (o in d.store ==> o in d'.store && d'.store[o] == d.store[o])
    && (o in d.whole ==> o in d'.whole && d'.whole[o] == d.whole[o])
  }

  lemma KeptRecorded(d: Db, d': Db)
    requires Recorded(d) && KeepsRecords(d, d')
    ensures Recorded(d')
  {
    forall r | r in d'.records
      ensures r.oid in d'.owner && d'.owner[r.oid].Live? && WholeIn(d', r.oid) && d'.store[r.oid].uid == Some(r.uid)
    {
      assert SameOid(d, d', r.oid) && WholeIn(d, r.oid);
    }
  }

  /** Only `oid` may have changed, and no record names it. */
  lemma OthersSame(d: Db, d': Db, oid: Oid)
    requires Recorded(d) && d'.records == d.records && d'.nextUid == d.nextUid
    requires oid in d.owner ==> !d.owner[oid].Live?
    requires forall o :: o != oid ==> SameOid(d, d', o)
    ensures KeepsRecords(d, d')
  {
  }

  lemma SaveKeeps(w: World, s: Sid, c: Ctx, a: Action)
    requires Recorded(w.db) && CtxOk(w.db, s, c) && Allowed(w, c, a) && IsSave(a)
    ensures KeepsRecords(w.db, Apply(w, s, c, a).db)
  {
    var d := Apply(w, s, c, a).db;
    if a.Begin? || a.Copy? {
      OthersSame(w.db, d, a.oid);
    } else if c.phase.Receiving? || c.phase.Writing? {
      assert c.mails[|c.mails| - 1] == c.phase.oid;
      OthersSame(w.db, d, c.phase.oid);
    }
  }

  /** Neither publication nor the sync commit. */
  predicate IsQuiet(a: Action) { !IsSave(a) && !(a.Publish? && a.ok) && !(a.SyncFinish? && a.ok) }

  lemma QuietKeeps(w: World, s: Sid, c: Ctx, a: Action)
    requires Recorded(w.db) && CtxOk(w.db, s, c) && Allowed(w, c, a) && IsQuiet(a)
    ensures KeepsRecords(w.db, Apply(w, s, c, a).db)
  {
    var d := Apply(w, s, c, a).db;
    if a.AssignUid? {
      OthersSame(w.db, d, c.mails[c.phase.done]);
    } else if a.Remove? {
      assert c.phase.queue[0] in c.phase.queue;
      OthersSame(w.db, d, c.phase.queue[0]);
    } else if a.Clean? {
      assert c.phase.todo[0] in c.phase.todo;
      OthersSame(w.db, d, c.phase.todo[0]);
    }
  }

  // ----- publication -----

  /** New records continue the mailbox where its UIDs end. */
  lemma RecordsAppend(records: seq<Record>, nextUid: map<BoxId, nat>, box: BoxId, oids: seq<Oid>)
    requires RecordsOk(records, nextUid) && Distinct(oids)
    requires forall r :: r in records ==> r.oid !in oids
    ensures RecordsOk(records + NewRecords(box, NextUid(nextUid, box), oids),
                      nextUid[box := NextUid(nextUid, box) + |oids|])
  {
  }

  lemma PublishedRecorded(d: Db, s: Sid, c: Ctx)
    requires Recorded(d) && Aligned(c) && PendingOk(d, s, c) && Committable(c) && UidsAssigned(d, c, |c.mails|)
    ensures Recorded(Published(d, c.box, c.appended))
  {
    var d' := Published(d, c.box, c.appended);
    RecordsAppend(d.records, d.nextUid, c.box, c.appended);
    forall r | r in d'.records
      ensures r.oid in d'.owner && d'.owner[r.oid].Live? && WholeIn(d', r.oid) && d'.store[r.oid].uid == Some(r.uid)
    {
      if r in d.records {
        assert WholeIn(d, r.oid);
      } else {
        NewRecordOk(d, s, c, r);
      }
    }
  }

  lemma PublishedQueue(d: Db, s: Sid, c: Ctx, c': Ctx)
    requires Aligned(c) && PendingOk(d, s, c) && QueueOk(d, c') && (Locked(c') ==> Retired(d, c'.expunged))
    ensures QueueOk(Published(d, c.box, c.appended), c')
  {
    forall r | r in NewRecords(c.box, NextUid(d.nextUid, c.box), c.appended)
      ensures r.oid in c.mails
    {
    }
  }

  // ----- the sync commit -----

  lemma RecordsSnoc(records: seq<Record>, r: Record, nextUid: map<BoxId, nat>)
    requires RecordsOk(records, nextUid) && r.uid < NextUid(nextUid, r.box)
    requires forall x :: x in records ==> x.oid != r.oid && (x.box == r.box ==> x.uid < r.uid)
    ensures RecordsOk(records + [r], nextUid)
  {
  }

  lemma RecordsFront(records: seq<Record>, nextUid: map<BoxId, nat>)
    requires records != [] && RecordsOk(records, nextUid)
    ensures var n := |records| - 1;
            && RecordsOk(records[..n], nextUid)
            && forall x :: x in records[..n] ==>
                x.oid != records[n].oid && (x.box == records[n].box ==> x.uid < records[n].uid)
  {
  }

  lemma {:induction false} RemainingOk(records: seq<Record>, box: BoxId, gone: seq<Oid>, nextUid: map<BoxId, nat>)
    requires RecordsOk(records, nextUid)
    ensures RecordsOk(Remaining(records, box, gone), nextUid)
  {
    if records != [] {
      var n := |records| - 1;
      RecordsFront(records, nextUid);
      RemainingOk(records[..n], box, gone, nextUid);
      if !(records[n].box == box && records[n].oid in gone) {
        RecordsSnoc(Remaining(records[..n], box, gone), records[n], nextUid);
      }
    }
  }

  lemma ExpungedRecorded(d: Db, c: Ctx)
    requires Recorded(d) && Locked(c) && QueueOk(d, c)
    ensures Recorded(Expunged(d, c.box, c.expunged))
  {
    RemainingOk(d.records, c.box, c.expunged, d.nextUid);
    var d' := Expunged(d, c.box, c.expunged);
    forall r | r in d'.records
      ensures r.oid in d'.owner && d'.owner[r.oid].Live? && WholeIn(d', r.oid) && d'.store[r.oid].uid == Some(r.uid)
    {
      assert WholeIn(d, r.oid);
    }
  }

  // ----- the rebuild -----

  lemma LookupUnique(records: seq<Record>, nextUid: map<BoxId, nat>, r: Record)
    requires RecordsOk(records, nextUid) && r in records
    ensures Lookup(records, r.oid) == Some(r)
  {
    var x := Lookup(records, r.oid).value;
    var i :| 0 <= i < |records| && records[i] == r;
    var j :| 0 <= j < |records| && records[j] == x;
    if i < j { assert records[i].oid != records[j].oid; }
    if j < i { assert records[j].oid != records[i].oid; }
  }

  lemma RebuiltRecorded(d: Db, loaded: set<Oid>, records: seq<Record>, nextUid: map<BoxId, nat>)
    requires Base(d) && RecordsOk(records, nextUid)
    requires forall r :: r in records ==> r.oid in loaded
    requires forall o :: o in loaded ==> o in d.store && d.store[o].uid.Some?
    ensures Recorded(Rebuilt(d, records, nextUid))
  {
    var d' := Rebuilt(d, records, nextUid);
    forall r | r in records
      ensures r.oid in d'.owner && d'.owner[r.oid].Live? && WholeIn(d', r.oid) && d'.store[r.oid].uid == Some(r.uid)
    {
      LookupUnique(records, nextUid, r);
    }
  }

  // ----- every step, every run -----

  lemma RecordedStep(w: World, e: Event)
    requires FullInv(w) && Enabled(w, e) && Disciplined(w, e) && !e.Repair?
    ensures Recorded(Step(w, e).db)
  {
    match e
    case Alloc(_, _) =>
    case Act(s, a) => RecordedAct(w, s, a);
    case Rebuild(text, records, nextUid) =>
      RebuiltRecorded(w.db, Loaded(w.db.store, OidSet(w.index)), records, nextUid);
  }

  lemma RecordedAct(w: World, s: Sid, a: Action)
    requires FullInv(w) && Enabled(w, Act(s, a))
    ensures Recorded(Apply(w, s, w.sessions[s], a).db)
  {
    var c := w.sessions[s];
    assert CtxOk(w.db, s, c) && QueueOk(w.db, c);
    if IsSave(a) {
      SaveKeeps(w, s, c, a);
      KeptRecorded(w.db, Apply(w, s, c, a).db);
    } else if IsQuiet(a) {
      QuietKeeps(w, s, c, a);
      KeptRecorded(w.db, Apply(w, s, c, a).db);
    } else if a.Publish? {
      PublishedRecorded(w.db, s, c);
    } else {
      ExpungedRecorded(w.db, c);
    }
  }

  /** The queue of one context after a step of session `s`, which may be its own. */
  lemma QueueAfter(w: World, s: Sid, a: Action, t: Sid, c': Ctx)
    requires FullInv(w) && Enabled(w, Act(s, a)) && t in w.sessions && QueueOk(w.db, c')
    requires Locked(c') ==> Retired(w.db, c'.expunged)
    ensures QueueOk(Apply(w, s, w.sessions[s], a).db, c')
  {
    var c := w.sessions[s];
    assert CtxOk(w.db, s, c);
    if IsSave(a) {
      SaveKeeps(w, s, c, a);
    } else if IsQuiet(a) {
      QuietKeeps(w, s, c, a);
    } else if a.Publish? {
      PublishedQueue(w.db, s, c, c');
    }
  }

  /** The context a step leaves has a queue of its own mailbox. */
  lemma OwnQueue(w: World, s: Sid, a: Action)
    requires FullInv(w) && Enabled(w, Act(s, a))
    ensures var w' := Apply(w, s, w.sessions[s], a);
            s in w'.sessions ==>
              QueueOk(w.db, w'.sessions[s]) && (Locked(w'.sessions[s]) ==> Retired(w.db, w'.sessions[s].expunged))
  {
    var c := w.sessions[s];
    assert CtxOk(w.db, s, c) && QueueOk(w.db, c);
    if a.CommitPre? && a.ok {
      NewQueue(w.db, c, a.queue);
    } else {
      SameQueue(w, s, c, a);
    }
  }

  lemma NewQueue(d: Db, c: Ctx, queue: seq<Oid>)
    requires Base(d) && Recorded(d)
    requires forall o :: o in queue ==> exists r :: r in d.records && r.oid == o && r.box == c.box
    ensures Retired(d, queue) && forall r :: r in d.records && r.oid in queue ==> r.box == c.box
  {
    forall r | r in d.records && r.oid in queue
      ensures r.box == c.box
    {
      var r' :| r' in d.records && r'.oid == r.oid && r'.box == c.box;
      SameRecord(d.records, d.nextUid, r, r');
    }
  }

  /** Only the start of a commit sets a queue. */
  lemma SameQueue(w: World, s: Sid, c: Ctx, a: Action)
    requires Allowed(w, c, a) && !(a.CommitPre? && a.ok)
    ensures var w' := Apply(w, s, c, a);
            s in w'.sessions && Locked(w'.sessions[s]) ==>
              Locked(c) && w'.sessions[s].expunged == c.expunged && w'.sessions[s].box == c.box
  {
    if IsSave(a) { SavesUnlocked(w, s, c, a); }
  }

  lemma SavesUnlocked(w: World, s: Sid, c: Ctx, a: Action)
    requires Allowed(w, c, a) && IsSave(a)
    ensures s in Apply(w, s, c, a).sessions && !Locked(Apply(w, s, c, a).sessions[s])
  {
  }

  lemma SameRecord(records: seq<Record>, nextUid: map<BoxId, nat>, r: Record, r': Record)
    requires RecordsOk(records, nextUid) && r in records && r' in records && r.oid == r'.oid
    ensures r == r'
  {
    LookupUnique(records, nextUid, r);
    LookupUnique(records, nextUid, r');
  }

  lemma QueuesAct(w: World, s: Sid, a: Action)
    requires FullInv(w) && Enabled(w, Act(s, a))
    ensures var w' := Apply(w, s, w.sessions[s], a); QueuesOk(w'.db, w'.sessions)
  {
    var w' := Apply(w, s, w.sessions[s], a);
    forall t | t in w'.sessions
      ensures QueueOk(w'.db, w'.sessions[t])
    {
      if t == s {
        OwnQueue(w, s, a);
      } else {
        OtherSession(w, s, a, t);
        assert CtxOk(w.db, t, w.sessions[t]);
      }
      QueueAfter(w, s, a, t, w'.sessions[t]);
    }
  }

  lemma OtherSession(w: World, s: Sid, a: Action, t: Sid)
    requires Enabled(w, Act(s, a)) && t != s && t in Apply(w, s, w.sessions[s], a).sessions
    ensures t in w.sessions && Apply(w, s, w.sessions[s], a).sessions[t] == w.sessions[t]
  {
  }

  lemma FullStep(w: World, e: Event)
    requires FullInv(w) && Enabled(w, e) && Disciplined(w, e) && !e.Repair?
    ensures FullInv(Step(w, e))
  {
    StepInv(w, e);
    RecordedStep(w, e);
    if e.Act? { QueuesAct(w, e.s, e.a); }
  }

  lemma EmptyFull()
    ensures FullInv(EMPTY)
  {
    EmptyInv();
  }

  /** Every rebuild of the run restores everything. */
  ghost predicate FullRebuilds(t: Run) { forall e :: e in t.es ==> !e.Repair? }

  lemma {:induction false} RunFull(t: Run, i: nat)
    requires DisciplinedRun(t) && FullRebuilds(t) && FullInv(t.ws[0]) && i <= |t.es|
    ensures FullInv(t.ws[i])
  {
    if i > 0 {
      RunFull(t, i - 1);
      LinkFull(t, i - 1);
    }
  }

  lemma LinkFull(t: Run, i: nat)
    requires DisciplinedRun(t) && FullRebuilds(t) && i < |t.es| && FullInv(t.ws[i])
    ensures FullInv(t.ws[i + 1])
  {
    assert Linked(t, i) && DisciplinedAt(t, i);
    assert t.es[i] in t.es;
    FullStep(t.ws[i], t.es[i]);
  }
}
