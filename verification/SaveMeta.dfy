/**
 What a save leaves besides the bytes: its metadata operation and the mailbox attribute. Both are told from the events
 of a run alone, and so are the bytes that a client sent.
 */
module SaveMeta {
  import opened Rados
  import opened SaveProtocol
  import opened SaveInvariant
  import opened SaveRecords
  import opened SaveTheorems

  // ----- which objects have metadata -----

  /** The end of a save that passes its checks and whose metadata operation succeeds, whatever the buffer and chunk. */
  predicate WritesMeta(w: World, e: Event, oid: Oid) {
    && e.Act? && e.a.Finish? && e.a.streamOk && e.a.metaOk && e.s in w.sessions
    && var c := w.sessions[e.s];
      c.phase.Receiving? && c.phase.oid == oid && !c.failed && 0 < |c.phase.buffer| <= e.a.maxObject
  }

  /** A copy of an object that has metadata. */
  predicate CopiesMeta(w: World, e: Event, oid: Oid) {
    e.Act? && e.a.Copy? && e.a.oid == oid && e.a.ok && e.a.src in w.db.store && w.db.store[e.a.src].meta
  }

  predicate GivesMeta(w: World, e: Event, oid: Oid) { WritesMeta(w, e, oid) || CopiesMeta(w, e, oid) }

  /** Metadata was given to `oid` by one of the first `i` events. */
  ghost predicate MetaGiven(t: Run, i: nat, oid: Oid)
    requires i <= |t.es|
  {
    exists k :: 0 <= k < i && GivesMeta(t.ws[k], t.es[k], oid)
  }

  predicate IsOpen(c: Ctx, oid: Oid) { (c.phase.Receiving? || c.phase.Writing?) && c.phase.oid == oid }

  /** No object yet: the oid is unknown or its mail is still on its way. */
  ghost predicate Unborn(w: World, oid: Oid) {
    oid !in w.db.store && (oid !in w.db.owner || exists s :: s in w.sessions && IsOpen(w.sessions[s], oid))
  }

  /** One step gives metadata as its event says, and creates objects only for mails on their way. */
  ghost predicate MetaFollows(w: World, e: Event, w': World, oid: Oid) {
    && (oid in w'.db.store ==>
          && (oid !in w.db.store ==> Unborn(w, oid))
          && w'.db.store[oid].meta == (GivesMeta(w, e, oid) || ObjectAt(w.db.store, oid).meta))
    && (Unborn(w', oid) ==> Unborn(w, oid) && !GivesMeta(w, e, oid))
  }

  /** The last mail of an open save belongs to its session. */
  lemma OpenIsOwned(d: Db, s: Sid, c: Ctx, oid: Oid)
    requires CtxOk(d, s, c) && IsOpen(c, oid)
    ensures oid in d.owner && d.owner[oid] == Pending(s)
  {
    assert c.mails[|c.mails| - 1] == oid;
  }

  lemma GivesStores(w: World, s: Sid, a: Action, oid: Oid)
    requires Enabled(w, Act(s, a)) && GivesMeta(w, Act(s, a), oid)
    ensures oid in Apply(w, s, w.sessions[s], a).db.store
  {
  }

  lemma SaveOwnersStay(w: World, s: Sid, a: Action)
    requires Enabled(w, Act(s, a)) && IsSave(a)
    ensures w.db.owner.Keys <= Apply(w, s, w.sessions[s], a).db.owner.Keys
  {
  }

  lemma EndOwnersStay(w: World, s: Sid, a: Action)
    requires Enabled(w, Act(s, a)) && !IsSave(a)
    ensures w.db.owner.Keys <= Apply(w, s, w.sessions[s], a).db.owner.Keys
  {
  }

  /** A mail on its way was so before the step, or starts with it. */
  lemma SaveOpenBefore(w: World, s: Sid, a: Action, oid: Oid)
    requires Enabled(w, Act(s, a)) && IsSave(a)
    ensures var w' := Apply(w, s, w.sessions[s], a);
            s in w'.sessions && IsOpen(w'.sessions[s], oid) ==> IsOpen(w.sessions[s], oid) || Fresh(w.db, oid)
  {
  }

  lemma EndOpenBefore(w: World, s: Sid, a: Action, oid: Oid)
    requires Enabled(w, Act(s, a)) && !IsSave(a)
    ensures var w' := Apply(w, s, w.sessions[s], a); s in w'.sessions ==> !IsOpen(w'.sessions[s], oid)
  {
  }

  lemma OpenBefore(w: World, s: Sid, a: Action, t: Sid, oid: Oid)
    requires Enabled(w, Act(s, a))
    requires var w' := Apply(w, s, w.sessions[s], a); t in w'.sessions && IsOpen(w'.sessions[t], oid)
    ensures (t in w.sessions && IsOpen(w.sessions[t], oid)) || Fresh(w.db, oid)
  {
    if t != s {
      OtherSession(w, s, a, t);
    } else if IsSave(a) {
      SaveOpenBefore(w, s, a, oid);
    } else {
      EndOpenBefore(w, s, a, oid);
    }
  }

  /** Only the two removals take an object away, and not one of a mail on its way. */
  lemma SaveKeepsObjects(w: World, s: Sid, a: Action)
    requires Enabled(w, Act(s, a)) && IsSave(a)
    ensures w.db.store.Keys <= Apply(w, s, w.sessions[s], a).db.store.Keys
  {
  }

  /** What a session removes is dead or its own. */
  lemma RemovesOwn(d: Db, s: Sid, c: Ctx)
    requires CtxOk(d, s, c)
    ensures c.phase.Removing? && c.phase.queue != [] ==> c.phase.queue[0] in d.owner && d.owner[c.phase.queue[0]].Dead?
    ensures c.phase.CleaningUp? && c.phase.todo != [] ==>
              c.phase.todo[0] in d.owner && d.owner[c.phase.todo[0]] == Pending(s)
  {
    if c.phase.Removing? && c.phase.queue != [] { assert c.phase.queue[0] in c.phase.queue; }
    if c.phase.CleaningUp? && c.phase.todo != [] { assert c.phase.todo[0] in c.phase.todo; }
  }

  lemma EndKeepsObject(w: World, s: Sid, a: Action, oid: Oid)
    requires Enabled(w, Act(s, a)) && !IsSave(a) && oid in w.db.store && CtxOk(w.db, s, w.sessions[s])
    requires oid in w.db.owner && w.db.owner[oid].Pending? && (a.Clean? ==> w.db.owner[oid] != Pending(s))
    ensures oid in Apply(w, s, w.sessions[s], a).db.store
  {
    RemovesOwn(w.db, s, w.sessions[s]);
  }

  lemma OpenIsKept(w: World, s: Sid, a: Action, t: Sid, oid: Oid)
    requires Inv(w) && Enabled(w, Act(s, a)) && t in w.sessions && IsOpen(w.sessions[t], oid) && oid in w.db.store
    ensures oid in Apply(w, s, w.sessions[s], a).db.store
  {
    OpenIsOwned(w.db, t, w.sessions[t], oid);
    if IsSave(a) { SaveKeepsObjects(w, s, a); } else { EndKeepsObject(w, s, a, oid); }
  }

  lemma UnbornBefore(w: World, s: Sid, a: Action, oid: Oid)
    requires Inv(w) && Enabled(w, Act(s, a)) && Unborn(Apply(w, s, w.sessions[s], a), oid)
    ensures Unborn(w, oid) && !GivesMeta(w, Act(s, a), oid)
  {
    var w' := Apply(w, s, w.sessions[s], a);
    if GivesMeta(w, Act(s, a), oid) {
      GivesStores(w, s, a, oid);
    } else if oid !in w'.db.owner {
      if IsSave(a) { SaveOwnersStay(w, s, a); } else { EndOwnersStay(w, s, a); }
    } else {
      var t :| t in w'.sessions && IsOpen(w'.sessions[t], oid);
      OpenBefore(w, s, a, t, oid);
      if !Fresh(w.db, oid) && oid in w.db.store { OpenIsKept(w, s, a, t, oid); }
    }
  }

  /** An object comes into being for a new oid, or by the first write of a mail on its way. */
  lemma SaveCreates(w: World, s: Sid, a: Action, oid: Oid)
    requires Enabled(w, Act(s, a)) && IsSave(a) && oid !in w.db.store
    requires oid in Apply(w, s, w.sessions[s], a).db.store
    ensures oid !in w.db.owner || IsOpen(w.sessions[s], oid)
  {
  }

  lemma UidOfStored(w: World, s: Sid, ok: bool)
    requires Inv(w) && Enabled(w, Act(s, AssignUid(ok)))
    ensures w.sessions[s].mails[w.sessions[s].phase.done] in w.db.store
  {
    var c := w.sessions[s];
    assert CtxOk(w.db, s, c);
    assert c.outcomes[c.phase.done] == Stored;
  }

  lemma EndCreatesNone(w: World, s: Sid, a: Action)
    requires Inv(w) && Enabled(w, Act(s, a)) && !IsSave(a)
    ensures Apply(w, s, w.sessions[s], a).db.store.Keys <= w.db.store.Keys
  {
    if a.AssignUid? { UidOfStored(w, s, a.ok); }
  }

  lemma FinishMetaValue(w: World, s: Sid, a: Action, oid: Oid)
    requires Enabled(w, Act(s, a)) && a.Finish? && oid in Apply(w, s, w.sessions[s], a).db.store
    ensures Apply(w, s, w.sessions[s], a).db.store[oid].meta ==
            (WritesMeta(w, Act(s, a), oid) || ObjectAt(w.db.store, oid).meta)
  {
  }

  lemma CopyMetaValue(w: World, s: Sid, a: Action, oid: Oid)
    requires Base(w.db) && Enabled(w, Act(s, a)) && a.Copy? && oid in Apply(w, s, w.sessions[s], a).db.store
    ensures Apply(w, s, w.sessions[s], a).db.store[oid].meta ==
            (CopiesMeta(w, Act(s, a), oid) || ObjectAt(w.db.store, oid).meta)
  {
  }

  lemma SaveMetaValue(w: World, s: Sid, a: Action, oid: Oid)
    requires Base(w.db) && Enabled(w, Act(s, a)) && IsSave(a)
    requires oid in Apply(w, s, w.sessions[s], a).db.store
    ensures Apply(w, s, w.sessions[s], a).db.store[oid].meta ==
            (GivesMeta(w, Act(s, a), oid) || ObjectAt(w.db.store, oid).meta)
  {
    if a.Finish? { FinishMetaValue(w, s, a, oid); }
    if a.Copy? { CopyMetaValue(w, s, a, oid); }
  }

  lemma EndMetaValue(w: World, s: Sid, a: Action, oid: Oid)
    requires Enabled(w, Act(s, a)) && !IsSave(a)
    requires oid in Apply(w, s, w.sessions[s], a).db.store
    ensures Apply(w, s, w.sessions[s], a).db.store[oid].meta == ObjectAt(w.db.store, oid).meta
  {
  }

  lemma ActFollows(w: World, s: Sid, a: Action, oid: Oid)
    requires Inv(w) && Enabled(w, Act(s, a))
    ensures MetaFollows(w, Act(s, a), Apply(w, s, w.sessions[s], a), oid)
  {
    var w' := Apply(w, s, w.sessions[s], a);
    if Unborn(w', oid) { UnbornBefore(w, s, a, oid); }
    if oid in w'.db.store {
      if IsSave(a) {
        SaveMetaValue(w, s, a, oid);
        if oid !in w.db.store { SaveCreates(w, s, a, oid); }
      } else {
        EndMetaValue(w, s, a, oid);
        EndCreatesNone(w, s, a);
      }
    }
  }

  lemma StepFollows(w: World, e: Event, oid: Oid)
    requires Inv(w) && Enabled(w, e)
    ensures MetaFollows(w, e, Step(w, e), oid)
  {
    match e
    case Alloc(s, box) => AllocFollows(w, s, box, oid);
    case Act(s, a) => ActFollows(w, s, a, oid);
    case Rebuild(_, _, _) =>
    case Repair(_, _, _, _) =>
  }

  lemma AllocFollows(w: World, s: Sid, box: BoxId, oid: Oid)
    requires Enabled(w, Alloc(s, box))
    ensures MetaFollows(w, Alloc(s, box), StepAlloc(w, s, box), oid)
  {
    var w' := StepAlloc(w, s, box);
    if Unborn(w', oid) && oid in w.db.owner {
      var t :| t in w'.sessions && IsOpen(w'.sessions[t], oid);
      assert t in w.sessions && IsOpen(w.sessions[t], oid);
    }
  }

  lemma LinkFollows(t: Run, i: nat, oid: Oid)
    requires GoodRun(t) && i < |t.es|
    ensures MetaFollows(t.ws[i], t.es[i], t.ws[i + 1], oid)
  {
    ReachableInv(t, i);
    assert Linked(t, i);
    StepFollows(t.ws[i], t.es[i], oid);
  }

  lemma {:induction false} MetaHistory(t: Run, i: nat, oid: Oid)
    requires GoodRun(t) && i <= |t.es|
    ensures oid in t.ws[i].db.store ==> (t.ws[i].db.store[oid].meta <==> MetaGiven(t, i, oid))
    ensures Unborn(t.ws[i], oid) ==> !MetaGiven(t, i, oid)
  {
    if i > 0 {
      MetaHistory(t, i - 1, oid);
      LinkFollows(t, i - 1, oid);
      GivenSplits(t, i, oid);
    }
  }

  lemma GivenSplits(t: Run, i: nat, oid: Oid)
    requires 0 < i <= |t.es|
    ensures MetaGiven(t, i, oid) <==> MetaGiven(t, i - 1, oid) || GivesMeta(t.ws[i - 1], t.es[i - 1], oid)
  {
  }

  /** In every disciplined run an object has metadata exactly if a save or a copy gave it some. */
  lemma MetaIff(t: Run, i: nat, oid: Oid)
    requires GoodRun(t) && i <= |t.es| && oid in t.ws[i].db.store
    ensures t.ws[i].db.store[oid].meta <==> exists k :: 0 <= k < i && GivesMeta(t.ws[k], t.es[k], oid)
  {
    MetaHistory(t, i, oid);
  }

  // ----- the mailbox attribute -----

  /** The object has the mailbox attribute `box`, unless its metadata was never written. */
  predicate InBox(d: Db, oid: Oid, box: BoxId) {
    oid in d.store && d.store[oid].meta ==> d.store[oid].box == box
  }

  ghost predicate RecordsBoxed(d: Db) {
    forall r :: r in d.records ==> InBox(d, r.oid, r.box)
  }

  /** The mails of a session, as long as they are its own. */
  ghost predicate MailsBoxed(d: Db, s: Sid, c: Ctx) {
    forall o :: o in c.mails && o in d.owner && d.owner[o] == Pending(s) ==> InBox(d, o, c.box)
  }

  ghost predicate BoxInv(w: World) {
    RecordsBoxed(w.db) && forall s :: s in w.sessions ==> MailsBoxed(w.db, s, w.sessions[s])
  }

  /** A save touches no object of another session. */
  lemma SaveForeign(w: World, s: Sid, a: Action, o: Oid, box: BoxId)
    requires Enabled(w, Act(s, a)) && IsSave(a) && CtxOk(w.db, s, w.sessions[s]) && InBox(w.db, o, box)
    requires o in w.db.owner && w.db.owner[o] != Pending(s)
    ensures InBox(Apply(w, s, w.sessions[s], a).db, o, box)
  {
    var c := w.sessions[s];
    if c.phase.Receiving? || c.phase.Writing? { OpenIsOwned(w.db, s, c, c.phase.oid); }
  }

  /** What a save writes about a mailbox is its own. */
  lemma SaveOwnBox(w: World, s: Sid, a: Action, o: Oid)
    requires Enabled(w, Act(s, a)) && IsSave(a) && InBox(w.db, o, w.sessions[s].box)
    ensures InBox(Apply(w, s, w.sessions[s], a).db, o, w.sessions[s].box)
  {
  }

  /** The end of a transaction writes no mailbox attribute. */
  lemma EndAnyBox(w: World, s: Sid, a: Action, o: Oid, box: BoxId)
    requires Enabled(w, Act(s, a)) && !IsSave(a) && InBox(w.db, o, box)
    ensures InBox(Apply(w, s, w.sessions[s], a).db, o, box)
  {
  }

  lemma SavePendingBefore(w: World, s: Sid, a: Action, o: Oid, t: Sid)
    requires Enabled(w, Act(s, a)) && IsSave(a)
    requires var d' := Apply(w, s, w.sessions[s], a).db; o in d'.owner && d'.owner[o] == Pending(t)
    ensures if o in w.db.owner then w.db.owner[o] == Pending(t) else t == s
  {
  }

  lemma EndPendingBefore(w: World, s: Sid, a: Action, o: Oid, t: Sid)
    requires Enabled(w, Act(s, a)) && !IsSave(a)
    requires var d' := Apply(w, s, w.sessions[s], a).db; o in d'.owner && d'.owner[o] == Pending(t)
    ensures o in w.db.owner && w.db.owner[o] == Pending(t)
  {
  }

  lemma SaveMails(w: World, s: Sid, a: Action)
    requires Enabled(w, Act(s, a)) && IsSave(a)
    ensures var c, w' := w.sessions[s], Apply(w, s, w.sessions[s], a);
            s in w'.sessions && w'.sessions[s].box == c.box &&
            forall o :: o in w'.sessions[s].mails ==> o in c.mails || o !in w.db.owner
  {
  }

  lemma EndMails(w: World, s: Sid, a: Action)
    requires Enabled(w, Act(s, a)) && !IsSave(a)
    ensures var c, w' := w.sessions[s], Apply(w, s, w.sessions[s], a);
            s in w'.sessions ==> w'.sessions[s].box == c.box && w'.sessions[s].mails == c.mails
  {
  }

  lemma SaveBoxed(w: World, s: Sid, a: Action, t: Sid)
    requires Base(w.db) && Enabled(w, Act(s, a)) && IsSave(a) && CtxOk(w.db, s, w.sessions[s])
    requires t in w.sessions && MailsBoxed(w.db, t, w.sessions[t])
    ensures var w' := Apply(w, s, w.sessions[s], a); t in w'.sessions && MailsBoxed(w'.db, t, w'.sessions[t])
  {
    var w' := Apply(w, s, w.sessions[s], a);
    SaveMails(w, s, a);
    if t != s { assert t in w'.sessions && w'.sessions[t] == w.sessions[t]; }
    forall o | o in w'.sessions[t].mails && o in w'.db.owner && w'.db.owner[o] == Pending(t)
      ensures InBox(w'.db, o, w'.sessions[t].box)
    {
      SavePendingBefore(w, s, a, o, t);
      if t == s { SaveOwnBox(w, s, a, o); } else { SaveForeign(w, s, a, o, w.sessions[t].box); }
    }
  }

  lemma EndBoxed(w: World, s: Sid, a: Action, t: Sid)
    requires Enabled(w, Act(s, a)) && !IsSave(a) && t in w.sessions && MailsBoxed(w.db, t, w.sessions[t])
    ensures var w' := Apply(w, s, w.sessions[s], a); t in w'.sessions ==> MailsBoxed(w'.db, t, w'.sessions[t])
  {
    var w' := Apply(w, s, w.sessions[s], a);
    if t in w'.sessions {
      if t == s { EndMails(w, s, a); } else { OtherSession(w, s, a, t); }
      forall o | o in w'.sessions[t].mails && o in w'.db.owner && w'.db.owner[o] == Pending(t)
        ensures InBox(w'.db, o, w'.sessions[t].box)
      {
        EndPendingBefore(w, s, a, o, t);
        EndAnyBox(w, s, a, o, w.sessions[t].box);
      }
    }
  }

  /** The records an index commit adds are those of the mailbox of its mails. */
  lemma PublishBoxed(w: World, s: Sid)
    requires Enabled(w, Act(s, Publish(true))) && CtxOk(w.db, s, w.sessions[s])
    requires RecordsBoxed(w.db) && MailsBoxed(w.db, s, w.sessions[s])
    ensures RecordsBoxed(Apply(w, s, w.sessions[s], Publish(true)).db)
  {
    var c := w.sessions[s];
    var d' := Apply(w, s, c, Publish(true)).db;
    forall r | r in d'.records
      ensures InBox(d', r.oid, r.box)
    {
      if r !in w.db.records { NewRecordOk(w.db, s, c, r); }
    }
  }

  lemma ActRecordsBoxed(w: World, s: Sid, a: Action)
    requires Recorded(w.db) && Enabled(w, Act(s, a)) && CtxOk(w.db, s, w.sessions[s])
    requires RecordsBoxed(w.db) && MailsBoxed(w.db, s, w.sessions[s])
    ensures RecordsBoxed(Apply(w, s, w.sessions[s], a).db)
  {
    var d' := Apply(w, s, w.sessions[s], a).db;
    if a == Publish(true) {
      PublishBoxed(w, s);
    } else if IsSave(a) {
      SaveKeeps(w, s, w.sessions[s], a);
      forall r | r in d'.records
        ensures InBox(d', r.oid, r.box)
      {
        assert WholeIn(w.db, r.oid) && SameOid(w.db, d', r.oid);
      }
    } else {
      forall r | r in d'.records
        ensures InBox(d', r.oid, r.box)
      {
        RecordsChange(w, Act(s, a), r);
        EndAnyBox(w, s, a, r.oid, r.box);
      }
    }
  }

  lemma RebuildBoxed(d: Db, records: seq<Record>, nextUid: map<BoxId, nat>)
    requires RecordsOk(records, nextUid)
    ensures RecordsBoxed(Rebuilt(d, records, nextUid))
  {
    forall r | r in records
      ensures InBox(Rebuilt(d, records, nextUid), r.oid, r.box)
    {
      LookupUnique(records, nextUid, r);
    }
  }

  lemma ActBoxed(w: World, s: Sid, a: Action)
    requires FullInv(w) && BoxInv(w) && Enabled(w, Act(s, a))
    ensures BoxInv(Apply(w, s, w.sessions[s], a))
  {
    var w' := Apply(w, s, w.sessions[s], a);
    assert CtxOk(w.db, s, w.sessions[s]) && MailsBoxed(w.db, s, w.sessions[s]);
    ActRecordsBoxed(w, s, a);
    forall t | t in w'.sessions
      ensures MailsBoxed(w'.db, t, w'.sessions[t])
    {
      if t != s { OtherSession(w, s, a, t); }
      assert MailsBoxed(w.db, t, w.sessions[t]);
      if IsSave(a) { SaveBoxed(w, s, a, t); } else { EndBoxed(w, s, a, t); }
    }
  }

  lemma StepBoxed(w: World, e: Event)
    requires FullInv(w) && BoxInv(w) && Enabled(w, e) && !e.Repair?
    ensures BoxInv(Step(w, e))
  {
    match e
    case Alloc(s, box) => AllocBoxed(w, s, box);
    case Act(s, a) => ActBoxed(w, s, a);
    case Rebuild(_, records, nextUid) => RebuildBoxed(w.db, records, nextUid);
  }

  lemma AllocBoxed(w: World, s: Sid, box: BoxId)
    requires BoxInv(w) && Enabled(w, Alloc(s, box))
    ensures BoxInv(StepAlloc(w, s, box))
  {
    var w' := StepAlloc(w, s, box);
    forall t | t in w'.sessions
      ensures MailsBoxed(w'.db, t, w'.sessions[t])
    {
      if t in w.sessions { assert MailsBoxed(w.db, t, w.sessions[t]); }
    }
  }

  lemma {:induction false} ReachableBoxed(t: Run, i: nat)
    requires GoodRun(t) && FullRebuilds(t) && i <= |t.es|
    ensures BoxInv(t.ws[i])
  {
    if i > 0 {
      ReachableBoxed(t, i - 1);
      ReachableFull(t, i - 1);
      assert Linked(t, i - 1) && t.es[i - 1] in t.es;
      StepBoxed(t.ws[i - 1], t.es[i - 1]);
    }
  }

  // ----- the bytes -----

  /** The session that receives `oid` is sent bytes. */
  predicate Sends(w: World, e: Event, oid: Oid) {
    && e.Act? && e.a.Continue? && e.s in w.sessions
    && w.sessions[e.s].phase.Receiving? && w.sessions[e.s].phase.oid == oid
  }

  /** `oid` becomes a copy of another object. */
  predicate Copies(w: World, e: Event, oid: Oid) {
    e.Act? && e.a.Copy? && e.a.oid == oid && e.a.ok && e.a.src in w.db.store
  }

  predicate Begins(e: Event, oid: Oid) { e.Act? && e.a.Begin? && e.a.oid == oid && e.a.connected }

  /** The mail for `oid` as the clients sent it: the bytes of its save calls, or of the mail it was copied from. */
  ghost function Sent(t: Run, i: nat, oid: Oid): seq<byte>
    requires i <= |t.es|
    decreases i
  {
    if i == 0 then []
    else
      var w, e := t.ws[i - 1], t.es[i - 1];
      if Begins(e, oid) then []
      else if Sends(w, e, oid) then Sent(t, i - 1, oid) + e.a.bytes
      else if Copies(w, e, oid) then Sent(t, i - 1, e.a.src)
      else Sent(t, i - 1, oid)
  }

  /** How one step changes what an oid was meant for. */
  ghost predicate WholeFollows(w: World, e: Event, w': World, oid: Oid) {
    oid in w'.db.whole ==>
      if Begins(e, oid) then w'.db.whole[oid] == []
      else if Sends(w, e, oid) then
        w'.db.whole[oid] == (if oid in w.db.whole then w.db.whole[oid] else []) + e.a.bytes
      else if Copies(w, e, oid) then e.a.src in w.db.whole && w'.db.whole[oid] == w.db.whole[e.a.src]
      else oid in w.db.whole && w'.db.whole[oid] == w.db.whole[oid]
  }

  lemma SaveWhole(w: World, s: Sid, a: Action, oid: Oid)
    requires Enabled(w, Act(s, a)) && IsSave(a)
    ensures WholeFollows(w, Act(s, a), Apply(w, s, w.sessions[s], a), oid)
  {
  }

  lemma EndWhole(w: World, s: Sid, a: Action, oid: Oid)
    requires Enabled(w, Act(s, a)) && !IsSave(a)
    ensures WholeFollows(w, Act(s, a), Apply(w, s, w.sessions[s], a), oid)
  {
  }

  lemma StepWhole(w: World, e: Event, oid: Oid)
    requires Enabled(w, e)
    ensures WholeFollows(w, e, Step(w, e), oid)
  {
    if e.Act? {
      if IsSave(e.a) { SaveWhole(w, e.s, e.a, oid); } else { EndWhole(w, e.s, e.a, oid); }
    }
  }

  /** In every run whatsoever the mail an oid is meant for consists of the bytes the clients sent. */
  lemma {:induction false} WholeIsSent(t: Run, i: nat, oid: Oid)
    requires t.ws[0] == EMPTY && i <= |t.es|
    ensures (if oid in t.ws[i].db.whole then t.ws[i].db.whole[oid] else []) == Sent(t, i, oid)
    decreases i
  {
    if i > 0 {
      var w, e := t.ws[i - 1], t.es[i - 1];
      WholeIsSent(t, i - 1, oid);
      if Copies(w, e, oid) { WholeIsSent(t, i - 1, e.a.src); }
      assert Linked(t, i - 1);
      StepWhole(w, e, oid);
    }
  }

  // ----- a record and its object -----

  /**
   At every point of every disciplined run each record names an object that holds the bytes the client sent and the
   UID of the record. It has metadata iff the metadata operation of its save succeeded or it is a copy of an object
   that had metadata, and then its mailbox attribute is the mailbox of the record.
   */
  lemma RecordIsComplete(t: Run, i: nat, r: Record)
    requires GoodRun(t) && FullRebuilds(t) && i <= |t.es| && r in t.ws[i].db.records
    ensures r.oid in t.ws[i].db.store
    ensures var o := t.ws[i].db.store[r.oid];
            && o.data == Sent(t, i, r.oid) && o.uid == Some(r.uid)
            && (o.meta <==> exists k :: 0 <= k < i && GivesMeta(t.ws[k], t.es[k], r.oid))
            && (o.meta ==> o.box == r.box)
  {
    DurableAtEveryStep(t, i);
    assert WholeIn(t.ws[i].db, r.oid);
    WholeIsSent(t, i, r.oid);
    MetaIff(t, i, r.oid);
    ReachableBoxed(t, i);
    assert InBox(t.ws[i].db, r.oid, r.box);
  }
}
