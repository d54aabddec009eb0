/** Rebuilding from the recovery index finds the same mails as rebuilding from a listing of the namespace. */
module RecoveryTheorem {
  import opened Rados
  import opened RecoveryIndex
  import opened SaveProtocol
  import opened SaveInvariant
  import opened SaveRecords
  import opened SaveTheorems

  /** Search method 2 in use, its index writes succeeding, and no copy: `copy_mail` does not append to the index. */
  predicate Indexing(e: Event) {
    e.Act? ==> (e.a.Copy? ==> !e.a.ok) && (e.a.FinishEnd? ==> e.a.indexed)
  }

  ghost predicate StoreIndexed(d: Db, idx: set<Oid>) {
    && (forall o :: o in idx ==> o in d.owner)
    && (forall o :: o in d.store && Valid(d.store[o]) ==> o in idx)
  }

  ghost predicate CtxIndexed(c: Ctx, idx: set<Oid>) {
    forall i :: 0 <= i < |c.mails| && i < |c.outcomes| && c.outcomes[i] == Stored ==> c.mails[i] in idx
  }

  ghost predicate IndexInv(w: World) {
    && WellFormed(w.index)
    && StoreIndexed(w.db, OidSet(w.index))
    && forall s :: s in w.sessions ==> CtxIndexed(w.sessions[s], OidSet(w.index))
  }

  /** What a step must do to keep the invariant: the index may grow, the other contexts stay. */
  ghost predicate KeepsIndexed(w: World, w': World, s: Sid) {
    && WellFormed(w'.index) && OidSet(w.index) <= OidSet(w'.index)
    && StoreIndexed(w'.db, OidSet(w'.index))
    && (forall t :: t in w'.sessions && t != s ==> t in w.sessions && w'.sessions[t] == w.sessions[t])
    && (s in w'.sessions ==> CtxIndexed(w'.sessions[s], OidSet(w'.index)))
  }

  lemma SavedIndexed(d: Db, s: Sid, c: Ctx, idx: set<Oid>)
    requires CtxOk(d, s, c) && c.phase.Writing? && CtxIndexed(c, idx)
    ensures CtxIndexed(EndSave(c, true), idx + {c.phase.oid})
    ensures c.phase.oid in d.owner
  {
    assert c.mails[|c.mails| - 1] == c.phase.oid;
  }

  lemma FinishEndIndexed(w: World, s: Sid, c: Ctx)
    requires Base(w.db) && CtxOk(w.db, s, c) && c.phase.Writing? && WellFormed(w.index)
    requires StoreIndexed(w.db, OidSet(w.index)) && CtxIndexed(c, OidSet(w.index))
    ensures KeepsIndexed(w, StepFinishEnd(w, s, c, true), s)
  {
    SavedIndexed(w.db, s, c, OidSet(w.index));
    LineIsOid(c.phase.oid);
    AppendAdds(w.index, Line(c.phase.oid));
  }

  lemma WritesIndexed(w: World, s: Sid, c: Ctx, a: Action)
    requires Base(w.db) && CtxOk(w.db, s, c) && Allowed(w, c, a) && (a.Finish? || a.WriteChunk?) && WellFormed(w.index)
    requires StoreIndexed(w.db, OidSet(w.index)) && CtxIndexed(c, OidSet(w.index))
    ensures KeepsIndexed(w, Apply(w, s, c, a), s)
  {
    match a
    case Finish(_, _, _, _) =>
    case WriteChunk(_) =>
  }

  lemma SaveIndexed(w: World, s: Sid, c: Ctx, a: Action)
    requires Base(w.db) && CtxOk(w.db, s, c) && Allowed(w, c, a) && WellFormed(w.index)
    requires a.Begin? || a.Continue? || a.Cancel? || (a.Copy? && !a.ok)
    requires StoreIndexed(w.db, OidSet(w.index)) && CtxIndexed(c, OidSet(w.index))
    ensures KeepsIndexed(w, Apply(w, s, c, a), s)
  {
    match a
    case Begin(_, _) =>
    case Continue(_, _) =>
    case Cancel =>
    case Copy(_, _, _) =>
  }

  /** The U attribute makes an object valid, and only stored mails receive one. */
  lemma AssignIndexed(w: World, s: Sid, c: Ctx, ok: bool)
    requires CtxOk(w.db, s, c) && Allowed(w, c, AssignUid(ok)) && WellFormed(w.index)
    requires StoreIndexed(w.db, OidSet(w.index)) && CtxIndexed(c, OidSet(w.index))
    ensures KeepsIndexed(w, Apply(w, s, c, AssignUid(ok)), s)
  {
    var done := c.phase.done;
    assert c.outcomes[done] == Stored;
  }

  lemma EndIndexed(w: World, s: Sid, c: Ctx, a: Action)
    requires Allowed(w, c, a) && !IsSave(a) && !a.AssignUid? && WellFormed(w.index)
    requires StoreIndexed(w.db, OidSet(w.index)) && CtxIndexed(c, OidSet(w.index))
    ensures KeepsIndexed(w, Apply(w, s, c, a), s)
  {
    match a
    case CommitPre(_, _) =>
    case Publish(_) =>
    case SyncFinish(_) =>
    case Remove(_) =>
    case EndSync =>
    case Clean(_) =>
    case EndClean =>
    case Rollback =>
    case Crash =>
  }

  lemma ActIndexed(w: World, s: Sid, a: Action)
    requires Inv(w) && IndexInv(w) && Enabled(w, Act(s, a)) && Indexing(Act(s, a))
    ensures KeepsIndexed(w, Apply(w, s, w.sessions[s], a), s)
  {
    var c := w.sessions[s];
    if a.FinishEnd? {
      FinishEndIndexed(w, s, c);
    } else if a.Finish? || a.WriteChunk? {
      WritesIndexed(w, s, c, a);
    } else if a.AssignUid? {
      AssignIndexed(w, s, c, a.ok);
    } else if IsSave(a) {
      SaveIndexed(w, s, c, a);
    } else {
      EndIndexed(w, s, c, a);
    }
  }

  lemma KeptIndexInv(w: World, w': World, s: Sid)
    requires IndexInv(w) && KeepsIndexed(w, w', s)
    ensures IndexInv(w')
  {
  }

  lemma RebuildIndexed(w: World, text: string, records: seq<Record>, nextUid: map<BoxId, nat>)
    requires Base(w.db) && IndexInv(w) && w.sessions == map[] && RebuildResult(w, text, records, nextUid)
    ensures IndexInv(StepRebuild(w, text, records, nextUid))
  {
    var d' := Rebuilt(w.db, records, nextUid);
    forall o | o in d'.store && Valid(d'.store[o])
      ensures o in OidSet(text)
    {
      if Lookup(records, o).Some? { assert Lookup(records, o).value in records; }
    }
  }

  lemma RepairIndexed(w: World, store: map<Oid, Object>, text: string, records: seq<Record>, nextUid: map<BoxId, nat>)
    requires Base(w.db) && IndexInv(w) && w.sessions == map[] && RepairResult(w, store, text, records)
    ensures IndexInv(StepRepair(w, store, text, records, nextUid))
  {
    forall o | o in store && Valid(store[o])
      ensures o in OidSet(text)
    {
      assert Valid(w.db.store[o]);
    }
  }

  lemma StepIndexed(w: World, e: Event)
    requires Inv(w) && IndexInv(w) && Enabled(w, e) && Indexing(e)
    ensures IndexInv(Step(w, e))
  {
    match e
    case Alloc(s, box) =>
    case Act(s, a) =>
      ActIndexed(w, s, a);
      KeptIndexInv(w, Step(w, e), s);
    case Rebuild(text, records, nextUid) => RebuildIndexed(w, text, records, nextUid);
    case Repair(store, text, records, nextUid) => RepairIndexed(w, store, text, records, nextUid);
  }

  lemma EmptyIndexed()
    ensures IndexInv(EMPTY)
  {
  }

  lemma LinkIndexed(t: Run, i: nat)
    requires i < |t.es| && Inv(t.ws[i]) && IndexInv(t.ws[i]) && Indexing(t.es[i])
    ensures IndexInv(t.ws[i + 1])
  {
    assert Linked(t, i);
    StepIndexed(t.ws[i], t.es[i]);
  }

  lemma {:induction false} RunIndexed(t: Run, i: nat)
    requires GoodRun(t) && i <= |t.es| && (forall e :: e in t.es ==> Indexing(e))
    ensures IndexInv(t.ws[i])
  {
    if i == 0 {
      EmptyIndexed();
    } else {
      RunIndexed(t, i - 1);
      ReachableInv(t, i - 1);
      LinkIndexed(t, i - 1);
    }
  }

  /** Over every such run, with crashes and with forced rebuilds however they ended, both ways to find the mails load
      the same objects. */
  lemma IndexFindsAllMails(t: Run, i: nat)
    requires GoodRun(t) && i <= |t.es| && (forall e :: e in t.es ==> Indexing(e))
    ensures var w := t.ws[i]; Loaded(w.db.store, OidSet(w.index)) == Loaded(w.db.store, w.db.store.Keys)
  {
    RunIndexed(t, i);
  }

  /** A successful copy keeps the two in agreement exactly when the source has no valid metadata. */
  lemma CopyKeepsAgreementIff(w: World, s: Sid, src: Oid, oid: Oid)
    requires Inv(w) && IndexInv(w) && Enabled(w, Act(s, Copy(src, oid, true))) && src in w.db.store
    ensures var w' := Step(w, Act(s, Copy(src, oid, true)));
            Loaded(w'.db.store, OidSet(w'.index)) == Loaded(w'.db.store, w'.db.store.Keys) <==> !Valid(w.db.store[src])
  {
    var c := w.sessions[s];
    var w' := StepCopy(w, s, c, src, oid, true);
    assert oid !in OidSet(w.index);
    assert w'.db.store[oid] == w.db.store[src].(box := c.box);
    if Valid(w.db.store[src]) {
      assert oid in Loaded(w'.db.store, w'.db.store.Keys);
    } else {
      assert forall o :: o in Loaded(w'.db.store, w'.db.store.Keys) ==> o in OidSet(w.index);
    }
  }

  /** A committed mail is still in the index after a rebuild exactly when its save could write the metadata. */
  lemma RecordSurvivesRebuildIff(w: World, text: string, records: seq<Record>, nextUid: map<BoxId, nat>, r: Record)
    requires FullInv(w) && IndexInv(w) && Enabled(w, Rebuild(text, records, nextUid)) && r in w.db.records
    ensures (exists r' :: r' in Step(w, Rebuild(text, records, nextUid)).db.records && r'.oid == r.oid)
            <==> w.db.store[r.oid].meta
  {
    assert WholeIn(w.db, r.oid) && w.db.store[r.oid].uid.Some?;
    assert r.oid in Loaded(w.db.store, OidSet(w.index)) <==> w.db.store[r.oid].meta;
  }
}
