/** A commit or a rollback that runs to its end without further faults: exactly when it keeps its promise. */
module CommitExactness {
  import opened Rados
  import opened SaveProtocol
  import opened SaveInvariant
  import opened SaveRecords

  // ----- single steps, spelled out -----

  lemma AssignStep(w: World, s: Sid, c: Ctx, k: nat)
    requires s in w.sessions && w.sessions[s] == c.(phase := Assigning(k)) && k < |c.mails|
    ensures Enabled(w, Act(s, AssignUid(true)))
    ensures Step(w, Act(s, AssignUid(true)))
              == PutDb(w, s, c.(phase := Assigning(k + 1)), WithUid(w.db, c.mails[k], NextUid(w.db.nextUid, c.box) + k))
  {
  }

  lemma CleanStep(w: World, s: Sid, c: Ctx, todo: seq<Oid>)
    requires s in w.sessions && w.sessions[s] == c.(phase := CleaningUp(todo)) && todo != []
    ensures Enabled(w, Act(s, Clean(true)))
    ensures Step(w, Act(s, Clean(true))) == PutDb(w, s, c.(phase := CleaningUp(todo[1..])),
              Removed(w.db, todo[0], true))
  {
  }

  lemma StartStep(w: World, s: Sid, c: Ctx, queue: seq<Oid>)
    requires s in w.sessions && w.sessions[s] == c && Enabled(w, Act(s, CommitPre(true, queue)))
    ensures Step(w, Act(s, CommitPre(true, queue))) == Put(w, s, c.(expunged := queue, phase := Assigning(0)))
  {
  }

  lemma RemoveStep(w: World, s: Sid, c: Ctx, queue: seq<Oid>, ok: bool)
    requires s in w.sessions && w.sessions[s] == c.(phase := Removing(queue)) && queue != []
    ensures Enabled(w, Act(s, Remove(ok)))
    ensures Step(w, Act(s, Remove(ok))) == PutDb(w, s, c.(phase := Removing(queue[1..])), Removed(w.db, queue[0], ok))
  {
  }

  lemma RollbackStep(w: World, s: Sid, c: Ctx)
    requires s in w.sessions && w.sessions[s] == c && (c.phase.Ready? || c.phase.Receiving? || c.phase.Unconnected?)
    ensures Enabled(w, Act(s, Rollback))
    ensures Step(w, Act(s, Rollback)) == EndTransaction(w, s, c.(failed := c.failed || !c.finished))
  {
  }

  lemma NextWorld(t: Run, i: nat)
    requires i < |t.es|
    ensures Enabled(t.ws[i], t.es[i]) && t.ws[i + 1] == Step(t.ws[i], t.es[i])
  {
    assert Linked(t, i);
  }

  // ----- the loops over the mails of a transaction -----

  /** `d` after the U attributes of the first `k` mails were written. */
  function Assigned(d: Db, c: Ctx, k: nat): Db
    requires k <= |c.mails|
  {
    if k == 0 then d
    else WithUid(Assigned(d, c, k - 1), c.mails[k - 1], NextUid(d.nextUid, c.box) + (k - 1))
  }

  ghost predicate SameAt(d: Db, d': Db, o: Oid) {
    (o in d'.store <==> o in d.store) && (o in d.store ==> d'.store[o] == d.store[o])
  }

  ghost predicate UidAt(d: Db, d': Db, o: Oid, uid: nat) {
    o in d'.store && d'.store[o].data == ObjectAt(d.store, o).data && d'.store[o].uid == Some(uid)
  }

  /** Only attributes change, and a missing object appears empty. */
  ghost predicate AssignedOk(d: Db, d': Db, c: Ctx, k: nat)
    requires k <= |c.mails|
  {
    && d'.records == d.records && d'.nextUid == d.nextUid && d'.whole == d.whole
    && (forall i :: 0 <= i < k ==> UidAt(d, d', c.mails[i], NextUid(d.nextUid, c.box) + i))
    && (forall i :: k <= i < |c.mails| ==> SameAt(d, d', c.mails[i]))
    && (forall o :: o !in c.mails ==> SameAt(d, d', o))
  }

  lemma OneMoreAssigned(d: Db, d1: Db, c: Ctx, k: nat)
    requires 0 < k <= |c.mails| && Distinct(c.mails) && AssignedOk(d, d1, c, k - 1)
    ensures AssignedOk(d, WithUid(d1, c.mails[k - 1], NextUid(d.nextUid, c.box) + (k - 1)), c, k)
  {
    var oid := c.mails[k - 1];
    var d' := WithUid(d1, oid, NextUid(d.nextUid, c.box) + (k - 1));
    assert forall o :: o != oid ==> SameAt(d1, d', o);
    forall i | 0 <= i < k
      ensures UidAt(d, d', c.mails[i], NextUid(d.nextUid, c.box) + i)
    {
      if i < k - 1 {
        assert UidAt(d, d1, c.mails[i], NextUid(d.nextUid, c.box) + i) && SameAt(d1, d', c.mails[i]);
      } else {
        assert SameAt(d, d1, oid);
      }
    }
    forall i | k <= i < |c.mails|
      ensures SameAt(d, d', c.mails[i])
    {
      assert SameAt(d, d1, c.mails[i]) && SameAt(d1, d', c.mails[i]);
    }
    forall o | o !in c.mails
      ensures SameAt(d, d', o)
    {
      assert SameAt(d, d1, o) && SameAt(d1, d', o);
    }
  }

  lemma {:induction false} AssignedFacts(d: Db, c: Ctx, k: nat) returns (d': Db)
    requires k <= |c.mails| && Distinct(c.mails)
    ensures d' == Assigned(d, c, k) && AssignedOk(d, d', c, k)
  {
    if k == 0 {
      d' := d;
    } else {
      var d1 := AssignedFacts(d, c, k - 1);
      OneMoreAssigned(d, d1, c, k);
      d' := WithUid(d1, c.mails[k - 1], NextUid(d.nextUid, c.box) + (k - 1));
    }
  }

  lemma {:induction false} AssignPhase(t: Run, at: nat, s: Sid, c: Ctx, k: nat)
    requires k <= |c.mails| && at + |c.mails| <= |t.es|
    requires forall i :: at <= i < at + |c.mails| ==> t.es[i] == Act(s, AssignUid(true))
    requires s in t.ws[at].sessions && t.ws[at].sessions[s] == c.(phase := Assigning(0))
    ensures s in t.ws[at + k].sessions && t.ws[at + k].sessions[s] == c.(phase := Assigning(k))
    ensures t.ws[at + k].db == Assigned(t.ws[at].db, c, k) && t.ws[at + k].db.nextUid == t.ws[at].db.nextUid
  {
    if k > 0 {
      AssignPhase(t, at, s, c, k - 1);
      AssignLink(t, at + k - 1, s, c, k - 1);
    }
  }

  lemma AssignLink(t: Run, i: nat, s: Sid, c: Ctx, k: nat)
    requires i < |t.es| && t.es[i] == Act(s, AssignUid(true)) && k < |c.mails|
    requires s in t.ws[i].sessions && t.ws[i].sessions[s] == c.(phase := Assigning(k))
    ensures s in t.ws[i + 1].sessions && t.ws[i + 1].sessions[s] == c.(phase := Assigning(k + 1))
    ensures t.ws[i + 1].db == WithUid(t.ws[i].db, c.mails[k], NextUid(t.ws[i].db.nextUid, c.box) + k)
  {
    NextWorld(t, i);
    AssignStep(t.ws[i], s, c, k);
  }

  ghost predicate Purged(d: Db, d': Db, oids: seq<Oid>) {
    && d' == d.(store := d'.store)
    && (forall o :: o in d'.store <==> o in d.store && o !in oids)
    && (forall o :: o in d'.store ==> d'.store[o] == d.store[o])
  }

  lemma OneMorePurged(d: Db, d1: Db, oids: seq<Oid>, oid: Oid)
    requires Purged(d, d1, oids)
    ensures Purged(d, Removed(d1, oid, true), oids + [oid])
  {
  }

  lemma {:induction false} CleanPhase(t: Run, at: nat, s: Sid, c: Ctx, k: nat)
    requires k <= |c.mails| && at + |c.mails| <= |t.es|
    requires forall i :: at <= i < at + |c.mails| ==> t.es[i] == Act(s, Clean(true))
    requires s in t.ws[at].sessions && t.ws[at].sessions[s] == c.(phase := CleaningUp(c.mails))
    ensures s in t.ws[at + k].sessions && t.ws[at + k].sessions[s] == c.(phase := CleaningUp(c.mails[k..]))
    ensures Purged(t.ws[at].db, t.ws[at + k].db, c.mails[..k])
  {
    if k > 0 {
      CleanPhase(t, at, s, c, k - 1);
      CleanLink(t, at + k - 1, s, c, c.mails[k - 1..]);
      OneMorePurged(t.ws[at].db, t.ws[at + k - 1].db, c.mails[..k - 1], c.mails[k - 1]);
      assert c.mails[..k] == c.mails[..k - 1] + [c.mails[k - 1]];
    }
  }

  lemma CleanLink(t: Run, i: nat, s: Sid, c: Ctx, todo: seq<Oid>)
    requires i < |t.es| && t.es[i] == Act(s, Clean(true)) && todo != []
    requires s in t.ws[i].sessions && t.ws[i].sessions[s] == c.(phase := CleaningUp(todo))
    ensures s in t.ws[i + 1].sessions && t.ws[i + 1].sessions[s] == c.(phase := CleaningUp(todo[1..]))
    ensures t.ws[i + 1].db == Removed(t.ws[i].db, todo[0], true)
  {
    NextWorld(t, i);
    CleanStep(t.ws[i], s, c, todo);
  }

  // ----- rollback -----

  /** The end of `rbox_transaction_save_rollback` from event `at` on, with every removal succeeding. */
  ghost predicate IsEnding(es: seq<Event>, at: nat, s: Sid, n: nat, failed: bool) {
    if failed then
      && |es| == at + n + 1
      && (forall i :: at <= i < at + n ==> es[i] == Act(s, Clean(true)))
      && es[at + n] == Act(s, EndClean)
    else |es| == at
  }

  lemma EndCleanStep(w: World, s: Sid, c: Ctx)
    requires s in w.sessions && w.sessions[s] == c && c.phase == CleaningUp([])
    ensures Enabled(w, Act(s, EndClean)) && Step(w, Act(s, EndClean)).db == w.db
  {
  }

  lemma CleanedUp(t: Run, at: nat, s: Sid, c: Ctx)
    requires at <= |t.es| && IsEnding(t.es, at, s, |c.mails|, true)
    requires s in t.ws[at].sessions && t.ws[at].sessions[s] == c.(phase := CleaningUp(c.mails))
    ensures Purged(t.ws[at].db, t.ws[|t.es|].db, c.mails)
  {
    var n := |c.mails|;
    CleanPhase(t, at, s, c, n);
    assert c.mails[..n] == c.mails && c.mails[n..] == [];
    LastClean(t, s, c);
  }

  lemma LastClean(t: Run, s: Sid, c: Ctx)
    requires t.es != [] && t.es[|t.es| - 1] == Act(s, EndClean)
    requires var w := t.ws[|t.es| - 1]; s in w.sessions && w.sessions[s] == c.(phase := CleaningUp([]))
    ensures t.ws[|t.es|].db == t.ws[|t.es| - 1].db
  {
    NextWorld(t, |t.es| - 1);
    EndCleanStep(t.ws[|t.es| - 1], s, c.(phase := CleaningUp([])));
  }

  lemma EndingEffect(t: Run, at: nat, s: Sid, c: Ctx, w: World)
    requires at <= |t.es| && IsEnding(t.es, at, s, |c.mails|, c.failed)
    requires t.ws[at] == EndTransaction(w, s, c)
    ensures Purged(w.db, t.ws[|t.es|].db, if c.failed then c.mails else [])
  {
    if c.failed { CleanedUp(t, at, s, c); }
  }

  /**
   A rollback leaves no object of the transaction behind exactly when the context is marked failed or
   unfinished, or nothing was stored: the objects of a transaction whose saves all succeeded stay.
   */
  lemma RollbackLeavesNothingIff(t: Run, s: Sid, c: Ctx)
    requires s in t.ws[0].sessions && t.ws[0].sessions[s] == c
    requires c.phase.Ready? || c.phase.Receiving? || c.phase.Unconnected?
    requires |t.es| > 0 && t.es[0] == Act(s, Rollback) && IsEnding(t.es, 1, s, |c.mails|, c.failed || !c.finished)
    ensures (forall o :: o in c.mails ==> o !in t.ws[|t.es|].db.store)
            <==> c.failed || !c.finished || forall o :: o in c.mails ==> o !in t.ws[0].db.store
  {
    NextWorld(t, 0);
    RollbackStep(t.ws[0], s, c);
    EndingEffect(t, 1, s, c.(failed := c.failed || !c.finished), t.ws[0]);
  }

  // ----- commit -----

  /** `commit_pre`, the index commit and `commit_post` of a transaction of `n` mails that also expunges `queue`. */
  ghost predicate IsCommit(es: seq<Event>, s: Sid, n: nat, queue: seq<Oid>, failed: bool) {
    var q := |queue|;
    && |es| >= n + q + 4
    && es[0] == Act(s, CommitPre(true, queue))
    && (forall i :: 1 <= i < 1 + n ==> es[i] == Act(s, AssignUid(true)))
    && IsTail(es, n + 1, s, n, q, failed)
  }

  /** From the index commit on; objects of the queue may or may not be removed. */
  ghost predicate IsTail(es: seq<Event>, at: nat, s: Sid, n: nat, q: nat, failed: bool) {
    && |es| >= at + q + 3
    && es[at] == Act(s, Publish(true)) && es[at + 1] == Act(s, SyncFinish(true))
    && (forall i :: at + 2 <= i < at + 2 + q ==> IsRemove(es[i], s))
    && es[at + 2 + q] == Act(s, EndSync)
    && IsEnding(es, at + 3 + q, s, n, failed)
  }

  predicate IsRemove(e: Event, s: Sid) { e.Act? && e.s == s && e.a.Remove? }

  /** Some objects of the queue are gone. */
  ghost predicate Thinned(d: Db, d': Db, queue: seq<Oid>) {
    && d' == d.(store := d'.store)
    && (forall o :: o in d'.store ==> o in d.store && d'.store[o] == d.store[o])
    && (forall o :: o in d.store && o !in queue ==> o in d'.store)
  }

  lemma OneMoreThinned(d: Db, d1: Db, queue: seq<Oid>, oid: Oid, ok: bool)
    requires Thinned(d, d1, queue) && oid in queue
    ensures Thinned(d, Removed(d1, oid, ok), queue)
  {
  }

  lemma {:induction false} RemovePhase(t: Run, at: nat, s: Sid, c: Ctx, queue: seq<Oid>, k: nat)
    requires k <= |queue| && at + |queue| <= |t.es|
    requires forall i :: at <= i < at + |queue| ==> IsRemove(t.es[i], s)
    requires s in t.ws[at].sessions && t.ws[at].sessions[s] == c.(phase := Removing(queue))
    ensures s in t.ws[at + k].sessions && t.ws[at + k].sessions[s] == c.(phase := Removing(queue[k..]))
    ensures Thinned(t.ws[at].db, t.ws[at + k].db, queue)
  {
    if k > 0 {
      RemovePhase(t, at, s, c, queue, k - 1);
      NextWorld(t, at + k - 1);
      var ok := t.es[at + k - 1].a.ok;
      RemoveStep(t.ws[at + k - 1], s, c, queue[k - 1..], ok);
      OneMoreThinned(t.ws[at].db, t.ws[at + k - 1].db, queue, queue[k - 1], ok);
      assert queue[k - 1..][1..] == queue[k..];
    }
  }

  lemma PublishSteps(w: World, s: Sid, c: Ctx) returns (w2: World)
    requires s in w.sessions && w.sessions[s] == c && c.phase == Assigning(|c.mails|)
    ensures var w1 := PutDb(w, s, c.(phase := Synced(true)), Published(w.db, c.box, c.appended));
            && Enabled(w, Act(s, Publish(true))) && Step(w, Act(s, Publish(true))) == w1
            && Enabled(w1, Act(s, SyncFinish(true))) && Step(w1, Act(s, SyncFinish(true))) == w2
    ensures s in w2.sessions && w2.sessions[s] == c.(phase := Removing(c.expunged))
    ensures w2.db.store == w.db.store && w2.db.whole == w.db.whole
    ensures w2.db.records ==
            Remaining(w.db.records + NewRecords(c.box, NextUid(w.db.nextUid, c.box), c.appended), c.box, c.expunged)
  {
    var w1 := PutDb(w, s, c.(phase := Synced(true)), Published(w.db, c.box, c.appended));
    w2 := Step(w1, Act(s, SyncFinish(true)));
  }

  lemma {:induction false} RemainingAll(records: seq<Record>, box: BoxId)
    ensures Remaining(records, box, []) == records
  {
    if records != [] {
      var n := |records| - 1;
      RemainingAll(records[..n], box);
      assert records == records[..n] + [records[n]];
    }
  }

  lemma EndSyncStep(w: World, s: Sid, c: Ctx)
    requires s in w.sessions && w.sessions[s] == c && c.phase == Removing([])
    ensures Enabled(w, Act(s, EndSync)) && Step(w, Act(s, EndSync)) == EndTransaction(w, s, c)
  {
  }

  lemma HeadEffect(t: Run, s: Sid, c: Ctx, queue: seq<Oid>)
    requires s in t.ws[0].sessions && t.ws[0].sessions[s] == c && c.phase.Ready?
    requires IsCommit(t.es, s, |c.mails|, queue, c.failed)
    ensures s in t.ws[|c.mails| + 1].sessions
    ensures t.ws[|c.mails| + 1].sessions[s] == c.(expunged := queue, phase := Assigning(|c.mails|))
    ensures t.ws[|c.mails| + 1].db == Assigned(t.ws[0].db, c, |c.mails|)
  {
    NextWorld(t, 0);
    StartStep(t.ws[0], s, c, queue);
    AssignPhase(t, 1, s, c.(expunged := queue, phase := Assigning(0)), |c.mails|);
    AssignedAlike(t.ws[0].db, c, c.(expunged := queue, phase := Assigning(0)), |c.mails|);
  }

  lemma {:induction false} AssignedAlike(d: Db, c: Ctx, c': Ctx, k: nat)
    requires c.mails == c'.mails && c.box == c'.box && k <= |c.mails|
    ensures Assigned(d, c, k) == Assigned(d, c', k)
  {
    if k > 0 { AssignedAlike(d, c, c', k - 1); }
  }

  /** Publication, the sync commit and the removals. */
  lemma TailStart(t: Run, s: Sid, c: Ctx, at: nat)
    requires at <= |t.es| && s in t.ws[at].sessions && t.ws[at].sessions[s] == c
    requires c.phase == Assigning(|c.mails|) && IsTail(t.es, at, s, |c.mails|, |c.expunged|, c.failed)
    ensures var w, w2 := t.ws[at], t.ws[at + 2];
            && s in w2.sessions && w2.sessions[s] == c.(phase := Removing(c.expunged))
            && w2.db.store == w.db.store && w2.db.whole == w.db.whole
            && w2.db.records ==
               Remaining(w.db.records + NewRecords(c.box, NextUid(w.db.nextUid, c.box), c.appended), c.box, c.expunged)
  {
    var w2 := PublishSteps(t.ws[at], s, c);
    NextWorld(t, at);
    NextWorld(t, at + 1);
  }

  lemma TailEnd(t: Run, s: Sid, c: Ctx, at: nat, q: nat)
    requires at + 2 + q < |t.es| && t.es[at + 2 + q] == Act(s, EndSync)
    requires IsEnding(t.es, at + 3 + q, s, |c.mails|, c.failed)
    requires s in t.ws[at + 2 + q].sessions && t.ws[at + 2 + q].sessions[s] == c.(phase := Removing([]))
    ensures Purged(t.ws[at + 2 + q].db, t.ws[|t.es|].db, if c.failed then c.mails else [])
  {
    NextWorld(t, at + 2 + q);
    EndSyncStep(t.ws[at + 2 + q], s, c.(phase := Removing([])));
    EndingEffect(t, at + 3 + q, s, c.(phase := Removing([])), t.ws[at + 2 + q]);
  }

  /** What is left of the objects of `d`: not the mails of a failed transaction, and perhaps not those of the queue. */
  ghost predicate Left(d: Db, d': Db, c: Ctx, queue: seq<Oid>) {
    && (forall o :: o in d'.store ==> o in d.store && d'.store[o] == d.store[o] && (c.failed ==> o !in c.mails))
    && (forall o :: o in d.store && o !in queue && (c.failed ==> o !in c.mails) ==> o in d'.store)
  }

  lemma LeftOver(d: Db, d1: Db, d': Db, c: Ctx, queue: seq<Oid>)
    requires Thinned(d, d1, queue) && Purged(d1, d', if c.failed then c.mails else [])
    ensures Left(d, d', c, queue) && d'.whole == d.whole && d'.records == d.records
  {
  }

  lemma TailEffect(t: Run, s: Sid, c: Ctx, at: nat)
    requires at <= |t.es| && s in t.ws[at].sessions && t.ws[at].sessions[s] == c
    requires c.phase == Assigning(|c.mails|) && IsTail(t.es, at, s, |c.mails|, |c.expunged|, c.failed)
    ensures var d, d' := t.ws[at].db, t.ws[|t.es|].db;
            && d'.whole == d.whole && Left(d, d', c, c.expunged)
            && d'.records ==
               Remaining(d.records + NewRecords(c.box, NextUid(d.nextUid, c.box), c.appended), c.box, c.expunged)
  {
    var q := |c.expunged|;
    TailStart(t, s, c, at);
    RemovePhase(t, at + 2, s, c, c.expunged, q);
    assert c.expunged[q..] == [];
    TailEnd(t, s, c, at, q);
    LeftOver(t.ws[at + 2].db, t.ws[at + 2 + q].db, t.ws[|t.es|].db, c, c.expunged);
  }

  /** A mail of the transaction is safe in the committed index: it was stored, or there was nothing to store. */
  predicate Safe(d: Db, c: Ctx, i: nat)
    requires i < |c.mails| && i < |c.outcomes|
  {
    c.outcomes[i] == Stored || (c.mails[i] in d.whole && d.whole[c.mails[i]] == [])
  }

  lemma SafeMeansWhole(d: Db, s: Sid, c: Ctx, i: nat)
    requires Aligned(c) && PendingOk(d, s, c) && NoneOpen(c) && i < |c.mails| && c.mails[i] in d.whole
    ensures Safe(d, c, i) <==> ObjectAt(d.store, c.mails[i]).data == d.whole[c.mails[i]]
  {
    assert c.outcomes[i] != Begun;
  }

  /** What the commit leaves of the objects: nothing of a failed transaction, otherwise the same data. */
  ghost predicate Committed(d: Db, d': Db, c: Ctx, queue: seq<Oid>)
    requires |c.appended| == |c.mails|
  {
    && d'.whole == d.whole
    && (forall o :: o !in c.mails && o !in queue ==>
          (o in d'.store <==> o in d.store) && (o in d.store ==> d'.store[o] == d.store[o]))
    && (forall i :: 0 <= i < |c.mails| && c.mails[i] !in queue ==>
          if c.failed then c.mails[i] !in d'.store
          else && c.mails[i] in d'.store
               && d'.store[c.mails[i]].data == ObjectAt(d.store, c.mails[i]).data
               && d'.store[c.mails[i]].uid == Some(NextUid(d.nextUid, c.box) + i))
  }

  function RecordsAfter(d: Db, c: Ctx, queue: seq<Oid>): seq<Record> {
    Remaining(d.records + NewRecords(c.box, NextUid(d.nextUid, c.box), c.appended), c.box, queue)
  }

  lemma CommitEffect(t: Run, s: Sid, c: Ctx, queue: seq<Oid>)
    requires s in t.ws[0].sessions && t.ws[0].sessions[s] == c && c.phase.Ready? && Aligned(c)
    requires IsCommit(t.es, s, |c.mails|, queue, c.failed)
    ensures Committed(t.ws[0].db, t.ws[|t.es|].db, c, queue)
    ensures t.ws[|t.es|].db.records == RecordsAfter(t.ws[0].db, c, queue)
  {
    HeadEffect(t, s, c, queue);
    TailEffect(t, s, c.(expunged := queue, phase := Assigning(|c.mails|)), |c.mails| + 1);
    var d := AssignedFacts(t.ws[0].db, c, |c.mails|);
    CommittedFrom(t.ws[0].db, d, t.ws[|t.es|].db, c, queue);
  }

  lemma CommittedFrom(d: Db, d1: Db, d': Db, c: Ctx, queue: seq<Oid>)
    requires Aligned(c) && AssignedOk(d, d1, c, |c.mails|)
    requires d'.whole == d1.whole
    requires Left(d1, d', c, queue)
    ensures Committed(d, d', c, queue)
  {
    assert forall i :: 0 <= i < |c.mails| ==> c.mails[i] in c.mails;
    assert forall i :: 0 <= i < |c.mails| ==> UidAt(d, d1, c.mails[i], NextUid(d.nextUid, c.box) + i);
    assert forall o :: o !in c.mails ==> SameAt(d, d1, o);
  }

  lemma OldRecordDurable(d: Db, d': Db, s: Sid, c: Ctx, queue: seq<Oid>, r: Record)
    requires Recorded(d) && Aligned(c) && PendingOk(d, s, c) && Committed(d, d', c, queue)
    requires r in d.records && r.oid !in queue
    ensures WholeIn(d', r.oid) && d'.store[r.oid].uid == Some(r.uid)
  {
    assert WholeIn(d, r.oid);
    assert r.oid !in c.mails;
  }

  lemma NewMailDurable(d: Db, d': Db, s: Sid, c: Ctx, queue: seq<Oid>, i: nat)
    requires Aligned(c) && PendingOk(d, s, c) && NoneOpen(c) && Committed(d, d', c, queue)
    requires i < |c.mails| && c.mails[i] in d.whole && c.mails[i] !in queue
    ensures (WholeIn(d', c.mails[i]) && d'.store[c.mails[i]].uid == Some(NextUid(d.nextUid, c.box) + i))
            <==> !c.failed && Safe(d, c, i)
  {
    SafeMeansWhole(d, s, c, i);
  }

  lemma CommittedDurableIff(d: Db, d': Db, s: Sid, c: Ctx, queue: seq<Oid>)
    requires Recorded(d) && Aligned(c) && PendingOk(d, s, c) && NoneOpen(c) && Committed(d, d', c, queue)
    requires d'.records == RecordsAfter(d, c, queue)
    requires forall i :: 0 <= i < |c.mails| ==> c.mails[i] !in queue
    requires forall r :: r in d.records && r.oid in queue ==> r.box == c.box
    ensures Durable(d') <==> c.mails == [] || (!c.failed && forall i :: 0 <= i < |c.mails| ==> Safe(d, c, i))
  {
    if c.mails == [] || (!c.failed && forall i :: 0 <= i < |c.mails| ==> Safe(d, c, i)) {
      OldRecordsFine(d, d', s, c, queue);
      NewRecordsFine(d, d', s, c, queue);
      AllFine(d, d', c, queue);
    } else if Durable(d') {
      var i: nat :| i < |c.mails| && (c.failed || !Safe(d, c, i));
      NewRecordFine(d, d', c, queue, i);
      NewMailDurable(d, d', s, c, queue, i);
    }
  }

  lemma OldRecordsFine(d: Db, d': Db, s: Sid, c: Ctx, queue: seq<Oid>)
    requires Recorded(d) && Aligned(c) && PendingOk(d, s, c) && Committed(d, d', c, queue)
    requires forall r :: r in d.records && r.oid in queue ==> r.box == c.box
    ensures forall r :: r in d.records && !(r.box == c.box && r.oid in queue) ==> Fine(d', r)
  {
    forall r | r in d.records && !(r.box == c.box && r.oid in queue)
      ensures Fine(d', r)
    {
      OldRecordDurable(d, d', s, c, queue, r);
    }
  }

  lemma NewRecordsFine(d: Db, d': Db, s: Sid, c: Ctx, queue: seq<Oid>)
    requires Aligned(c) && PendingOk(d, s, c) && NoneOpen(c) && Committed(d, d', c, queue)
    requires forall i :: 0 <= i < |c.mails| ==> c.mails[i] !in queue && !c.failed && Safe(d, c, i)
    ensures forall i: nat :: i < |c.mails| ==> Fine(d', Record(c.box, NextUid(d.nextUid, c.box) + i, c.mails[i]))
  {
    forall i: nat | i < |c.mails|
      ensures Fine(d', Record(c.box, NextUid(d.nextUid, c.box) + i, c.mails[i]))
    {
      NewRecordDurable(d, d', s, c, queue, i);
    }
  }

  lemma NewRecordFine(d: Db, d': Db, c: Ctx, queue: seq<Oid>, i: nat)
    requires Aligned(c) && d'.records == RecordsAfter(d, c, queue) && Durable(d')
    requires i < |c.mails| && c.mails[i] !in queue
    ensures Fine(d', Record(c.box, NextUid(d.nextUid, c.box) + i, c.mails[i]))
  {
    NewRecordStays(d.records, c, NextUid(d.nextUid, c.box), queue, i);
  }

  ghost predicate Fine(d: Db, r: Record) { WholeIn(d, r.oid) && d.store[r.oid].uid == Some(r.uid) }

  lemma AllFine(d: Db, d': Db, c: Ctx, queue: seq<Oid>)
    requires Aligned(c) && d'.records == RecordsAfter(d, c, queue)
    requires forall r :: r in d.records && !(r.box == c.box && r.oid in queue) ==> Fine(d', r)
    requires forall i: nat :: i < |c.mails| ==> Fine(d', Record(c.box, NextUid(d.nextUid, c.box) + i, c.mails[i]))
    ensures Durable(d')
  {
    forall r | r in d'.records
      ensures Fine(d', r)
    {
      RecordIsOldOrNew(d, c, queue, r);
    }
  }

  lemma RecordIsOldOrNew(d: Db, c: Ctx, queue: seq<Oid>, r: Record)
    requires Aligned(c) && r in RecordsAfter(d, c, queue)
    ensures || (r in d.records && !(r.box == c.box && r.oid in queue))
            || exists i: nat :: i < |c.mails| && r == Record(c.box, NextUid(d.nextUid, c.box) + i, c.mails[i])
  {
    if r !in d.records || (r.box == c.box && r.oid in queue) {
      var i := NewRecordOf(d.records, c, NextUid(d.nextUid, c.box), queue, r);
    }
  }

  lemma NewRecordDurable(d: Db, d': Db, s: Sid, c: Ctx, queue: seq<Oid>, i: nat)
    requires Aligned(c) && PendingOk(d, s, c) && NoneOpen(c) && Committed(d, d', c, queue)
    requires i < |c.mails| && c.mails[i] !in queue && !c.failed && Safe(d, c, i)
    ensures WholeIn(d', c.mails[i]) && d'.store[c.mails[i]].uid == Some(NextUid(d.nextUid, c.box) + i)
  {
    assert c.mails[i] in c.mails;
    NewMailDurable(d, d', s, c, queue, i);
  }

  /** The mails of an open transaction are not among the records it may expunge. */
  lemma QueueIsOthers(d: Db, s: Sid, c: Ctx, queue: seq<Oid>, i: nat)
    requires Recorded(d) && Aligned(c) && PendingOk(d, s, c) && i < |c.mails|
    requires forall o :: o in queue ==> exists r :: r in d.records && r.oid == o && r.box == c.box
    ensures c.mails[i] !in queue
  {
    forall r | r in d.records
      ensures r.oid != c.mails[i]
    {
      assert c.mails[i] in c.mails;
    }
  }

  /**
   A commit that meets no further fault leaves every record durable exactly when the last call of the
   transaction did not fail and no non-empty mail of it was refused, whatever it expunges.
   */
  lemma CommitDurableIff(t: Run, s: Sid, c: Ctx, queue: seq<Oid>)
    requires FullInv(t.ws[0]) && s in t.ws[0].sessions && t.ws[0].sessions[s] == c && c.phase.Ready?
    requires IsCommit(t.es, s, |c.mails|, queue, c.failed)
    ensures |c.outcomes| == |c.mails|
    ensures Durable(t.ws[|t.es|].db)
            <==> c.mails == [] || (!c.failed && forall i :: 0 <= i < |c.mails| ==> Safe(t.ws[0].db, c, i))
  {
    assert CtxOk(t.ws[0].db, s, c);
    CommitEffect(t, s, c, queue);
    NextWorld(t, 0);
    forall i | 0 <= i < |c.mails| ensures c.mails[i] !in queue { QueueIsOthers(t.ws[0].db, s, c, queue, i); }
    NewQueue(t.ws[0].db, c, queue);
    CommittedDurableIff(t.ws[0].db, t.ws[|t.es|].db, s, c, queue);
  }

  lemma NewRecordStays(records: seq<Record>, c: Ctx, first: nat, queue: seq<Oid>, i: nat)
    requires Aligned(c) && i < |c.mails| && c.mails[i] !in queue
    ensures Record(c.box, first + i, c.mails[i]) in
            Remaining(records + NewRecords(c.box, first, c.appended), c.box, queue)
  {
    var added := NewRecords(c.box, first, c.appended);
    assert added[i] == Record(c.box, first + i, c.mails[i]) && added[i] in added;
  }

  /** A record that is left and was not there before is that of one of the mails. */
  lemma NewRecordOf(records: seq<Record>, c: Ctx, first: nat, queue: seq<Oid>, r: Record) returns (i: nat)
    requires Aligned(c) && r in Remaining(records + NewRecords(c.box, first, c.appended), c.box, queue)
    requires r !in records || (r.box == c.box && r.oid in queue)
    ensures i < |c.mails| && r == Record(c.box, first + i, c.mails[i])
  {
    var added := NewRecords(c.box, first, c.appended);
    assert r in records + added;
    assert r in added;
    i :| 0 <= i < |added| && added[i] == r;
  }

  // ----- a sync commit that fails after the index commit -----

  lemma PublishThenFail(w: World, s: Sid, c: Ctx)
    requires s in w.sessions && w.sessions[s] == c && c.phase == Assigning(|c.mails|)
    ensures var w1 := PutDb(w, s, c.(phase := Synced(true)), Published(w.db, c.box, c.appended));
            var c2 := c.(failed := true, phase := CleaningUp(c.mails));
            && Enabled(w, Act(s, Publish(true))) && Step(w, Act(s, Publish(true))) == w1
            && Enabled(w1, Act(s, SyncFinish(false))) && Step(w1, Act(s, SyncFinish(false))) == Put(w1, s, c2)
  {
  }

  /** When the sync commit fails after the records were published, the clean-up takes their objects
      away: the committed records stay durable exactly when the transaction had no mail. */
  lemma SyncFailureDurableIff(t: Run, s: Sid, c: Ctx)
    requires FullInv(t.ws[0]) && s in t.ws[0].sessions && t.ws[0].sessions[s] == c && c.phase == Assigning(|c.mails|)
    requires |t.es| >= 2 && t.es[0] == Act(s, Publish(true)) && t.es[1] == Act(s, SyncFinish(false))
    requires IsEnding(t.es, 2, s, |c.mails|, true)
    ensures Durable(t.ws[|t.es|].db) <==> c.mails == []
  {
    PublishThenFail(t.ws[0], s, c);
    NextWorld(t, 0);
    NextWorld(t, 1);
    CleanedUp(t, 2, s, c.(failed := true));
    assert CtxOk(t.ws[0].db, s, c);
    var d := Published(t.ws[0].db, c.box, c.appended);
    if c.mails == [] {
      PublishedOk(t.ws[0].db, s, c);
    } else {
      assert NewRecords(c.box, NextUid(t.ws[0].db.nextUid, c.box), c.appended)[0] in d.records;
      assert c.mails[0] in c.mails;
    }
  }
}
