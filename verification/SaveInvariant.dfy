/** The inductive invariant of the save protocol and its preservation, step by step. */
module SaveInvariant {
  import opened Rados
  import opened ChunkedWriter
  import opened RecoveryIndex
  import opened SaveProtocol

  // ----- the invariant -----

  ghost predicate Owned(d: Db, s: Sid, oids: seq<Oid>) {
    forall o :: o in oids ==> o in d.owner && d.owner[o] == Pending(s)
  }

  /** Records, mail objects and outcomes of a transaction correspond one to one. */
  ghost predicate Aligned(c: Ctx) {
    c.mails == c.appended && |c.outcomes| == |c.mails| && Distinct(c.mails)
  }

  ghost predicate PendingOk(d: Db, s: Sid, c: Ctx)
    requires Aligned(c)
  {
    forall i :: 0 <= i < |c.mails| ==>
      && c.mails[i] in d.owner && d.owner[c.mails[i]] == Pending(s)
      && (c.outcomes[i] == Stored ==> WholeIn(d, c.mails[i]))
      && (c.outcomes[i] == Refused ==> Lost(d, c.mails[i]))
  }

  /** What a refused save leaves: no object, or a proper prefix of the mail. */
  ghost predicate Lost(d: Db, oid: Oid) {
    !WholeIn(d, oid) && (oid in d.store ==> oid in d.whole && d.whole[oid] != [])
  }

  /** Only the mail being saved, the last one, is still open. */
  ghost predicate OpenLast(c: Ctx, oid: Oid)
    requires Aligned(c)
  {
    && c.mails != [] && c.mails[|c.mails| - 1] == oid && c.outcomes[|c.mails| - 1] == Begun
    && forall i :: 0 <= i < |c.mails| - 1 ==> c.outcomes[i] != Begun
  }

  ghost predicate NoneOpen(c: Ctx) {
    forall i :: 0 <= i < |c.outcomes| ==> c.outcomes[i] != Begun
  }

  ghost predicate Retired(d: Db, oids: seq<Oid>) {
    forall o :: o in oids ==> o in d.owner && !d.owner[o].Pending?
  }

  ghost predicate PartlyWritten(d: Db, p: Phase)
    requires p.Writing?
  {
    && p.chunk > 0 && p.done <= ChunkCount(|p.buffer|, p.chunk)
    && (p.oid !in d.store ==> p.done == 0)
    && (p.oid in d.store ==>
          && d.store[p.oid].data == p.buffer[..Offset(|p.buffer|, p.chunk, p.done)]
          && d.store[p.oid].uid == None)
  }

  ghost predicate UidsAssigned(d: Db, c: Ctx, done: nat) {
    && done <= |c.mails|
    && forall i :: 0 <= i < done ==>
         c.mails[i] in d.store && d.store[c.mails[i]].uid == Some(NextUid(d.nextUid, c.box) + i)
  }

  ghost predicate CtxOk(d: Db, s: Sid, c: Ctx) {
    && Aligned(c)
    && match c.phase
       case Ready => PendingOk(d, s, c) && NoneOpen(c)
       case Unconnected => PendingOk(d, s, c) && NoneOpen(c) && c.failed
       case Receiving(oid, buffer) =>
         && PendingOk(d, s, c) && OpenLast(c, oid)
         && oid !in d.store && oid in d.whole && (!c.failed ==> buffer == d.whole[oid])
       case Writing(oid, buffer, chunk, done) =>
         && PendingOk(d, s, c) && OpenLast(c, oid) && !c.failed
         && oid in d.whole && buffer == d.whole[oid] && buffer != []
         && PartlyWritten(d, c.phase)
       case Assigning(done) =>
         PendingOk(d, s, c) && Committable(c) && Retired(d, c.expunged) && UidsAssigned(d, c, done)
       case Synced(published) =>
         Committable(c) && Retired(d, c.expunged) && (!published ==> PendingOk(d, s, c))
       case Removing(queue) => Committable(c) && forall o :: o in queue ==> o in d.owner && d.owner[o].Dead?
       case CleaningUp(todo) => Owned(d, s, todo)
  }

  /** The part of the invariant that does not speak of sessions. It survives every rebuild. */
  ghost predicate Base(d: Db) {
    && (forall o :: o in d.store ==> o in d.owner)
    && (forall o :: o in d.owner ==> o in d.whole && Indexable(o))
    && (forall o :: o in d.store && !d.owner[o].Pending? ==> d.store[o].uid.Some?)
    && (forall o :: o in d.store && d.store[o].uid.Some? ==> d.store[o].data == d.whole[o])
    && (forall r :: r in d.records ==> r.oid in d.owner && !d.owner[r.oid].Pending?)
  }

  ghost predicate LocksOk(sessions: map<Sid, Ctx>) {
    forall s, t :: s in sessions && t in sessions && s != t && Locked(sessions[s]) && Locked(sessions[t])
      ==> sessions[s].box != sessions[t].box
  }

  ghost predicate SessionsOk(d: Db, sessions: map<Sid, Ctx>) {
    forall s :: s in sessions ==> CtxOk(d, s, sessions[s])
  }

  ghost predicate Inv(w: World) {
    Base(w.db) && LocksOk(w.sessions) && SessionsOk(w.db, w.sessions)
  }

  // ----- framing -----

  /** What a step of another session leaves alone for session `s` in mailbox `box`. */
  ghost predicate Undisturbed(d: Db, d': Db, s: Sid, c: Ctx) {
    && (forall o :: o in d.owner && d.owner[o] == Pending(s) ==>
          && o in d'.owner && d'.owner[o] == Pending(s)
          && (o in d.whole ==> o in d'.whole && d'.whole[o] == d.whole[o])
          && (o in d'.store <==> o in d.store)
          && (o in d.store ==> d'.store[o] == d.store[o]))
    && (forall o :: o in d.owner && !d.owner[o].Pending? ==> o in d'.owner && !d'.owner[o].Pending?)
    && (forall o :: o in d.owner && d.owner[o].Dead? ==> o in d'.owner && d'.owner[o].Dead?)
    && (Locked(c) ==> NextUid(d'.nextUid, c.box) == NextUid(d.nextUid, c.box))
  }

  lemma PendingFrame(d: Db, d': Db, s: Sid, c: Ctx)
    requires Aligned(c) && PendingOk(d, s, c) && Undisturbed(d, d', s, c)
    requires forall o :: o in d.owner ==> o in d.whole
    ensures PendingOk(d', s, c)
  {
    forall i | 0 <= i < |c.mails|
      ensures WholeIn(d', c.mails[i]) <==> WholeIn(d, c.mails[i])
      ensures Lost(d', c.mails[i]) <==> Lost(d, c.mails[i])
    {
    }
  }

  lemma CtxFrame(d: Db, d': Db, s: Sid, c: Ctx)
    requires CtxOk(d, s, c) && Undisturbed(d, d', s, c)
    requires forall o :: o in d.owner ==> o in d.whole
    ensures CtxOk(d', s, c)
  {
    match c.phase
    case Ready => PendingFrame(d, d', s, c);
    case Unconnected => PendingFrame(d, d', s, c);
    case Receiving(oid, _) =>
      PendingFrame(d, d', s, c);
      assert c.mails[|c.mails| - 1] == oid;
    case Writing(oid, _, _, _) =>
      PendingFrame(d, d', s, c);
      assert c.mails[|c.mails| - 1] == oid;
    case Assigning(done) => PendingFrame(d, d', s, c);
    case Synced(published) => if !published { PendingFrame(d, d', s, c); }
    case Removing(_) =>
    case CleaningUp(_) =>
  }

  ghost predicate LockFree(sessions: map<Sid, Ctx>, s: Sid, c: Ctx) {
    Locked(c) ==> forall t :: t in sessions && t != s && Locked(sessions[t]) ==> sessions[t].box != c.box
  }

  lemma LocksAfterPut(sessions: map<Sid, Ctx>, s: Sid, c: Ctx)
    requires LocksOk(sessions) && LockFree(sessions, s, c)
    ensures LocksOk(sessions[s := c])
  {
  }

  /** A step of session `s` keeps the invariant if it keeps its own part and disturbs nobody else. */
  lemma FromOwnPart(w: World, s: Sid, c: Ctx, d: Db)
    requires Inv(w)
    requires forall t :: t in w.sessions && t != s ==> Undisturbed(w.db, d, t, w.sessions[t])
    requires Base(d) && CtxOk(d, s, c) && LockFree(w.sessions, s, c)
    ensures Inv(PutDb(w, s, c, d))
  {
    LocksAfterPut(w.sessions, s, c);
    var sessions := w.sessions[s := c];
    forall t | t in sessions
      ensures CtxOk(d, t, sessions[t])
    {
      if t != s { CtxFrame(w.db, d, t, w.sessions[t]); }
    }
  }

  lemma AfterClose(w: World, s: Sid)
    requires Inv(w)
    ensures Inv(Close(w, s))
  {
  }

  /** A step that changes only the context of `s`. */
  lemma AfterPut(w: World, s: Sid, c: Ctx)
    requires Inv(w) && CtxOk(w.db, s, c) && LockFree(w.sessions, s, c)
    ensures Inv(Put(w, s, c))
  {
    LocksAfterPut(w.sessions, s, c);
  }

  // ----- steps that touch one oid of the session's own -----

  /** `d'` differs from `d` only in what is known and stored for `oid`. */
  ghost predicate OnlyAt(d: Db, d': Db, oid: Oid) {
    && d'.records == d.records && d'.nextUid == d.nextUid
    && (forall o :: o != oid ==> (o in d'.store <==> o in d.store) && (o in d.store ==> d'.store[o] == d.store[o]))
    && (forall o :: o != oid ==> (o in d'.whole <==> o in d.whole) && (o in d.whole ==> d'.whole[o] == d.whole[o]))
    && (forall o :: o != oid ==> (o in d'.owner <==> o in d.owner) && (o in d.owner ==> d'.owner[o] == d.owner[o]))
  }

  ghost predicate MineAt(d: Db, d': Db, s: Sid, oid: Oid) {
    && (oid in d.owner ==> d.owner[oid] == Pending(s))
    && oid in d'.owner && d'.owner[oid] == Pending(s) && oid in d'.whole && Indexable(oid)
    && (oid in d'.store && d'.store[oid].uid.Some? ==> d'.store[oid].data == d'.whole[oid])
  }

  lemma LocalBase(d: Db, d': Db, s: Sid, oid: Oid)
    requires Base(d) && OnlyAt(d, d', oid) && MineAt(d, d', s, oid)
    ensures Base(d')
  {
  }

  lemma LocalOthers(d: Db, d': Db, s: Sid, oid: Oid, t: Sid, c: Ctx)
    requires OnlyAt(d, d', oid) && MineAt(d, d', s, oid) && t != s
    ensures Undisturbed(d, d', t, c)
  {
  }

  lemma LocalStep(w: World, s: Sid, oid: Oid, c: Ctx, d: Db)
    requires Inv(w) && OnlyAt(w.db, d, oid) && MineAt(w.db, d, s, oid)
    requires CtxOk(d, s, c) && LockFree(w.sessions, s, c)
    ensures Inv(PutDb(w, s, c, d))
  {
    LocalBase(w.db, d, s, oid);
    forall t | t in w.sessions && t != s
      ensures Undisturbed(w.db, d, t, w.sessions[t])
    {
      LocalOthers(w.db, d, s, oid, t, w.sessions[t]);
    }
    FromOwnPart(w, s, c, d);
  }

  lemma MailsElsewhere(d: Db, d': Db, s: Sid, c: Ctx, oid: Oid, n: nat)
    requires OnlyAt(d, d', oid) && Aligned(c) && PendingOk(d, s, c) && n <= |c.mails|
    requires forall i :: 0 <= i < n ==> c.mails[i] != oid
    ensures forall i :: 0 <= i < n ==> WholeIn(d', c.mails[i]) == WholeIn(d, c.mails[i])
    ensures forall i :: 0 <= i < n ==> Lost(d', c.mails[i]) == Lost(d, c.mails[i])
    ensures forall i :: 0 <= i < n ==> c.mails[i] in d'.owner && d'.owner[c.mails[i]] == Pending(s)
  {
  }

  // ----- one lemma per step -----

  lemma AfterAlloc(w: World, s: Sid, box: BoxId)
    requires Inv(w) && (s in w.sessions ==> w.sessions[s].phase.Ready?)
    ensures Inv(StepAlloc(w, s, box))
  {
    var c := if s in w.sessions then w.sessions[s].(failed := false, finished := false)
             else Ctx(box, true, true, [], [], [], [], Ready);
    AfterPut(w, s, c);
  }

  /** A new mail at the end of the transaction. */
  lemma AddedOk(d: Db, d': Db, s: Sid, c: Ctx, oid: Oid, outcome: Outcome)
    requires Aligned(c) && PendingOk(d, s, c) && NoneOpen(c) && OnlyAt(d, d', oid)
    requires oid !in d.owner && oid in d'.owner && d'.owner[oid] == Pending(s)
    requires outcome != Refused && (outcome == Stored ==> WholeIn(d', oid))
    ensures var c' := AddToIndex(c, oid, outcome);
            && Aligned(c') && PendingOk(d', s, c')
            && (outcome == Begun ==> OpenLast(c', oid)) && (outcome != Begun ==> NoneOpen(c'))
  {
    var c' := AddToIndex(c, oid, outcome);
    assert forall i :: 0 <= i < |c.mails| ==> c.mails[i] != oid;
    MailsElsewhere(d, d', s, c, oid, |c.mails|);
    assert forall i :: 0 <= i < |c.mails| ==> c'.mails[i] == c.mails[i] && c'.outcomes[i] == c.outcomes[i];
  }

  lemma AfterBegin(w: World, s: Sid, c: Ctx, oid: Oid, connected: bool)
    requires Inv(w) && CtxOk(w.db, s, c) && c.phase.Ready? && Fresh(w.db, oid)
    ensures Inv(StepBegin(w, s, c, oid, connected))
  {
    if connected {
      var d := w.db.(whole := w.db.whole[oid := []], owner := w.db.owner[oid := Pending(s)]);
      AddedOk(w.db, d, s, c, oid, Begun);
      LocalStep(w, s, oid, AddToIndex(c, oid, Begun).(failed := false, phase := Receiving(oid, [])), d);
    } else {
      AfterPut(w, s, c.(failed := true, phase := Unconnected));
    }
  }

  /** The last mail of a transaction is the one being saved; the others keep what they have. */
  lemma OpenMailOk(d: Db, d': Db, s: Sid, c: Ctx, oid: Oid)
    requires Aligned(c) && PendingOk(d, s, c) && OpenLast(c, oid) && OnlyAt(d, d', oid) && MineAt(d, d', s, oid)
    ensures PendingOk(d', s, c)
  {
    var n := |c.mails| - 1;
    assert forall i :: 0 <= i < n ==> c.mails[i] != c.mails[n];
    MailsElsewhere(d, d', s, c, oid, n);
  }

  lemma AfterContinue(w: World, s: Sid, c: Ctx, bytes: seq<byte>, ok: bool)
    requires Inv(w) && CtxOk(w.db, s, c) && c.phase.Receiving?
    ensures Inv(StepContinue(w, s, c, bytes, ok))
  {
    var w' := StepContinue(w, s, c, bytes, ok);
    assert c.mails[|c.mails| - 1] == c.phase.oid;
    OpenMailOk(w.db, w'.db, s, c, c.phase.oid);
    LocalStep(w, s, c.phase.oid, w'.sessions[s], w'.db);
  }

  /** The end of a save: the outcome says whether the object holds the whole mail. */
  lemma EndSaveOk(d: Db, s: Sid, c: Ctx, ok: bool)
    requires Aligned(c) && PendingOk(d, s, c) && c.mails != [] && OpenLast(c, c.mails[|c.mails| - 1])
    requires if ok then WholeIn(d, c.mails[|c.mails| - 1]) else Lost(d, c.mails[|c.mails| - 1])
    ensures CtxOk(d, s, EndSave(c, ok))
  {
  }

  /** The session writes to the object of its open mail. */
  lemma OwnWrite(w: World, s: Sid, c: Ctx, p: Phase, d: Db)
    requires p.Writing? && Inv(w) && Aligned(c) && PendingOk(w.db, s, c) && OpenLast(c, p.oid) && !c.failed
    requires p.oid in w.db.whole && p.buffer == w.db.whole[p.oid] && p.buffer != [] && PartlyWritten(d, p)
    requires OnlyAt(w.db, d, p.oid) && d.whole == w.db.whole && d.owner == w.db.owner
    ensures Inv(PutDb(w, s, c.(phase := p), d))
  {
    assert c.mails[|c.mails| - 1] == p.oid;
    OpenMailOk(w.db, d, s, c, p.oid);
    assert PendingOk(d, s, c.(phase := p));
    LocalStep(w, s, p.oid, c.(phase := p), d);
  }

  lemma AfterWritingStarts(w: World, s: Sid, c: Ctx, chunk: nat, metaOk: bool)
    requires Inv(w) && CtxOk(w.db, s, c) && c.phase.Receiving? && chunk > 0
    requires !c.failed && c.phase.buffer != []
    ensures Inv(StepFinish(w, s, c, true, |c.phase.buffer|, chunk, metaOk))
  {
    var p := Writing(c.phase.oid, c.phase.buffer, chunk, 0);
    var d := if metaOk then w.db.(store := SetMeta(w.db.store, c.phase.oid, c.box)) else w.db;
    AllWritten(|p.buffer|, chunk);
    OwnWrite(w, s, c, p, d);
  }

  lemma AfterFinish(w: World, s: Sid, c: Ctx, streamOk: bool, maxObject: nat, chunk: nat, metaOk: bool)
    requires Inv(w) && CtxOk(w.db, s, c) && (c.phase.Receiving? || c.phase.Unconnected?) && chunk > 0
    ensures Inv(StepFinish(w, s, c, streamOk, maxObject, chunk, metaOk))
  {
    if c.phase.Unconnected? {
      AfterPut(w, s, c.(failed := true, finished := true, phase := Ready));
    } else if c.failed || !streamOk || c.phase.buffer == [] || |c.phase.buffer| > maxObject {
      EndSaveOk(w.db, s, c, false);
      AfterPut(w, s, EndSave(c, false));
    } else {
      AfterWritingStarts(w, s, c, chunk, metaOk);
    }
  }

  lemma ChunkWritten(d: Db, p: Phase) returns (d': Db)
    requires p.Writing? && PartlyWritten(d, p) && p.done < ChunkCount(|p.buffer|, p.chunk)
    ensures Offset(|p.buffer|, p.chunk, p.done) <= Offset(|p.buffer|, p.chunk, p.done + 1)
    ensures d' == d.(store := Append(d.store, p.oid,
              p.buffer[Offset(|p.buffer|, p.chunk, p.done)..Offset(|p.buffer|, p.chunk, p.done + 1)]))
    ensures PartlyWritten(d', p.(done := p.done + 1))
    ensures OnlyAt(d, d', p.oid)
  {
    ChunkBounds(|p.buffer|, p.chunk, p.done);
    AllWritten(|p.buffer|, p.chunk);
    var from, to := Offset(|p.buffer|, p.chunk, p.done), Offset(|p.buffer|, p.chunk, p.done + 1);
    d' := d.(store := Append(d.store, p.oid, p.buffer[from..to]));
    assert ObjectAt(d.store, p.oid).data == p.buffer[..from];
    assert p.buffer[..from] + p.buffer[from..to] == p.buffer[..to];
  }

  /** A chunk that fails leaves a proper prefix of the mail behind. */
  lemma PrefixIsNotWhole(d: Db, p: Phase)
    requires p.Writing? && PartlyWritten(d, p) && p.done < ChunkCount(|p.buffer|, p.chunk)
    requires p.oid in d.whole && d.whole[p.oid] == p.buffer && p.buffer != []
    ensures Lost(d, p.oid)
  {
    ChunkBounds(|p.buffer|, p.chunk, p.done);
  }

  lemma AfterChunkOk(w: World, s: Sid, c: Ctx)
    requires Inv(w) && CtxOk(w.db, s, c) && c.phase.Writing?
    requires c.phase.done < ChunkCount(|c.phase.buffer|, c.phase.chunk)
    ensures Inv(StepWriteChunk(w, s, c, true))
  {
    var d := ChunkWritten(w.db, c.phase);
    OwnWrite(w, s, c, c.phase.(done := c.phase.done + 1), d);
    ChunkStep(w, s, c, d);
  }

  lemma ChunkStep(w: World, s: Sid, c: Ctx, d: Db)
    requires c.phase.Writing?
    requires var p := c.phase;
             var from, to := Offset(|p.buffer|, p.chunk, p.done), Offset(|p.buffer|, p.chunk, p.done + 1);
             from <= to && d == w.db.(store := Append(w.db.store, p.oid, p.buffer[from..to]))
    ensures StepWriteChunk(w, s, c, true) == PutDb(w, s, c.(phase := c.phase.(done := c.phase.done + 1)), d)
  {
  }

  lemma AfterWriteChunk(w: World, s: Sid, c: Ctx, ok: bool)
    requires Inv(w) && CtxOk(w.db, s, c) && c.phase.Writing?
    requires c.phase.done < ChunkCount(|c.phase.buffer|, c.phase.chunk)
    ensures Inv(StepWriteChunk(w, s, c, ok))
  {
    if ok {
      AfterChunkOk(w, s, c);
    } else {
      PrefixIsNotWhole(w.db, c.phase);
      EndSaveOk(w.db, s, c, false);
      AfterPut(w, s, EndSave(c, false));
    }
  }

  lemma AfterFinishEnd(w: World, s: Sid, c: Ctx, indexed: bool)
    requires Inv(w) && CtxOk(w.db, s, c) && Allowed(w, c, FinishEnd(indexed))
    ensures Inv(StepFinishEnd(w, s, c, indexed))
  {
    var p := c.phase;
    AllWritten(|p.buffer|, p.chunk);
    assert p.buffer[..|p.buffer|] == p.buffer;
    EndSaveOk(w.db, s, c, true);
    AfterPut(w, s, EndSave(c, true));
  }

  lemma AfterCancel(w: World, s: Sid, c: Ctx)
    requires Inv(w) && CtxOk(w.db, s, c) && Allowed(w, c, Cancel)
    ensures Inv(StepCancel(w, s, c))
  {
    if c.phase.Receiving? {
      EndSaveOk(w.db, s, c, false);
      AfterPut(w, s, EndSave(c, false));
    } else {
      AfterPut(w, s, c.(failed := true, finished := true, phase := Ready));
    }
  }

  lemma AfterCopy(w: World, s: Sid, c: Ctx, src: Oid, oid: Oid, ok: bool)
    requires Inv(w) && CtxOk(w.db, s, c) && Allowed(w, c, Copy(src, oid, ok))
    ensures Inv(StepCopy(w, s, c, src, oid, ok))
  {
    if ok && src in w.db.store {
      var d := StepCopy(w, s, c, src, oid, ok).db;
      assert WholeIn(d, oid);
      AddedOk(w.db, d, s, c, oid, Stored);
      LocalStep(w, s, oid, AddToIndex(c, oid, Stored).(failed := false, finished := true), d);
    } else {
      AfterPut(w, s, c.(finished := true));
    }
  }

  lemma AfterCommitPre(w: World, s: Sid, c: Ctx, ok: bool, queue: seq<Oid>)
    requires Inv(w) && CtxOk(w.db, s, c) && Allowed(w, c, CommitPre(ok, queue))
    requires ok ==> Committable(c)
    ensures Inv(StepCommitPre(w, s, c, ok, queue))
  {
    AfterPut(w, s, if ok then c.(expunged := queue, phase := Assigning(0))
        else c.(failed := true, phase := CleaningUp(c.mails)));
  }

  lemma AfterEndTransaction(w: World, s: Sid, c: Ctx)
    requires Inv(w) && Aligned(c) && (c.failed ==> Owned(w.db, s, c.mails))
    ensures Inv(EndTransaction(w, s, c))
  {
    if c.failed { AfterPut(w, s, c.(phase := CleaningUp(c.mails))); } else { AfterClose(w, s); }
  }

  lemma UidWritten(d: Db, s: Sid, oid: Oid, uid: nat)
    requires Base(d) && oid in d.owner && d.owner[oid] == Pending(s) && WholeIn(d, oid)
    ensures OnlyAt(d, WithUid(d, oid, uid), oid) && MineAt(d, WithUid(d, oid, uid), s, oid)
    ensures forall o :: WholeIn(WithUid(d, oid, uid), o) == WholeIn(d, o)
  {
  }

  lemma UidMore(d: Db, c: Ctx, done: nat)
    requires UidsAssigned(d, c, done) && done < |c.mails| && Distinct(c.mails)
    ensures UidsAssigned(WithUid(d, c.mails[done], NextUid(d.nextUid, c.box) + done), c, done + 1)
  {
    assert forall i :: 0 <= i < done ==> c.mails[i] != c.mails[done];
  }

  lemma UidPending(d: Db, s: Sid, c: Ctx, oid: Oid, uid: nat)
    requires Aligned(c) && PendingOk(d, s, c) && oid in d.store
    ensures PendingOk(WithUid(d, oid, uid), s, c)
  {
    var d' := WithUid(d, oid, uid);
    assert forall i :: 0 <= i < |c.mails| ==>
      WholeIn(d', c.mails[i]) == WholeIn(d, c.mails[i]) && Lost(d', c.mails[i]) == Lost(d, c.mails[i]);
  }

  lemma UidAssigned(d: Db, s: Sid, c: Ctx, done: nat)
    requires CtxOk(d, s, c) && c.phase == Assigning(done) && done < |c.mails|
    ensures WholeIn(d, c.mails[done]) && c.mails[done] in d.owner && d.owner[c.mails[done]] == Pending(s)
    ensures CtxOk(WithUid(d, c.mails[done], NextUid(d.nextUid, c.box) + done), s, c.(phase := Assigning(done + 1)))
  {
    assert c.outcomes[done] == Stored;
    var d' := WithUid(d, c.mails[done], NextUid(d.nextUid, c.box) + done);
    UidMore(d, c, done);
    UidPending(d, s, c, c.mails[done], NextUid(d.nextUid, c.box) + done);
    var c' := c.(phase := Assigning(done + 1));
    assert Aligned(c') && PendingOk(d', s, c') && Committable(c') && Retired(d', c'.expunged);
  }

  lemma UidLocal(d: Db, s: Sid, c: Ctx, done: nat)
    requires Base(d) && CtxOk(d, s, c) && c.phase == Assigning(done) && done < |c.mails|
    ensures var d' := WithUid(d, c.mails[done], NextUid(d.nextUid, c.box) + done);
            && OnlyAt(d, d', c.mails[done]) && MineAt(d, d', s, c.mails[done])
            && CtxOk(d', s, c.(phase := Assigning(done + 1)))
  {
    UidAssigned(d, s, c, done);
    UidWritten(d, s, c.mails[done], NextUid(d.nextUid, c.box) + done);
  }

  lemma KeepsLock(sessions: map<Sid, Ctx>, s: Sid, c: Ctx)
    requires LocksOk(sessions) && s in sessions && Locked(sessions[s]) && sessions[s].box == c.box
    ensures LockFree(sessions, s, c)
  {
  }

  lemma AfterAssignUid(w: World, s: Sid, c: Ctx, done: nat)
    requires Inv(w) && s in w.sessions && w.sessions[s] == c && c.phase == Assigning(done) && done < |c.mails|
    ensures Inv(PutDb(w, s, c.(phase := Assigning(done + 1)),
              WithUid(w.db, c.mails[done], NextUid(w.db.nextUid, c.box) + done)))
  {
    UidLocal(w.db, s, c, done);
    KeepsLock(w.sessions, s, c.(phase := Assigning(done + 1)));
    LocalStep(w, s, c.mails[done], c.(phase := Assigning(done + 1)),
        WithUid(w.db, c.mails[done], NextUid(w.db.nextUid, c.box) + done));
  }

  // ----- steps that move oids between owners -----

  /** A new record names a stored mail whose U attribute is the record's UID. */
  lemma NewRecordOk(d: Db, s: Sid, c: Ctx, r: Record)
    requires Aligned(c) && PendingOk(d, s, c) && Committable(c) && UidsAssigned(d, c, |c.mails|)
    requires r in NewRecords(c.box, NextUid(d.nextUid, c.box), c.appended)
    ensures r.oid in c.appended && r.oid in d.owner && WholeIn(d, r.oid) && d.store[r.oid].uid == Some(r.uid)
  {
    var i :| 0 <= i < |c.mails| && r == Record(c.box, NextUid(d.nextUid, c.box) + i, c.mails[i]);
    assert c.outcomes[i] == Stored;
  }

  lemma PublishedOk(d: Db, s: Sid, c: Ctx)
    requires Base(d) && Aligned(c) && PendingOk(d, s, c) && Committable(c) && UidsAssigned(d, c, |c.mails|)
    ensures Base(Published(d, c.box, c.appended))
  {
    var d' := Published(d, c.box, c.appended);
    forall r | r in d'.records
      ensures r.oid in d'.owner && !d'.owner[r.oid].Pending?
    {
      if r !in d.records { NewRecordOk(d, s, c, r); }
    }
    forall o | o in d'.store && !d'.owner[o].Pending?
      ensures d'.store[o].uid.Some?
    {
      if o in c.appended {
        var i :| 0 <= i < |c.mails| && c.mails[i] == o;
      }
    }
  }

  lemma PublishedElsewhere(d: Db, s: Sid, c: Ctx, t: Sid, c': Ctx)
    requires Aligned(c) && PendingOk(d, s, c) && t != s && (Locked(c') ==> c'.box != c.box)
    ensures Undisturbed(d, Published(d, c.box, c.appended), t, c')
  {
  }

  lemma AfterPublish(w: World, s: Sid, c: Ctx, ok: bool)
    requires Inv(w) && s in w.sessions && w.sessions[s] == c && Allowed(w, c, Publish(ok))
    ensures Inv(StepPublish(w, s, c, ok))
  {
    assert CtxOk(w.db, s, c);
    if ok {
      var d := Published(w.db, c.box, c.appended);
      PublishedOk(w.db, s, c);
      forall t | t in w.sessions && t != s
        ensures Undisturbed(w.db, d, t, w.sessions[t])
      {
        PublishedElsewhere(w.db, s, c, t, w.sessions[t]);
      }
      FromOwnPart(w, s, c.(phase := Synced(true)), d);
    } else {
      AfterPut(w, s, c.(phase := Synced(false)));
    }
  }

  lemma ExpungedOk(d: Db, box: BoxId, gone: seq<Oid>)
    requires Base(d) && Retired(d, gone)
    ensures Base(Expunged(d, box, gone))
  {
  }

  lemma ExpungedElsewhere(d: Db, box: BoxId, gone: seq<Oid>, t: Sid, c: Ctx)
    requires Retired(d, gone)
    ensures Undisturbed(d, Expunged(d, box, gone), t, c)
  {
  }

  lemma AfterSyncFinish(w: World, s: Sid, c: Ctx, ok: bool)
    requires Inv(w) && s in w.sessions && w.sessions[s] == c && Allowed(w, c, SyncFinish(ok))
    requires ok || c.mails == [] || !c.phase.published
    ensures Inv(StepSyncFinish(w, s, c, ok))
  {
    assert CtxOk(w.db, s, c);
    if ok {
      var d := Expunged(w.db, c.box, c.expunged);
      ExpungedOk(w.db, c.box, c.expunged);
      forall t | t in w.sessions && t != s
        ensures Undisturbed(w.db, d, t, w.sessions[t])
      {
        ExpungedElsewhere(w.db, c.box, c.expunged, t, w.sessions[t]);
      }
      FromOwnPart(w, s, c.(phase := Removing(c.expunged)), d);
    } else {
      AfterPut(w, s, c.(failed := true, phase := CleaningUp(c.mails)));
    }
  }

  // ----- steps that remove objects -----

  lemma RemovedOk(d: Db, oid: Oid, ok: bool)
    requires Base(d)
    ensures Base(Removed(d, oid, ok))
  {
  }

  lemma RemovedElsewhere(d: Db, s: Sid, oid: Oid, ok: bool, t: Sid, c: Ctx)
    requires t != s && oid in d.owner && (d.owner[oid].Dead? || d.owner[oid] == Pending(s))
    ensures Undisturbed(d, Removed(d, oid, ok), t, c)
  {
  }

  lemma AfterRemoval(w: World, s: Sid, c: Ctx, oid: Oid, ok: bool)
    requires Inv(w) && oid in w.db.owner && (w.db.owner[oid].Dead? || w.db.owner[oid] == Pending(s))
    requires CtxOk(Removed(w.db, oid, ok), s, c) && !Locked(c)
    ensures Inv(PutDb(w, s, c, Removed(w.db, oid, ok)))
  {
    RemovedOk(w.db, oid, ok);
    forall t | t in w.sessions && t != s
      ensures Undisturbed(w.db, Removed(w.db, oid, ok), t, w.sessions[t])
    {
      RemovedElsewhere(w.db, s, oid, ok, t, w.sessions[t]);
    }
    FromOwnPart(w, s, c, Removed(w.db, oid, ok));
  }

  lemma AfterRemove(w: World, s: Sid, c: Ctx, ok: bool)
    requires Inv(w) && CtxOk(w.db, s, c) && Allowed(w, c, Remove(ok))
    ensures Inv(StepRemove(w, s, c, ok))
  {
    assert c.phase.queue[0] in c.phase.queue;
    AfterRemoval(w, s, c.(phase := Removing(c.phase.queue[1..])), c.phase.queue[0], ok);
  }

  lemma AfterClean(w: World, s: Sid, c: Ctx, ok: bool)
    requires Inv(w) && CtxOk(w.db, s, c) && Allowed(w, c, Clean(ok))
    ensures Inv(StepClean(w, s, c, ok))
  {
    assert c.phase.todo[0] in c.phase.todo;
    AfterRemoval(w, s, c.(phase := CleaningUp(c.phase.todo[1..])), c.phase.todo[0], ok);
  }

  // ----- the rebuild -----

  lemma RebuiltOk(d: Db, loaded: set<Oid>, records: seq<Record>, nextUid: map<BoxId, nat>)
    requires Base(d) && forall r :: r in records ==> r.oid in loaded
    requires forall o :: o in loaded ==> o in d.store && d.store[o].uid.Some?
    ensures Base(Rebuilt(d, records, nextUid))
  {
    var d' := Rebuilt(d, records, nextUid);
    forall o | o in d'.store && d'.store[o].uid.Some?
      ensures d'.store[o].data == d'.whole[o]
    {
      if Lookup(records, o).Some? { assert Lookup(records, o).value in records; }
    }
  }

  lemma AfterRebuild(w: World, text: string, records: seq<Record>, nextUid: map<BoxId, nat>)
    requires Inv(w) && w.sessions == map[] && RebuildResult(w, text, records, nextUid)
    ensures Inv(StepRebuild(w, text, records, nextUid))
  {
    RebuiltOk(w.db, Loaded(w.db.store, OidSet(w.index)), records, nextUid);
  }

  lemma AfterRepair(w: World, store: map<Oid, Object>, text: string, records: seq<Record>, nextUid: map<BoxId, nat>)
    requires Inv(w) && w.sessions == map[] && RepairResult(w, store, text, records)
    ensures Inv(StepRepair(w, store, text, records, nextUid))
  {
    var d, d' := w.db, StepRepair(w, store, text, records, nextUid).db;
    forall o | o in d'.store && !d'.owner[o].Pending?
      ensures d'.store[o].uid.Some?
    {
      if Lookup(records, o).Some? { assert Lookup(records, o).value in records; }
    }
  }

  // ----- every step, every run -----

  lemma SaveActInv(w: World, s: Sid, c: Ctx, a: Action)
    requires Inv(w) && CtxOk(w.db, s, c) && Allowed(w, c, a) && IsSave(a)
    ensures Inv(Apply(w, s, c, a))
  {
    match a
    case Begin(oid, connected) => AfterBegin(w, s, c, oid, connected);
    case Continue(bytes, ok) => AfterContinue(w, s, c, bytes, ok);
    case Finish(streamOk, maxObject, chunk, metaOk) => AfterFinish(w, s, c, streamOk, maxObject, chunk, metaOk);
    case WriteChunk(ok) => AfterWriteChunk(w, s, c, ok);
    case FinishEnd(indexed) => AfterFinishEnd(w, s, c, indexed);
    case Cancel => AfterCancel(w, s, c);
    case Copy(src, oid, ok) => AfterCopy(w, s, c, src, oid, ok);
  }

  lemma AssignActInv(w: World, s: Sid, c: Ctx, ok: bool)
    requires Inv(w) && s in w.sessions && w.sessions[s] == c && Allowed(w, c, AssignUid(ok))
    ensures Inv(Apply(w, s, c, AssignUid(ok)))
  {
    var w' := Apply(w, s, c, AssignUid(ok));
    var done := c.phase.done;
    if ok {
      assert w' == PutDb(w, s, c.(phase := Assigning(done + 1)),
          WithUid(w.db, c.mails[done], NextUid(w.db.nextUid, c.box) + done));
      AfterAssignUid(w, s, c, done);
    } else {
      AfterEndTransaction(w, s, c);
    }
  }

  lemma CommitActInv(w: World, s: Sid, a: Action)
    requires Inv(w) && Enabled(w, Act(s, a)) && Disciplined(w, Act(s, a))
    requires a.CommitPre? || a.AssignUid? || a.Publish? || a.SyncFinish?
    ensures Inv(Apply(w, s, w.sessions[s], a))
  {
    var c := w.sessions[s];
    match a
    case CommitPre(ok, queue) => AfterCommitPre(w, s, c, ok, queue);
    case AssignUid(ok) => AssignActInv(w, s, c, ok);
    case Publish(ok) => AfterPublish(w, s, c, ok);
    case SyncFinish(ok) => AfterSyncFinish(w, s, c, ok);
  }

  lemma EndActInv(w: World, s: Sid, c: Ctx, a: Action)
    requires Inv(w) && CtxOk(w.db, s, c) && Allowed(w, c, a)
    requires a.Remove? || a.Clean? || a.EndClean? || a.Crash?
    ensures Inv(Apply(w, s, c, a))
  {
    match a
    case Remove(ok) => AfterRemove(w, s, c, ok);
    case Clean(ok) => AfterClean(w, s, c, ok);
    case EndClean => AfterClose(w, s);
    case Crash => AfterClose(w, s);
  }

  lemma RollbackInv(w: World, s: Sid, c: Ctx, a: Action)
    requires Inv(w) && CtxOk(w.db, s, c) && Allowed(w, c, a) && (a.EndSync? || a.Rollback?)
    ensures Inv(Apply(w, s, c, a))
  {
    if a.EndSync? {
      AfterEndTransaction(w, s, c);
    } else {
      AfterEndTransaction(w, s, c.(failed := c.failed || !c.finished));
    }
  }

  lemma ActInv(w: World, s: Sid, a: Action)
    requires Inv(w) && Enabled(w, Act(s, a)) && Disciplined(w, Act(s, a))
    ensures Inv(Apply(w, s, w.sessions[s], a))
  {
    if IsSave(a) {
      SaveActInv(w, s, w.sessions[s], a);
    } else if a.CommitPre? || a.AssignUid? || a.Publish? || a.SyncFinish? {
      CommitActInv(w, s, a);
    } else if a.EndSync? || a.Rollback? {
      RollbackInv(w, s, w.sessions[s], a);
    } else {
      EndActInv(w, s, w.sessions[s], a);
    }
  }

  lemma StepInv(w: World, e: Event)
    requires Inv(w) && Enabled(w, e) && Disciplined(w, e)
    ensures Inv(Step(w, e))
  {
    match e
    case Alloc(s, box) => AfterAlloc(w, s, box);
    case Act(s, a) => ActInv(w, s, a);
    case Rebuild(text, records, nextUid) => AfterRebuild(w, text, records, nextUid);
    case Repair(store, text, records, nextUid) => AfterRepair(w, store, text, records, nextUid);
  }

  lemma EmptyInv()
    ensures Inv(EMPTY)
  {
  }

  lemma {:induction false} RunInv(t: Run, i: nat)
    requires DisciplinedRun(t) && Inv(t.ws[0]) && i <= |t.es|
    ensures Inv(t.ws[i])
  {
    if i > 0 {
      RunInv(t, i - 1);
      LinkInv(t, i - 1);
    }
  }

  lemma LinkInv(t: Run, i: nat)
    requires DisciplinedRun(t) && i < |t.es| && Inv(t.ws[i])
    ensures Inv(t.ws[i + 1])
  {
    assert Linked(t, i) && DisciplinedAt(t, i);
    StepInv(t.ws[i], t.es[i]);
  }
}
