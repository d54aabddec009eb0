/**
 The save, copy and expunge protocol as a machine of atomic steps over three stores that share no
 transaction: the RADOS objects, the pending index transactions and the committed index. Any number
 of sessions take steps in any order, every step may fail where the code can see a failure, and a
 session may crash between any two steps.
 */
module SaveProtocol {
  import opened Rados
  import opened ChunkedWriter
  import opened RecoveryIndex

  type Sid = nat

  /** A committed index record. */
  datatype Record = Record(box: BoxId, uid: nat, oid: Oid)

  /** What the caller was told about one appended mail of a transaction. */
  datatype Outcome = Begun | Stored | Refused

  datatype Phase =
    | Ready
    | Receiving(oid: Oid, buffer: seq<byte>)
    | Unconnected
    | Writing(oid: Oid, buffer: seq<byte>, chunk: nat, done: nat)
    | Assigning(done: nat)
    | Synced(published: bool)
    | Removing(queue: seq<Oid>)
    | CleaningUp(todo: seq<Oid>)

  /** `rbox_save_context` with its index transaction, and the sync context it opens in `commit_pre`. */
  datatype Ctx = Ctx(
    box: BoxId, failed: bool, finished: bool,
    mails: seq<Oid>,          // rados_mails
    appended: seq<Oid>,       // oids of the records appended to the index transaction
    outcomes: seq<Outcome>,   // what the save calls of those records returned
    expunged: seq<Oid>,       // expunged_items of the sync context
    phase: Phase)

  /** Whose business an oid is: of a transaction not yet committed, of the index, or of nobody any more. */
  datatype Owner = Pending(sid: Sid) | Live | Dead

  /** The two durable stores, and what is known about every oid. */
  datatype Db = Db(
    store: map<Oid, Object>,
    records: seq<Record>,
    nextUid: map<BoxId, nat>,
    whole: map<Oid, seq<byte>>,    // the mail an oid was meant for
    owner: map<Oid, Owner>)

  /** `index` is the text of the recovery index. */
  datatype World = World(db: Db, index: string, sessions: map<Sid, Ctx>)

  /** A step of a session that has a context. */
  datatype Action =
    | Begin(oid: Oid, connected: bool)
    | Continue(bytes: seq<byte>, ok: bool)
    | Finish(streamOk: bool, maxObject: nat, chunk: nat, metaOk: bool)
    | WriteChunk(ok: bool)
    | FinishEnd(indexed: bool)
    | Cancel
    | Copy(src: Oid, oid: Oid, ok: bool)
    | CommitPre(ok: bool, queue: seq<Oid>)
    | AssignUid(ok: bool)
    | Publish(ok: bool)
    | SyncFinish(ok: bool)
    | Remove(ok: bool)
    | EndSync
    | Clean(ok: bool)
    | EndClean
    | Rollback
    | Crash

  datatype Event =
    | Alloc(s: Sid, box: BoxId)
    | Act(s: Sid, a: Action)
    | Rebuild(text: string, records: seq<Record>, nextUid: map<BoxId, nat>)
    | Repair(store: map<Oid, Object>, text: string, records: seq<Record>, nextUid: map<BoxId, nat>)

  // ----- parts of a step -----

  function NextUid(nextUid: map<BoxId, nat>, box: BoxId): nat {
    if box in nextUid then nextUid[box] else 1
  }

  function Put(w: World, s: Sid, c: Ctx): World { w.(sessions := w.sessions[s := c]) }

  function PutDb(w: World, s: Sid, c: Ctx, db: Db): World { Put(w, s, c).(db := db) }

  function Close(w: World, s: Sid): World { w.(sessions := w.sessions - {s}) }

  /** `rbox_add_to_index`: the record and the mail object are added together. */
  function AddToIndex(c: Ctx, oid: Oid, outcome: Outcome): Ctx {
    c.(appended := c.appended + [oid], mails := c.mails + [oid], outcomes := c.outcomes + [outcome])
  }

  /** End of one save call: `clean_up_write_finish` and the value returned to the caller. */
  function EndSave(c: Ctx, ok: bool): Ctx {
    var outcomes := if c.outcomes == [] then [] else c.outcomes[|c.outcomes| - 1 := if ok then Stored else Refused];
    c.(failed := !ok, finished := true, outcomes := outcomes, phase := Ready)
  }

  /** The tail of `rbox_transaction_save_rollback`: a failed context deletes the objects of the whole transaction. */
  function EndTransaction(w: World, s: Sid, c: Ctx): World {
    if c.failed then Put(w, s, c.(phase := CleaningUp(c.mails))) else Close(w, s)
  }

  function NewRecords(box: BoxId, first: nat, oids: seq<Oid>): seq<Record> {
    seq(|oids|, i requires 0 <= i < |oids| => Record(box, first + i, oids[i]))
  }

  /** The records left when those of mailbox `box` that name an oid of `gone` are expunged. */
  function Remaining(records: seq<Record>, box: BoxId, gone: seq<Oid>): (left: seq<Record>)
    ensures forall r :: r in left <==> r in records && !(r.box == box && r.oid in gone)
  {
    if records == [] then []
    else
      var n := |records| - 1;
      assert records == records[..n] + [records[n]];
      Remaining(records[..n], box, gone) +
      (if records[n].box == box && records[n].oid in gone then [] else [records[n]])
  }

  function Transfer(owner: map<Oid, Owner>, oids: seq<Oid>, o: Owner): map<Oid, Owner> {
    map k | k in owner :: if k in oids then o else owner[k]
  }

  predicate Locked(c: Ctx) { c.phase.Assigning? || c.phase.Synced? }

  /** Metadata that `validate_metadata` accepts: written by the save, and with a UID. */
  predicate Valid(o: Object) { o.meta && o.uid.Some? }

  /** What the rebuild loads when it looks only at the objects listed in `oids`. */
  function Loaded(store: map<Oid, Object>, oids: set<Oid>): set<Oid> {
    set oid | oid in store && oid in oids && Valid(store[oid])
  }

  function Lookup(records: seq<Record>, oid: Oid): (r: Option<Record>)
    ensures r.Some? ==> r.value in records && r.value.oid == oid
    ensures r.None? ==> forall x :: x in records ==> x.oid != oid
  {
    if records == [] then None
    else if records[0].oid == oid then Some(records[0])
    else Lookup(records[1..], oid)
  }

  function Reassigned(store: map<Oid, Object>, records: seq<Record>): map<Oid, Object> {
    map oid | oid in store ::
      match Lookup(records, oid)
      case Some(r) => store[oid].(uid := Some(r.uid), box := r.box)
      case None => store[oid]
  }

  // ----- the steps -----

  predicate Fresh(d: Db, oid: Oid) { oid !in d.owner && Indexable(oid) }

  predicate RecordsOk(records: seq<Record>, nextUid: map<BoxId, nat>) {
    && (forall i, j :: 0 <= i < j < |records| ==> records[i].oid != records[j].oid)
    && (forall i, j :: 0 <= i < j < |records| && records[i].box == records[j].box ==> records[i].uid < records[j].uid)
    && (forall i :: 0 <= i < |records| ==> records[i].uid < NextUid(nextUid, records[i].box))
  }

  /** What a forced rebuild that visits every mailbox and returns 0 leaves: one record per loaded object. */
  ghost predicate RebuildResult(w: World, text: string, records: seq<Record>, nextUid: map<BoxId, nat>) {
    var loaded := Loaded(w.db.store, OidSet(w.index));
    && WellFormed(text) && OidSet(text) == loaded
    && RecordsOk(records, nextUid)
    && (forall oid :: oid in loaded <==> exists r :: r in records && r.oid == oid)
    && (forall r :: r in records ==> r.oid in loaded)
    && (forall box :: box in w.db.nextUid ==> w.db.nextUid[box] <= NextUid(nextUid, box))
  }

  /** A rebuild changes nothing of an object but its mailbox and the value of its UID. */
  ghost predicate SameMails(store: map<Oid, Object>, store': map<Oid, Object>) {
    && store'.Keys == store.Keys
    && forall o :: o in store ==>
         store'[o].data == store[o].data && store'[o].meta == store[o].meta && store'[o].uid.Some? == store[o].uid.Some?
  }

  /**
   What any forced rebuild leaves, also one that cannot convert a mail, cannot open a mailbox or finds no INBOX: the
   recovery index lists the loaded objects, and records name known oids that were given a UID.
   */
  ghost predicate RepairResult(w: World, store: map<Oid, Object>, text: string, records: seq<Record>) {
    && SameMails(w.db.store, store)
    && WellFormed(text) && OidSet(text) == Loaded(w.db.store, OidSet(w.index))
    && forall r :: r in records ==> r.oid in w.db.owner && (r.oid in store ==> store[r.oid].uid.Some?)
  }

  ghost predicate Allowed(w: World, c: Ctx, a: Action) {
    match a
    case Begin(oid, _) => c.phase.Ready? && Fresh(w.db, oid)
    case Continue(_, _) => c.phase.Receiving?
    case Finish(_, _, chunk, _) => (c.phase.Receiving? || c.phase.Unconnected?) && chunk > 0
    case WriteChunk(_) => c.phase.Writing? && c.phase.chunk > 0
        && c.phase.done < ChunkCount(|c.phase.buffer|, c.phase.chunk)
    case FinishEnd(_) => c.phase.Writing? && c.phase.chunk > 0
        && c.phase.done == ChunkCount(|c.phase.buffer|, c.phase.chunk)
    case Cancel => c.phase.Receiving? || c.phase.Unconnected?
    case Copy(src, oid, _) => c.phase.Ready? && Fresh(w.db, oid) && src in w.db.owner && src in w.db.whole
        && !w.db.owner[src].Pending?
    case CommitPre(ok, queue) =>
      && c.phase.Ready? && c.finished
      && (ok ==> && (forall t :: t in w.sessions && Locked(w.sessions[t]) ==> w.sessions[t].box != c.box)
                 && (forall o :: o in queue ==> exists r :: r in w.db.records && r.oid == o && r.box == c.box))
    case AssignUid(_) => c.phase.Assigning? && c.phase.done < |c.mails|
    case Publish(_) => c.phase.Assigning? && c.phase.done == |c.mails|
    case SyncFinish(_) => c.phase.Synced?
    case Remove(_) => c.phase.Removing? && c.phase.queue != []
    case EndSync => c.phase.Removing? && c.phase.queue == []
    case Clean(_) => c.phase.CleaningUp? && c.phase.todo != []
    case EndClean => c.phase.CleaningUp? && c.phase.todo == []
    case Rollback => c.phase.Ready? || c.phase.Receiving? || c.phase.Unconnected?
    case Crash => true
  }

  ghost predicate Enabled(w: World, e: Event) {
    match e
    case Alloc(s, _) => s in w.sessions ==> w.sessions[s].phase.Ready?
    case Act(s, a) => s in w.sessions && Allowed(w, w.sessions[s], a)
    case Rebuild(text, records, nextUid) => w.sessions == map[] && RebuildResult(w, text, records, nextUid)
    case Repair(store, text, records, _) => w.sessions == map[] && RepairResult(w, store, text, records)
  }

  /** `rbox_save_alloc`: a new context starts failed and finished, a reused one starts neither. */
  function StepAlloc(w: World, s: Sid, box: BoxId): World {
    if s in w.sessions then Put(w, s, w.sessions[s].(failed := false, finished := false))
    else Put(w, s, Ctx(box, true, true, [], [], [], [], Ready))
  }

  function StepBegin(w: World, s: Sid, c: Ctx, oid: Oid, connected: bool): World {
    if connected then
      PutDb(w, s, AddToIndex(c, oid, Begun).(failed := false, phase := Receiving(oid, [])),
            w.db.(whole := w.db.whole[oid := []], owner := w.db.owner[oid := Pending(s)]))
    else
      Put(w, s, c.(failed := true, phase := Unconnected))
  }

  function StepContinue(w: World, s: Sid, c: Ctx, bytes: seq<byte>, ok: bool): World
    requires c.phase.Receiving?
  {
    var oid := c.phase.oid;
    var sent := if oid in w.db.whole then w.db.whole[oid] + bytes else bytes;
    var c' := if c.failed then c
              else if ok then c.(phase := Receiving(oid, c.phase.buffer + bytes))
              else c.(failed := true);
    PutDb(w, s, c', w.db.(whole := w.db.whole[oid := sent]))
  }

  function StepFinish(w: World, s: Sid, c: Ctx, streamOk: bool, maxObject: nat, chunk: nat, metaOk: bool): World
    requires c.phase.Receiving? || c.phase.Unconnected?
  {
    if c.phase.Unconnected? then Put(w, s, c.(failed := true, finished := true, phase := Ready))
    else if c.failed || !streamOk || c.phase.buffer == [] || |c.phase.buffer| > maxObject
        then Put(w, s, EndSave(c, false))
    else
      PutDb(w, s, c.(phase := Writing(c.phase.oid, c.phase.buffer, chunk, 0)),
            if metaOk then w.db.(store := SetMeta(w.db.store, c.phase.oid, c.box)) else w.db)
  }

  function StepWriteChunk(w: World, s: Sid, c: Ctx, ok: bool): World
    requires c.phase.Writing?
  {
    var p := c.phase;
    var from, to := Offset(|p.buffer|, p.chunk, p.done), Offset(|p.buffer|, p.chunk, p.done + 1);
    if ok && from <= to then
      PutDb(w, s, c.(phase := p.(done := p.done + 1)), w.db.(store := Append(w.db.store, p.oid, p.buffer[from..to])))
    else Put(w, s, EndSave(c, false))
  }

  function StepFinishEnd(w: World, s: Sid, c: Ctx, indexed: bool): World
    requires c.phase.Writing?
  {
    Put(w, s, EndSave(c, true)).(index := if indexed then w.index + Line(c.phase.oid) else w.index)
  }

  function StepCancel(w: World, s: Sid, c: Ctx): World {
    Put(w, s, if c.phase.Receiving? then EndSave(c, false) else c.(failed := true, finished := true, phase := Ready))
  }

  /** `copy_mail`: one compound operation copies the object and its attributes; a failure leaves `failed` as it was. */
  function StepCopy(w: World, s: Sid, c: Ctx, src: Oid, oid: Oid, ok: bool): World
    requires src in w.db.whole
  {
    if ok && src in w.db.store then
      PutDb(w, s, AddToIndex(c, oid, Stored).(failed := false, finished := true),
            w.db.(store := w.db.store[oid := w.db.store[src].(box := c.box)],
                  whole := w.db.whole[oid := w.db.whole[src]], owner := w.db.owner[oid := Pending(s)]))
    else Put(w, s, c.(finished := true))
  }

  function StepCommitPre(w: World, s: Sid, c: Ctx, ok: bool, queue: seq<Oid>): World {
    if ok then Put(w, s, c.(expunged := queue, phase := Assigning(0)))
    else Put(w, s, c.(failed := true, phase := CleaningUp(c.mails)))
  }

  /** The U attribute is set with a write operation, which would create a missing object. */
  function WithUid(d: Db, oid: Oid, uid: nat): Db {
    d.(store := d.store[oid := ObjectAt(d.store, oid).(uid := Some(uid))])
  }

  /** Dovecot commits the index transaction between `commit_pre` and `commit_post`. */
  function Published(d: Db, box: BoxId, oids: seq<Oid>): Db {
    var first := NextUid(d.nextUid, box);
    d.(records := d.records + NewRecords(box, first, oids),
       nextUid := d.nextUid[box := first + |oids|],
       owner := Transfer(d.owner, oids, Live))
  }

  function StepPublish(w: World, s: Sid, c: Ctx, ok: bool): World {
    PutDb(w, s, c.(phase := Synced(ok)), if ok then Published(w.db, c.box, c.appended) else w.db)
  }

  function Expunged(d: Db, box: BoxId, gone: seq<Oid>): Db {
    d.(records := Remaining(d.records, box, gone), owner := Transfer(d.owner, gone, Dead))
  }

  function StepSyncFinish(w: World, s: Sid, c: Ctx, ok: bool): World {
    if ok then PutDb(w, s, c.(phase := Removing(c.expunged)), Expunged(w.db, c.box, c.expunged))
    else Put(w, s, c.(failed := true, phase := CleaningUp(c.mails)))
  }

  /** The store after an attempt to remove an object. */
  function Removed(d: Db, oid: Oid, ok: bool): Db {
    if ok then d.(store := d.store - {oid}) else d
  }

  function StepRemove(w: World, s: Sid, c: Ctx, ok: bool): World
    requires c.phase.Removing? && c.phase.queue != []
  {
    PutDb(w, s, c.(phase := Removing(c.phase.queue[1..])), Removed(w.db, c.phase.queue[0], ok))
  }

  function StepClean(w: World, s: Sid, c: Ctx, ok: bool): World
    requires c.phase.CleaningUp? && c.phase.todo != []
  {
    PutDb(w, s, c.(phase := CleaningUp(c.phase.todo[1..])), Removed(w.db, c.phase.todo[0], ok))
  }

  /** A context that is not finished is cancelled first, which marks it failed. */
  function StepRollback(w: World, s: Sid, c: Ctx): World {
    EndTransaction(w, s, c.(failed := c.failed || !c.finished))
  }

  /** An oid is live iff a record names it; one that no record names any more is nobody's. */
  function Reowned(owner: map<Oid, Owner>, records: seq<Record>): map<Oid, Owner> {
    map k | k in owner :: if Lookup(records, k).Some? then Live else if owner[k].Live? then Dead else owner[k]
  }

  function Rebuilt(d: Db, records: seq<Record>, nextUid: map<BoxId, nat>): Db {
    d.(store := Reassigned(d.store, records), records := records, nextUid := nextUid,
       owner := Reowned(d.owner, records))
  }

  function StepRebuild(w: World, text: string, records: seq<Record>, nextUid: map<BoxId, nat>): World {
    w.(db := Rebuilt(w.db, records, nextUid), index := text)
  }

  function StepRepair(w: World, store: map<Oid, Object>, text: string, records: seq<Record>,
                      nextUid: map<BoxId, nat>): World
  {
    w.(db := w.db.(store := store, records := records, nextUid := nextUid, owner := Reowned(w.db.owner, records)),
       index := text)
  }

  ghost function Apply(w: World, s: Sid, c: Ctx, a: Action): World
    requires Allowed(w, c, a)
  {
    match a
    case Begin(oid, connected) => StepBegin(w, s, c, oid, connected)
    case Continue(bytes, ok) => StepContinue(w, s, c, bytes, ok)
    case Finish(streamOk, maxObject, chunk, metaOk) => StepFinish(w, s, c, streamOk, maxObject, chunk, metaOk)
    case WriteChunk(ok) => StepWriteChunk(w, s, c, ok)
    case FinishEnd(indexed) => StepFinishEnd(w, s, c, indexed)
    case Cancel => StepCancel(w, s, c)
    case Copy(src, oid, ok) => StepCopy(w, s, c, src, oid, ok)
    case CommitPre(ok, queue) => StepCommitPre(w, s, c, ok, queue)
    case AssignUid(ok) =>
      var done := c.phase.done;
      if ok then
        PutDb(w, s, c.(phase := Assigning(done + 1)), WithUid(w.db, c.mails[done], NextUid(w.db.nextUid, c.box) + done))
      else EndTransaction(w, s, c)
    case Publish(ok) => StepPublish(w, s, c, ok)
    case SyncFinish(ok) => StepSyncFinish(w, s, c, ok)
    case Remove(ok) => StepRemove(w, s, c, ok)
    case EndSync => EndTransaction(w, s, c)
    case Clean(ok) => StepClean(w, s, c, ok)
    case EndClean => Close(w, s)
    case Rollback => StepRollback(w, s, c)
    case Crash => Close(w, s)
  }

  ghost function Step(w: World, e: Event): World
    requires Enabled(w, e)
  {
    match e
    case Alloc(s, box) => StepAlloc(w, s, box)
    case Act(s, a) => Apply(w, s, w.sessions[s], a)
    case Rebuild(text, records, nextUid) => StepRebuild(w, text, records, nextUid)
    case Repair(store, text, records, nextUid) => StepRepair(w, store, text, records, nextUid)
  }

  /** The calls before the end of a transaction. */
  predicate IsSave(a: Action) {
    a.Begin? || a.Continue? || a.Finish? || a.WriteChunk? || a.FinishEnd? || a.Cancel? || a.Copy?
  }

  // ----- runs -----

  const EMPTY := World(Db(map[], [], map[], map[], map[]), "", map[])

  /** The events of a run and the worlds between them. */
  datatype Trace = Trace(ws: seq<World>, es: seq<Event>)

  ghost predicate Linked(t: Trace, i: nat)
    requires i < |t.es| && |t.ws| == |t.es| + 1
  {
    Enabled(t.ws[i], t.es[i]) && t.ws[i + 1] == Step(t.ws[i], t.es[i])
  }

  ghost predicate IsRun(t: Trace) {
    |t.ws| == |t.es| + 1 && forall i: nat :: i < |t.es| ==> Linked(t, i)
  }

  type Run = t: Trace | IsRun(t) ghost witness Trace([EMPTY], [])

  /** A step from its last world makes a run longer. */
  lemma ExtendedIsRun(t: Run, e: Event)
    requires Enabled(t.ws[|t.es|], e)
    ensures IsRun(Trace(t.ws + [Step(t.ws[|t.es|], e)], t.es + [e]))
  {
    var t' := Trace(t.ws + [Step(t.ws[|t.es|], e)], t.es + [e]);
    forall i: nat | i < |t'.es|
      ensures Linked(t', i)
    {
      if i < |t.es| { assert Linked(t, i); }
    }
  }

  /** A transaction that may be committed: no save of it was refused, and the last call did not fail. */
  predicate Committable(c: Ctx) {
    c.mails == [] || (!c.failed && forall i :: 0 <= i < |c.outcomes| ==> c.outcomes[i] == Stored)
  }

  /**
   The two conditions the protocol puts on its surroundings: the caller rolls back a transaction that
   is not committable, and once new records are published the sync commit succeeds.
   */
  ghost predicate Disciplined(w: World, e: Event)
    requires Enabled(w, e)
  {
    e.Act? ==>
      var c := w.sessions[e.s];
      && (e.a.CommitPre? && e.a.ok ==> Committable(c))
      && (e.a.SyncFinish? ==> e.a.ok || c.mails == [] || !c.phase.published)
  }

  ghost predicate DisciplinedAt(t: Run, i: nat)
    requires i < |t.es|
  {
    assert Linked(t, i);
    Disciplined(t.ws[i], t.es[i])
  }

  ghost predicate DisciplinedRun(t: Run) {
    forall i: nat :: i < |t.es| ==> DisciplinedAt(t, i)
  }

  // ----- what the protocol promises -----

  predicate WholeIn(d: Db, oid: Oid) {
    oid in d.store && oid in d.whole && d.store[oid].data == d.whole[oid]
  }

  /** Every committed record names an object that holds the whole mail and carries the record's UID. */
  predicate Durable(d: Db) {
    forall r :: r in d.records ==> WholeIn(d, r.oid) && d.store[r.oid].uid == Some(r.uid)
  }
}
