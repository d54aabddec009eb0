/**
 The save context as the code keeps it: fields that every call updates in place, loops over chunks, mails and
 expunged items. Each method keeps a ghost history and extends it only by steps of the protocol machine, so what
 is proved of every run of the machine holds of every sequence of calls.
 */
module SaveContext {
  import opened Rados
  import Text
  import opened ChunkedWriter
  import opened RecoveryIndex
  import opened SaveProtocol
  import opened SavePairing

  // ----- histories -----

  ghost function Now(t: Run): World { t.ws[|t.es|] }

  /** The sessions other than `sid`. */
  ghost function Others(t: Run, sid: Sid): map<Sid, Ctx> { Now(t).sessions - {sid} }

  ghost function Owned(t: Run): set<Oid> { Now(t).db.owner.Keys }

  /** One history continues another, no session but `sid` changed, and no oids but `used` were taken. Steps are
      functions, so the events say the rest. */
  ghost predicate ContinuesUsing(t: Run, t': Run, sid: Sid, used: set<Oid>) {
    t.es <= t'.es && Others(t', sid) == Others(t, sid) && Owned(t') <= Owned(t) + used
  }

  ghost predicate Continues(t: Run, t': Run, sid: Sid) { ContinuesUsing(t, t', sid, {}) }

  /** A step of a session leaves the others alone. */
  lemma StepOthers(w: World, e: Event)
    requires Enabled(w, e) && !e.Rebuild? && !e.Repair?
    ensures Step(w, e).sessions - {e.s} == w.sessions - {e.s}
  {
    if e.Act? {
      if IsSave(e.a) { SaveOthers(w, e.s, e.a); } else { EndOthers(w, e.s, e.a); }
    }
  }

  lemma SaveOthers(w: World, s: Sid, a: Action)
    requires Enabled(w, Act(s, a)) && IsSave(a)
    ensures Apply(w, s, w.sessions[s], a).sessions - {s} == w.sessions - {s}
  {
  }

  lemma EndOthers(w: World, s: Sid, a: Action)
    requires Enabled(w, Act(s, a)) && !IsSave(a)
    ensures Apply(w, s, w.sessions[s], a).sessions - {s} == w.sessions - {s}
  {
  }

  /** The oids a step takes. */
  function Used(e: Event): set<Oid> {
    if e.Act? && e.a.Begin? then {e.a.oid} else if e.Act? && e.a.Copy? then {e.a.oid} else {}
  }

  lemma StepOwned(w: World, e: Event)
    requires Enabled(w, e) && !e.Rebuild? && !e.Repair?
    ensures Step(w, e).db.owner.Keys <= w.db.owner.Keys + Used(e)
  {
    if e.Act? {
      if IsSave(e.a) { SaveOwned(w, e.s, e.a); } else { EndOwned(w, e.s, e.a); }
    }
  }

  lemma SaveOwned(w: World, s: Sid, a: Action)
    requires Enabled(w, Act(s, a)) && IsSave(a)
    ensures Apply(w, s, w.sessions[s], a).db.owner.Keys <= w.db.owner.Keys + Used(Act(s, a))
  {
  }

  lemma EndOwned(w: World, s: Sid, a: Action)
    requires Enabled(w, Act(s, a)) && !IsSave(a)
    ensures Apply(w, s, w.sessions[s], a).db.owner.Keys <= w.db.owner.Keys
  {
  }

  ghost function Extended(t: Run, e: Event): (t': Run)
    requires Enabled(Now(t), e) && !e.Rebuild? && !e.Repair?
    ensures Now(t') == Step(Now(t), e) && ContinuesUsing(t, t', e.s, Used(e)) && t'.ws[0] == t.ws[0]
  {
    ExtendedIsRun(t, e);
    StepOthers(Now(t), e);
    StepOwned(Now(t), e);
    Trace(t.ws + [Step(Now(t), e)], t.es + [e])
  }

  /** An oid that was not taken can still be used. */
  lemma StillFresh(t: Run, t': Run, sid: Sid, used: set<Oid>, oid: Oid)
    requires ContinuesUsing(t, t', sid, used) && Fresh(Now(t).db, oid) && oid !in used
    ensures Fresh(Now(t').db, oid)
  {
    assert oid !in Owned(t);
  }

  lemma ContinuesTransitive(t: Run, t': Run, t'': Run, sid: Sid)
    requires Continues(t, t', sid) && Continues(t', t'', sid)
    ensures Continues(t, t'', sid)
  {
  }

  /** The stores: RADOS objects, the recovery index, and Dovecot's index. */
  class Stores {
    var objects: map<Oid, Object>
    var text: string
    var records: seq<Record>
    var nextUid: map<BoxId, nat>
    ghost var history: Run

    ghost predicate Valid()
      reads this
    {
      var w := Now(history);
      && history.ws[0] == EMPTY
      && w.db.store == objects && w.index == text && w.db.records == records && w.db.nextUid == nextUid
    }

    constructor ()
      ensures Valid() && history == Trace([EMPTY], [])
    {
      objects, text, records, nextUid := map[], "", [], map[];
      history := Trace([EMPTY], []);
    }
  }

  class Context {
    const stores: Stores
    const sid: Sid
    const box: BoxId
    var failed: bool
    var finished: bool
    var mails: seq<Oid>
    var appended: seq<Oid>
    var buffer: seq<byte>
    var mail: Option<Oid>
    var queue: seq<Oid>
    ghost var outcomes: seq<Outcome>
    ghost var phase: Phase

    ghost function Value(): Ctx
      reads this
    {
      Ctx(box, failed, finished, mails, appended, outcomes, queue, phase)
    }

    /** The fields of the open mail are those of the phase. */
    ghost predicate Consistent()
      reads this
    {
      && (phase.Receiving? ==> mail == Some(phase.oid) && buffer == phase.buffer)
      && (phase.Unconnected? ==> failed)
    }

    ghost predicate Valid()
      reads this, stores
    {
      && stores.Valid()
      && sid in Now(stores.history).sessions && Now(stores.history).sessions[sid] == Value()
      && Consistent()
    }

    /** The context is gone. */
    ghost predicate Closed()
      reads this, stores
    {
      stores.Valid() && sid !in Now(stores.history).sessions
    }

    /** `rbox_save_alloc` without a context: it starts failed and finished. */
    constructor (stores: Stores, sid: Sid, box: BoxId)
      requires stores.Valid() && sid !in Now(stores.history).sessions
      modifies stores
      ensures this.stores == stores && this.sid == sid && this.box == box
      ensures Valid() && phase == Ready && failed && finished && mails == []
      ensures Continues(old(stores.history), stores.history, sid)
    {
      this.stores, this.sid, this.box := stores, sid, box;
      failed, finished, mails, appended, outcomes := true, true, [], [], [];
      buffer, mail, queue, phase := [], None, [], Ready;
      new;
      stores.history := Extended(stores.history, Alloc(sid, box));
    }

    /** `rbox_save_alloc` with a context. */
    method Reuse()
      requires Valid() && phase.Ready?
      modifies this, stores`history
      ensures Valid() && phase.Ready? && !failed && !finished && mails == old(mails)
      ensures Continues(old(stores.history), stores.history, sid)
    {
      stores.history := Extended(stores.history, Alloc(sid, box));
      failed, finished := false, false;
    }

    /** `rbox_save_begin`: the record is appended before a byte of the mail has arrived. */
    method Begin(oid: Oid, connected: bool)
      requires Valid() && phase.Ready? && Fresh(Now(stores.history).db, oid)
      modifies this, stores`history
      ensures Valid() && ContinuesUsing(old(stores.history), stores.history, sid, {oid})
      ensures stores.history.es == old(stores.history).es + [Act(sid, Action.Begin(oid, connected))]
      ensures phase == if connected then Receiving(oid, []) else Unconnected
      ensures failed == !connected && finished == old(finished)
      ensures mails == if connected then old(mails) + [oid] else old(mails)
    {
      stores.history := Extended(stores.history, Act(sid, Action.Begin(oid, connected)));
      failed := false;
      mail, buffer := Some(oid), [];
      if !connected {
        failed := true;
        phase := Unconnected;
      } else {
        AddToIndex(oid, Begun);
        phase := Receiving(oid, []);
      }
    }

    /** `rbox_add_to_index` */
    method AddToIndex(oid: Oid, ghost outcome: Outcome)
      modifies this`appended, this`mails, this`outcomes
      ensures appended == old(appended) + [oid] && mails == old(mails) + [oid] && outcomes == old(outcomes) + [outcome]
    {
      appended := appended + [oid];
      mails := mails + [oid];
      outcomes := outcomes + [outcome];
    }

    /** `rbox_save_continue` */
    method Continue(bytes: seq<byte>, ok: bool) returns (ret: int)
      requires Valid() && phase.Receiving?
      modifies this, stores`history
      ensures Valid() && phase.Receiving? && phase.oid == old(phase.oid)
      ensures Continues(old(stores.history), stores.history, sid)
      ensures stores.history.es == old(stores.history).es + [Act(sid, Action.Continue(bytes, ok))]
      ensures ret == (if old(failed) || !ok then -1 else 0) && failed == (ret < 0)
      ensures buffer == if ret == 0 then old(buffer) + bytes else old(buffer)
    {
      stores.history := Extended(stores.history, Act(sid, Action.Continue(bytes, ok)));
      if failed { return -1; }
      if !ok {
        failed := true;
        return -1;
      }
      buffer := buffer + bytes;
      phase := Receiving(phase.oid, buffer);
      return 0;
    }

    ghost function Ended(ok: bool): seq<Outcome>
      reads this
    {
      if outcomes == [] then [] else outcomes[|outcomes| - 1 := if ok then Stored else Refused]
    }

    /** One chunk operation. */
    method WriteChunk(oid: Oid, chunk: nat, i: nat, ok: bool)
      requires Valid() && chunk > 0 && phase == Writing(oid, buffer, chunk, i) && i < ChunkCount(|buffer|, chunk)
      requires !failed
      modifies this`phase, this`failed, this`finished, this`outcomes, stores
      ensures Valid() && Continues(old(stores.history), stores.history, sid) && stores.text == old(stores.text)
      ensures if ok then phase == Writing(oid, buffer, chunk, i + 1) && !failed
                else phase == Ready && failed && finished
      ensures stores.objects == if ok then Append(old(stores.objects), oid, Chunk(buffer, chunk, i))
                else old(stores.objects)
    {
      ChunkStepIs(Now(stores.history), sid, Value(), ok);
      stores.history := Extended(stores.history, Act(sid, Action.WriteChunk(ok)));
      if ok {
        stores.objects := Append(stores.objects, oid, Chunk(buffer, chunk, i));
        phase := Writing(oid, buffer, chunk, i + 1);
      } else {
        outcomes := Ended(false);
        failed, finished, phase := true, true, Ready;
      }
    }

    /** The next chunk of a mail that was begun when the store was `before`. */
    method WriteNext(oid: Oid, chunk: nat, i: nat, ok: bool, ghost before: map<Oid, Object>, ghost begun: Run)
      requires Valid() && chunk > 0 && phase == Writing(oid, buffer, chunk, i) && i < ChunkCount(|buffer|, chunk)
      requires !failed
      requires Continues(begun, stores.history, sid)
      requires Prefixed(before, stores.objects, oid, buffer[..Offset(|buffer|, chunk, i)])
      modifies this`phase, this`failed, this`finished, this`outcomes, stores
      ensures Valid() && Continues(begun, stores.history, sid) && stores.text == old(stores.text)
      ensures if ok then phase == Writing(oid, buffer, chunk, i + 1) && !failed
                else phase == Ready && failed && finished
      ensures Prefixed(before, stores.objects, oid, buffer[..Offset(|buffer|, chunk, if ok then i + 1 else i)])
    {
      PrefixGrows(before, stores.objects, oid, buffer, chunk, i);
      WriteChunk(oid, chunk, i, ok);
      ContinuesTransitive(begun, old(stores.history), stores.history, sid);
    }

    /** The chunk loop of `save_mail_write_append`; `plan` says which chunk operations succeed. */
    method WriteChunks(oid: Oid, chunk: nat, plan: seq<bool>) returns (done: nat)
      requires Valid() && chunk > 0 && phase == Writing(oid, buffer, chunk, 0) && !failed
      modifies this`phase, this`failed, this`finished, this`outcomes, stores
      ensures Valid() && Continues(old(stores.history), stores.history, sid) && stores.text == old(stores.text)
      ensures done <= ChunkCount(|buffer|, chunk) && AllGo(plan, done)
      ensures if done < ChunkCount(|buffer|, chunk) then !Goes(plan, done) && phase == Ready && failed && finished
              else phase == Writing(oid, buffer, chunk, done) && !failed
      ensures Prefixed(old(stores.objects), stores.objects, oid, buffer[..Offset(|buffer|, chunk, done)])
    {
      done := 0;
      var count := ChunkCount(|buffer|, chunk);
      AllWritten(|buffer|, chunk);
      while done < count
        invariant done <= count && !failed && phase == Writing(oid, buffer, chunk, done)
        invariant Valid() && Continues(old(stores.history), stores.history, sid) && stores.text == old(stores.text)
        invariant AllGo(plan, done)
        invariant Prefixed(old(stores.objects), stores.objects, oid, buffer[..Offset(|buffer|, chunk, done)])
      {
        WriteNext(oid, chunk, done, Goes(plan, done), old(stores.objects), old(stores.history));
        if !Goes(plan, done) { return; }
        done := done + 1;
      }
    }

    /** A save that does not pass the checks writes nothing. */
    method Refuse(streamOk: bool, maxObject: nat, chunk: nat, metaOk: bool)
      requires Valid() && (phase.Receiving? || phase.Unconnected?) && chunk > 0
      requires failed || !streamOk || |buffer| == 0 || maxObject < |buffer|
      modifies this`phase, this`failed, this`finished, this`outcomes, stores
      ensures Valid() && Continues(old(stores.history), stores.history, sid)
      ensures stores.text == old(stores.text) && stores.objects == old(stores.objects)
      ensures phase == Ready && failed && finished
    {
      stores.history := Extended(stores.history, Act(sid, Action.Finish(streamOk, maxObject, chunk, metaOk)));
      if phase.Receiving? { outcomes := Ended(false); }
      failed, finished, phase := true, true, Ready;
    }

    /** The metadata operation. */
    method StartWriting(oid: Oid, streamOk: bool, maxObject: nat, chunk: nat, metaOk: bool)
      requires Valid() && phase == Receiving(oid, buffer) && chunk > 0
      requires !failed && streamOk && 0 < |buffer| <= maxObject
      modifies this`phase, stores
      ensures Valid() && Continues(old(stores.history), stores.history, sid)
      ensures stores.text == old(stores.text)
      ensures SavedTo(old(stores.objects), stores.objects, oid, box, [], metaOk)
      ensures phase == Writing(oid, buffer, chunk, 0)
    {
      stores.history := Extended(stores.history, Act(sid, Action.Finish(streamOk, maxObject, chunk, metaOk)));
      if metaOk { stores.objects := SetMeta(stores.objects, oid, box); }
      phase := Writing(oid, buffer, chunk, 0);
    }

    /** A mail that is written is appended to the recovery index. */
    method EndFinish(oid: Oid, indexed: bool, ghost body: seq<byte>, ghost chunk: nat, ghost begun: Run)
      requires Valid() && chunk > 0 && phase == Writing(oid, body, chunk, ChunkCount(|body|, chunk)) && !failed
      requires Continues(begun, stores.history, sid)
      modifies this`phase, this`finished, this`outcomes, stores
      ensures Valid() && Continues(begun, stores.history, sid) && stores.objects == old(stores.objects)
      ensures phase == Ready && finished
      ensures stores.text == if indexed then old(stores.text) + Line(oid) else old(stores.text)
    {
      stores.history := Extended(stores.history, Act(sid, Action.FinishEnd(indexed)));
      if indexed { stores.text := stores.text + Line(oid); }
      outcomes := Ended(true);
      finished, phase := true, Ready;
      ContinuesTransitive(begun, old(stores.history), stores.history, sid);
    }

    /** `rbox_save_finish`: the caller is told 0 only if every chunk has been written. */
    method Finish(streamOk: bool, maxObject: nat, chunk: nat, metaOk: bool, plan: seq<bool>, indexed: bool)
      returns (ret: int)
      requires Valid() && (phase.Receiving? || phase.Unconnected?) && chunk > 0
      modifies this`phase, this`failed, this`finished, this`outcomes, stores
      ensures Valid() && Continues(old(stores.history), stores.history, sid)
      ensures phase == Ready && finished && failed == (ret < 0) && (ret == 0 || ret == -1)
      ensures ret == 0 <==> && old(phase).Receiving? && !old(failed) && streamOk && 0 < |buffer| <= maxObject
                            && AllGo(plan, ChunkCount(|buffer|, chunk))
      ensures stores.text == if ret == 0 && indexed then old(stores.text) + Line(old(phase).oid) else old(stores.text)
      ensures ret == 0 ==> SavedTo(old(stores.objects), stores.objects, old(phase).oid, box, buffer, metaOk)
      ensures ret == 0 && metaOk ==> stores.objects[old(phase).oid].meta && stores.objects[old(phase).oid].box == box
      ensures ret < 0 ==>
                || stores.objects == old(stores.objects)
                || SavedPartly(old(stores.objects), stores.objects, mail, box, buffer, metaOk)
    {
      if failed || !streamOk || |buffer| == 0 || maxObject < |buffer| {
        Refuse(streamOk, maxObject, chunk, metaOk);
        return -1;
      }
      ret := Save(mail.value, buffer, streamOk, maxObject, chunk, metaOk, plan, indexed);
    }

    /** `save_mail_write_append` and what follows it, for a mail that passes the checks. */
    method Save(oid: Oid, ghost body: seq<byte>, streamOk: bool, maxObject: nat, chunk: nat, metaOk: bool,
                plan: seq<bool>, indexed: bool)
      returns (ret: int)
      requires Valid() && buffer == body && phase == Receiving(oid, body) && chunk > 0
      requires !failed && streamOk && 0 < |body| <= maxObject
      modifies this`phase, this`failed, this`finished, this`outcomes, stores
      ensures Valid() && Continues(old(stores.history), stores.history, sid)
      ensures phase == Ready && finished && failed == (ret < 0) && (ret == 0 || ret == -1)
      ensures ret == 0 <==> AllGo(plan, ChunkCount(|body|, chunk))
      ensures stores.text == if ret == 0 && indexed then old(stores.text) + Line(oid) else old(stores.text)
      ensures if ret == 0 then SavedTo(old(stores.objects), stores.objects, oid, box, body, metaOk)
              else SavedPartly(old(stores.objects), stores.objects, Some(oid), box, body, metaOk)
      ensures ret == 0 && metaOk ==>
                oid in stores.objects && stores.objects[oid].meta && stores.objects[oid].box == box
    {
      ghost var before := stores.objects;
      StartWriting(oid, streamOk, maxObject, chunk, metaOk);
      ret := FinishWriting(oid, body, chunk, metaOk, plan, indexed, before, old(stores.history));
      SavedMeta(before, stores.objects, oid, box, body, metaOk);
    }

    /** The mail is written and, if that succeeds, appended to the recovery index. */
    method FinishWriting(oid: Oid, ghost body: seq<byte>, chunk: nat, ghost metaOk: bool, plan: seq<bool>,
                         indexed: bool, ghost before: map<Oid, Object>, ghost begun: Run)
      returns (ret: int)
      requires Valid() && chunk > 0 && buffer == body && phase == Writing(oid, body, chunk, 0) && !failed
      requires mail == Some(oid)
      requires Continues(begun, stores.history, sid) && SavedTo(before, stores.objects, oid, box, [], metaOk)
      modifies this`phase, this`failed, this`finished, this`outcomes, stores
      ensures Valid() && Continues(begun, stores.history, sid)
      ensures phase == Ready && finished && failed == (ret < 0) && (ret == 0 || ret == -1)
      ensures ret == 0 <==> AllGo(plan, ChunkCount(|body|, chunk))
      ensures stores.text == if ret == 0 && indexed then old(stores.text) + Line(oid) else old(stores.text)
      ensures if ret == 0 then SavedTo(before, stores.objects, oid, box, body, metaOk)
              else SavedPartly(before, stores.objects, Some(oid), box, body, metaOk)
    {
      var ok := WriteMail(oid, body, chunk, metaOk, plan, before, begun);
      if !ok { return -1; }
      EndFinish(oid, indexed, body, chunk, begun);
      return 0;
    }

    /** The chunks of a mail that was begun when the store was `before`. */
    method WriteMail(oid: Oid, ghost body: seq<byte>, chunk: nat, ghost metaOk: bool, plan: seq<bool>,
                     ghost before: map<Oid, Object>, ghost begun: Run)
      returns (ok: bool)
      requires Valid() && chunk > 0 && buffer == body && phase == Writing(oid, body, chunk, 0) && !failed
      requires mail == Some(oid)
      requires Continues(begun, stores.history, sid) && SavedTo(before, stores.objects, oid, box, [], metaOk)
      modifies this`phase, this`failed, this`finished, this`outcomes, stores
      ensures Valid() && Continues(begun, stores.history, sid) && stores.text == old(stores.text)
      ensures ok <==> AllGo(plan, ChunkCount(|body|, chunk))
      ensures ok ==> phase == Writing(oid, body, chunk, ChunkCount(|body|, chunk)) && !failed
      ensures ok ==> SavedTo(before, stores.objects, oid, box, body, metaOk)
      ensures !ok ==> phase == Ready && failed && finished
      ensures !ok ==> SavedPartly(before, stores.objects, Some(oid), box, body, metaOk)
    {
      var done := WriteChunks(oid, chunk, plan);
      ok := done == ChunkCount(|buffer|, chunk);
      ContinuesTransitive(begun, old(stores.history), stores.history, sid);
      WritingEnds(before, old(stores.objects), stores.objects, oid, box, body, metaOk, chunk, done);
    }

    /** `rbox_save_cancel` */
    method Cancel()
      requires Valid() && (phase.Receiving? || phase.Unconnected?)
      modifies this`phase, this`failed, this`finished, this`outcomes, stores
      ensures Valid() && Continues(old(stores.history), stores.history, sid)
      ensures phase == Ready && finished && failed
      ensures stores.objects == old(stores.objects) && stores.text == old(stores.text)
    {
      stores.history := Extended(stores.history, Act(sid, Action.Cancel));
      if phase.Receiving? { outcomes := Ended(false); }
      failed, finished, phase := true, true, Ready;
    }

    /** `copy_mail` between mailboxes of the primary storage. */
    method Copy(src: Oid, oid: Oid, ok: bool) returns (ret: int)
      requires Valid() && Allowed(Now(stores.history), Value(), Action.Copy(src, oid, ok))
      modifies this, stores
      ensures Valid() && ContinuesUsing(old(stores.history), stores.history, sid, {oid}) && phase == Ready && finished
      ensures ret == if ok && src in old(stores.objects) then 0 else -1
      ensures ret == 0 ==> !failed && mails == old(mails) + [oid]
                           && stores.objects == old(stores.objects)[oid := old(stores.objects)[src].(box := box)]
      ensures ret < 0 ==> failed == old(failed) && mails == old(mails) && stores.objects == old(stores.objects)
      ensures stores.text == old(stores.text)
    {
      stores.history := Extended(stores.history, Act(sid, Action.Copy(src, oid, ok)));
      finished := true;
      if !ok || src !in stores.objects { return -1; }
      stores.objects := stores.objects[oid := stores.objects[src].(box := box)];
      failed := false;
      AddToIndex(oid, Stored);
      return 0;
    }

    // ----- the end of a transaction -----

    /** One mail of a failed transaction. */
    method CleanOne(oid: Oid, ok: bool)
      requires Valid() && phase.CleaningUp? && phase.todo != [] && phase.todo[0] == oid
      modifies this`phase, stores
      ensures Valid() && Continues(old(stores.history), stores.history, sid)
      ensures phase == CleaningUp(old(phase).todo[1..])
      ensures stores.objects == if ok then old(stores.objects) - {oid} else old(stores.objects)
      ensures stores.records == old(stores.records)
    {
      stores.history := Extended(stores.history, Act(sid, Action.Clean(ok)));
      if ok { stores.objects := stores.objects - {oid}; }
      phase := CleaningUp(phase.todo[1..]);
    }

    method EndClean()
      requires Valid() && phase == CleaningUp([])
      modifies stores
      ensures Closed() && Continues(old(stores.history), stores.history, sid)
      ensures SameStores(old(stores.objects), old(stores.records), stores)
    {
      stores.history := Extended(stores.history, Act(sid, Action.EndClean));
    }

    /** `clean_up_failed`: the objects of all mails of the transaction are deleted, except those that are `stuck`. */
    method CleanUp(stuck: set<Oid>)
      requires Valid() && phase == CleaningUp(mails)
      modifies this`phase, stores
      ensures Closed() && Continues(old(stores.history), stores.history, sid)
      ensures Without(old(stores.objects), stores.objects, mails, stuck) && stores.records == old(stores.records)
    {
      var i := 0;
      while i < |mails|
        invariant i <= |mails| && Valid() && phase == CleaningUp(mails[i..])
        invariant Continues(old(stores.history), stores.history, sid)
        invariant Without(old(stores.objects), stores.objects, mails[..i], stuck)
        invariant stores.records == old(stores.records)
      {
        ghost var before := stores.history;
        WithoutOneMore(old(stores.objects), stores.objects, mails, i, stuck);
        CleanOne(mails[i], mails[i] !in stuck);
        ContinuesTransitive(old(stores.history), before, stores.history, sid);
        assert mails[i..][1..] == mails[i + 1..];
        i := i + 1;
      }
      assert mails[..i] == mails && mails[i..] == [];
      ghost var before := stores.history;
      EndClean();
      ContinuesTransitive(old(stores.history), before, stores.history, sid);
    }

    method Close(ghost a: Action)
      requires Valid() && Allowed(Now(stores.history), Value(), a)
      requires Apply(Now(stores.history), sid, Value(), a) == SaveProtocol.Close(Now(stores.history), sid)
      modifies stores
      ensures Closed() && Continues(old(stores.history), stores.history, sid)
      ensures SameStores(old(stores.objects), old(stores.records), stores)
    {
      stores.history := Extended(stores.history, Act(sid, a));
    }

    method StartCleanUp(ghost a: Action)
      requires Valid() && Allowed(Now(stores.history), Value(), a)
      requires Apply(Now(stores.history), sid, Value(), a) ==
               SaveProtocol.Put(Now(stores.history), sid, Value().(failed := true, phase := CleaningUp(mails)))
      modifies this`failed, this`phase, stores
      ensures Valid() && phase == CleaningUp(mails) && failed && Continues(old(stores.history), stores.history, sid)
      ensures SameStores(old(stores.objects), old(stores.records), stores)
    {
      stores.history := Extended(stores.history, Act(sid, a));
      failed, phase := true, CleaningUp(mails);
    }

    /** `rbox_transaction_save_rollback`: a failed or unfinished context deletes the objects of its mails. */
    method Rollback(stuck: set<Oid>)
      requires Valid() && (phase.Ready? || phase.Receiving? || phase.Unconnected?)
      modifies this`failed, this`phase, stores
      ensures Closed() && Continues(old(stores.history), stores.history, sid) && stores.records == old(stores.records)
      ensures Without(old(stores.objects), stores.objects, if old(failed) || !finished then mails else [], stuck)
    {
      if failed || !finished {
        StartCleanUp(Action.Rollback);
        ghost var before := stores.history;
        CleanUp(stuck);
        ContinuesTransitive(old(stores.history), before, stores.history, sid);
      } else {
        Close(Action.Rollback);
      }
    }

    // ----- commit -----

    method StartCommit(queue: seq<Oid>)
      requires Valid() && phase.Ready? && finished
      requires Allowed(Now(stores.history), Value(), Action.CommitPre(true, queue))
      modifies this`phase, this`queue, stores
      ensures Valid() && phase == Assigning(0) && this.queue == queue
      ensures Continues(old(stores.history), stores.history, sid)
      ensures SameStores(old(stores.objects), old(stores.records), stores) && stores.nextUid == old(stores.nextUid)
    {
      stores.history := Extended(stores.history, Act(sid, Action.CommitPre(true, queue)));
      this.queue, phase := queue, Assigning(0);
    }

    method AssignUid(i: nat, uid: nat)
      requires Valid() && phase == Assigning(i) && i < |mails| && uid == NextUid(stores.nextUid, box) + i
      modifies this`phase, stores
      ensures Valid() && phase == Assigning(i + 1) && Continues(old(stores.history), stores.history, sid)
      ensures stores.objects == UidGiven(old(stores.objects), mails[i], uid)
      ensures stores.records == old(stores.records) && stores.nextUid == old(stores.nextUid)
    {
      stores.history := Extended(stores.history, Act(sid, Action.AssignUid(true)));
      stores.objects := UidGiven(stores.objects, mails[i], uid);
      phase := Assigning(i + 1);
    }

    /** The next UID of a commit that began when the store was `before`. */
    method AssignNext(i: nat, uid: nat, ghost before: map<Oid, Object>, ghost begun: Run)
      requires Valid() && phase == Assigning(i) && i < |mails| && Continues(begun, stores.history, sid)
      requires uid == NextUid(stores.nextUid, box) + i
      requires stores.objects == UidsGiven(before, mails, NextUid(stores.nextUid, box), i)
      modifies this`phase, stores
      ensures Valid() && phase == Assigning(i + 1) && Continues(begun, stores.history, sid)
      ensures stores.objects == UidsGiven(before, mails, NextUid(stores.nextUid, box), i + 1)
      ensures stores.records == old(stores.records) && stores.nextUid == old(stores.nextUid)
    {
      AssignUid(i, uid);
      ContinuesTransitive(begun, old(stores.history), stores.history, sid);
    }

    /** `rbox_save_assign_uids`: the n-th mail gets the n-th saved UID; the code stops at the first write that fails.
        Neither of its two assertions can fail. */
    method AssignUids(uids: seq<nat>, plan: seq<bool>) returns (done: nat)
      requires Valid() && phase == Assigning(0) && uids == SavedUids(NextUid(stores.nextUid, box), |mails|)
      modifies this`phase, stores
      ensures Valid() && phase == Assigning(done) && done <= |mails|
      ensures Continues(old(stores.history), stores.history, sid)
      ensures AllGo(plan, done) && (done < |mails| ==> !Goes(plan, done))
      ensures stores.objects == UidsGiven(old(stores.objects), mails, NextUid(old(stores.nextUid), box), done)
      ensures stores.records == old(stores.records)
    {
      done := 0;
      ghost var first := NextUid(stores.nextUid, box);
      while done < |mails|
        invariant Valid() && phase == Assigning(done) && done <= |mails|
        invariant Continues(old(stores.history), stores.history, sid)
        invariant AllGo(plan, done)
        invariant stores.objects == UidsGiven(old(stores.objects), mails, first, done)
        invariant stores.records == old(stores.records) && first == NextUid(stores.nextUid, box)
      {
        var uid := Nth(uids, done);
        assert uid.Some?;
        if !Goes(plan, done) { break; }
        AssignNext(done, uid.value, old(stores.objects), old(stores.history));
        done := done + 1;
      }
      if done == |mails| {
        var uid := Nth(uids, done);
        assert uid.None?;
      }
    }

    /** The transaction is given up in the middle of `commit_pre`; only a failed context deletes its objects. */
    method GiveUp(stuck: set<Oid>)
      requires Valid() && phase.Assigning? && phase.done < |mails|
      modifies this`failed, this`phase, stores
      ensures Closed() && Continues(old(stores.history), stores.history, sid) && stores.records == old(stores.records)
      ensures Without(old(stores.objects), stores.objects, if old(failed) then mails else [], stuck)
    {
      if failed {
        StartCleanUp(Action.AssignUid(false));
        ghost var before := stores.history;
        CleanUp(stuck);
        ContinuesTransitive(old(stores.history), before, stores.history, sid);
      } else {
        Close(Action.AssignUid(false));
      }
    }

    /** `rbox_transaction_save_commit_pre`; without a header it leaves without any clean-up. */
    method CommitPre(ok: bool, header: bool, queue: seq<Oid>, plan: seq<bool>, stuck: set<Oid>) returns (ret: int)
      requires Valid() && phase.Ready? && finished
      requires Allowed(Now(stores.history), Value(), Action.CommitPre(ok, queue))
      modifies this`failed, this`phase, this`queue, stores
      ensures Continues(old(stores.history), stores.history, sid) && stores.records == old(stores.records)
      ensures ret == if ok && header && AllGo(plan, |mails|) then 0 else -1
      ensures ret < 0 ==> Closed()
      ensures !ok ==> Without(old(stores.objects), stores.objects, mails, stuck)
      ensures ok && !header ==> stores.objects == old(stores.objects)
      ensures ok && header && ret < 0 ==>
                GivenUp(old(stores.objects), stores.objects, mails, NextUid(old(stores.nextUid), box), old(failed),
                        stuck)
      ensures ret == 0 ==> Valid() && phase == Assigning(|mails|) && this.queue == queue && failed == old(failed)
      ensures ret == 0 ==>
                stores.objects == UidsGiven(old(stores.objects), mails, NextUid(old(stores.nextUid), box), |mails|)
    {
      if !ok {
        StartCleanUp(Action.CommitPre(false, queue));
        ghost var before := stores.history;
        CleanUp(stuck);
        ContinuesTransitive(old(stores.history), before, stores.history, sid);
        return -1;
      }
      StartCommit(queue);
      ghost var started := stores.history;
      if !header {
        Close(Action.Crash);
        ContinuesTransitive(old(stores.history), started, stores.history, sid);
        return -1;
      }
      ret := FinishUids(plan, stuck);
      ContinuesTransitive(old(stores.history), started, stores.history, sid);
    }

    /** The second half of `commit_pre`: the appended records get their UIDs, and so do the mails. */
    method FinishUids(plan: seq<bool>, stuck: set<Oid>) returns (ret: int)
      requires Valid() && phase == Assigning(0)
      modifies this`failed, this`phase, stores
      ensures Continues(old(stores.history), stores.history, sid) && stores.records == old(stores.records)
      ensures ret == if AllGo(plan, |mails|) then 0 else -1
      ensures ret < 0 ==> Closed()
      ensures ret < 0 ==>
                GivenUp(old(stores.objects), stores.objects, mails, NextUid(old(stores.nextUid), box), old(failed),
                        stuck)
      ensures ret == 0 ==> Valid() && phase == Assigning(|mails|) && failed == old(failed)
      ensures ret == 0 ==>
                stores.objects == UidsGiven(old(stores.objects), mails, NextUid(old(stores.nextUid), box), |mails|)
    {
      ContextIsPaired(this);
      var uids := SavedUids(NextUid(stores.nextUid, box), |appended|);
      var done := AssignUids(uids, plan);
      if done < |mails| {
        ghost var before := stores.history;
        GiveUp(stuck);
        ContinuesTransitive(old(stores.history), before, stores.history, sid);
        return -1;
      }
      return 0;
    }

    /** Dovecot writes the index transaction. */
    method IndexCommit(ok: bool)
      requires Valid() && phase == Assigning(|mails|)
      modifies this`phase, stores
      ensures Valid() && phase == Synced(ok) && Continues(old(stores.history), stores.history, sid)
      ensures stores.objects == old(stores.objects)
      ensures stores.records == if ok
                then old(stores.records) + NewRecords(box, NextUid(old(stores.nextUid), box), appended)
                else old(stores.records)
      ensures ok ==> Appends(old(stores.records), stores.records, box, appended, old(stores.nextUid))
      ensures stores.nextUid == if ok then old(stores.nextUid)[box := NextUid(old(stores.nextUid), box) + |appended|]
                else old(stores.nextUid)
    {
      stores.history := Extended(stores.history, Act(sid, Action.Publish(ok)));
      if ok {
        var first := NextUid(stores.nextUid, box);
        NewRecordsAppended(stores.records, box, appended, stores.nextUid);
        stores.records := stores.records + NewRecords(box, first, appended);
        stores.nextUid := stores.nextUid[box := first + |appended|];
      }
      phase := Synced(ok);
    }

    method StartRemoval()
      requires Valid() && phase.Synced?
      modifies this`phase, stores
      ensures Valid() && phase == Removing(queue) && Continues(old(stores.history), stores.history, sid)
      ensures stores.objects == old(stores.objects) && stores.records == Remaining(old(stores.records), box, queue)
    {
      stores.history := Extended(stores.history, Act(sid, Action.SyncFinish(true)));
      stores.records := Remaining(stores.records, box, queue);
      phase := Removing(queue);
    }

    method RemoveOne(oid: Oid, ok: bool)
      requires Valid() && phase.Removing? && phase.queue != [] && phase.queue[0] == oid
      modifies this`phase, stores
      ensures Valid() && phase == Removing(old(phase).queue[1..]) && Continues(old(stores.history), stores.history, sid)
      ensures stores.objects == if ok then old(stores.objects) - {oid} else old(stores.objects)
      ensures stores.records == old(stores.records)
    {
      stores.history := Extended(stores.history, Act(sid, Action.Remove(ok)));
      if ok { stores.objects := stores.objects - {oid}; }
      phase := Removing(phase.queue[1..]);
    }

    /** `rbox_sync_expunge_rbox_objects` */
    method RemoveQueued(stuck: set<Oid>)
      requires Valid() && phase == Removing(queue)
      modifies this`phase, stores
      ensures Valid() && phase == Removing([]) && Continues(old(stores.history), stores.history, sid)
      ensures Without(old(stores.objects), stores.objects, queue, stuck) && stores.records == old(stores.records)
    {
      var i := 0;
      assert queue[0..] == queue;
      while i < |queue|
        invariant i <= |queue| && Valid() && phase == Removing(queue[i..])
        invariant Continues(old(stores.history), stores.history, sid)
        invariant Without(old(stores.objects), stores.objects, queue[..i], stuck)
        invariant stores.records == old(stores.records)
      {
        ghost var before := stores.history;
        WithoutOneMore(old(stores.objects), stores.objects, queue, i, stuck);
        RemoveOne(queue[i], queue[i] !in stuck);
        ContinuesTransitive(old(stores.history), before, stores.history, sid);
        assert queue[i..][1..] == queue[i + 1..];
        i := i + 1;
      }
      assert queue[..i] == queue && queue[i..] == [];
    }

    /** The rollback at the end of every commit. */
    method EndCommit(stuck: set<Oid>)
      requires Valid() && phase == Removing([])
      modifies this`failed, this`phase, stores
      ensures Closed() && Continues(old(stores.history), stores.history, sid) && stores.records == old(stores.records)
      ensures Without(old(stores.objects), stores.objects, if old(failed) then mails else [], stuck)
    {
      if failed {
        StartCleanUp(Action.EndSync);
        ghost var before := stores.history;
        CleanUp(stuck);
        ContinuesTransitive(old(stores.history), before, stores.history, sid);
      } else {
        Close(Action.EndSync);
      }
    }

    /** `rbox_transaction_save_commit_post`: it always ends in the rollback function. */
    method CommitPost(syncOk: bool, stuck: set<Oid>)
      requires Valid() && phase.Synced?
      modifies this`failed, this`phase, stores
      ensures Closed() && Continues(old(stores.history), stores.history, sid)
      ensures stores.records == if syncOk then Remaining(old(stores.records), box, queue) else old(stores.records)
      ensures Without(old(stores.objects), stores.objects,
                      (if syncOk then queue else []) + (if old(failed) || !syncOk then mails else []), stuck)
    {
      if !syncOk {
        StartCleanUp(Action.SyncFinish(false));
        ghost var before := stores.history;
        CleanUp(stuck);
        ContinuesTransitive(old(stores.history), before, stores.history, sid);
        assert [] + mails == mails;
        return;
      }
      StartRemoval();
      ghost var started := stores.history;
      RemoveQueued(stuck);
      ContinuesTransitive(old(stores.history), started, stores.history, sid);
      ghost var removed, objects := stores.history, stores.objects;
      EndCommit(stuck);
      ContinuesTransitive(old(stores.history), removed, stores.history, sid);
      WithoutBoth(old(stores.objects), objects, stores.objects, queue, if old(failed) then mails else [], stuck);
    }
  }

  /** The mails of a context and the records it appended are the same oids in the same order, whatever failed. */
  lemma ContextIsPaired(c: Context)
    requires c.Valid()
    ensures c.mails == c.appended
  {
    var t := c.stores.history;
    MailsMatchRecords(t, |t.es|);
    assert PairedCtx(Now(t).sessions[c.sid]);
  }

  /** One record per oid, in order, with consecutive UIDs from the next one, which is 1 in a new mailbox. */
  ghost predicate Appends(records: seq<Record>, records': seq<Record>, box: BoxId, oids: seq<Oid>,
                          nextUid: map<BoxId, nat>)
  {
    var first := if box in nextUid then nextUid[box] else 1;
    && |records'| == |records| + |oids| && records <= records'
    && forall i :: 0 <= i < |oids| ==> records'[|records| + i] == Record(box, first + i, oids[i])
  }

  lemma NewRecordsAppended(records: seq<Record>, box: BoxId, oids: seq<Oid>, nextUid: map<BoxId, nat>)
    ensures Appends(records, records + NewRecords(box, NextUid(nextUid, box), oids), box, oids, nextUid)
  {
  }

  /** `mail_index_append_finish_uids`: one UID for each appended record, from the next UID on. */
  function SavedUids(first: nat, n: nat): (uids: seq<nat>)
    ensures |uids| == n && forall i :: 0 <= i < n ==> uids[i] == first + i
  {
    seq(n, i requires 0 <= i < n => first + i)
  }

  /** `seq_range_array_iter_nth` */
  function Nth(uids: seq<nat>, n: nat): Option<nat> { if n < |uids| then Some(uids[n]) else None }

  /** A valid context stays valid while another one is at work on the same stores. */
  lemma OtherContextSurvives(c: Context, before: Run, sid: Sid)
    requires c.stores.Valid() && Others(c.stores.history, sid) == Others(before, sid) && c.sid != sid
    requires c.sid in Now(before).sessions && Now(before).sessions[c.sid] == c.Value() && c.Consistent()
    ensures c.Valid()
  {
    assert c.sid in Others(before, sid) && Others(before, sid)[c.sid] == c.Value();
  }

  /** The outcome of operation `i`. */
  predicate Goes(plan: seq<bool>, i: nat) { i < |plan| && plan[i] }

  /** The first `n` operations succeed. */
  predicate AllGo(plan: seq<bool>, n: nat) { forall i: nat :: i < n ==> Goes(plan, i) }

  /** The step of a chunk operation, spelled out. */
  lemma ChunkStepIs(w: World, s: Sid, c: Ctx, ok: bool)
    requires s in w.sessions && w.sessions[s] == c && c.phase.Writing? && c.phase.chunk > 0
    requires c.phase.done < ChunkCount(|c.phase.buffer|, c.phase.chunk)
    ensures Enabled(w, Act(s, Action.WriteChunk(ok)))
    ensures var p := c.phase;
            Step(w, Act(s, Action.WriteChunk(ok))) ==
            if ok then PutDb(w, s, c.(phase := p.(done := p.done + 1)),
                             w.db.(store := Append(w.db.store, p.oid, Chunk(p.buffer, p.chunk, p.done))))
            else Put(w, s, EndSave(c, false))
  {
    ChunkBounds(|c.phase.buffer|, c.phase.chunk, c.phase.done);
  }

  function Chunk(buffer: seq<byte>, chunk: nat, i: nat): seq<byte> {
    var from, to := Offset(|buffer|, chunk, i), Offset(|buffer|, chunk, i + 1);
    if from <= to then buffer[from..to] else []
  }

  /** Exactly the oids among `gone` that are not `stuck` are gone. */
  ghost predicate Without(objects: map<Oid, Object>, objects': map<Oid, Object>, gone: seq<Oid>, stuck: set<Oid>) {
    && (forall o :: o in objects' <==> o in objects && (o in stuck || o !in gone))
    && (forall o :: o in objects' ==> objects'[o] == objects[o])
  }

  lemma WithoutBoth(a: map<Oid, Object>, b: map<Oid, Object>, c: map<Oid, Object>, first: seq<Oid>, second: seq<Oid>,
                    stuck: set<Oid>)
    requires Without(a, b, first, stuck) && Without(b, c, second, stuck)
    ensures Without(a, c, first + second, stuck)
  {
  }

  ghost predicate SameStores(objects: map<Oid, Object>, records: seq<Record>, stores: Stores)
    reads stores
  {
    stores.objects == objects && stores.records == records
  }

  function UidGiven(objects: map<Oid, Object>, oid: Oid, uid: nat): map<Oid, Object> {
    objects[oid := ObjectAt(objects, oid).(uid := Some(uid))]
  }

  /** The store once the first `n` mails have their UIDs. */
  function UidsGiven(objects: map<Oid, Object>, mails: seq<Oid>, first: nat, n: nat): map<Oid, Object>
    requires n <= |mails|
  {
    if n == 0 then objects else UidGiven(UidsGiven(objects, mails, first, n - 1), mails[n - 1], first + n - 1)
  }

  /** A commit given up in the middle: some mails have their UIDs already, and only a failed context deletes them. */
  ghost predicate GivenUp(objects: map<Oid, Object>, objects': map<Oid, Object>, mails: seq<Oid>, first: nat,
                          failed: bool, stuck: set<Oid>)
  {
    exists n :: 0 <= n < |mails| &&
      Without(UidsGiven(objects, mails, first, n), objects', if failed then mails else [], stuck)
  }

  /** Consecutive UIDs in the order of the mails; nothing else about the objects changes. */
  lemma {:induction false} UidsGivenAt(objects: map<Oid, Object>, mails: seq<Oid>, first: nat, n: nat, i: nat)
    requires Distinct(mails) && i < n <= |mails|
    ensures var after := UidsGiven(objects, mails, first, n);
            mails[i] in after && after[mails[i]] == ObjectAt(objects, mails[i]).(uid := Some(first + i))
  {
    if i < n - 1 {
      UidsGivenAt(objects, mails, first, n - 1, i);
    } else {
      UidsGivenElse(objects, mails, first, n - 1, mails[i]);
    }
  }

  lemma {:induction false} UidsGivenElse(objects: map<Oid, Object>, mails: seq<Oid>, first: nat, n: nat, oid: Oid)
    requires n <= |mails| && forall i :: 0 <= i < n ==> mails[i] != oid
    ensures var after := UidsGiven(objects, mails, first, n);
            (oid in after <==> oid in objects) && ObjectAt(after, oid) == ObjectAt(objects, oid)
  {
    if n > 0 { UidsGivenElse(objects, mails, first, n - 1, oid); }
  }

  lemma WithoutOneMore(objects: map<Oid, Object>, now: map<Oid, Object>, gone: seq<Oid>, i: nat, stuck: set<Oid>)
    requires i < |gone| && Without(objects, now, gone[..i], stuck)
    ensures Without(objects, if gone[i] in stuck then now else now - {gone[i]}, gone[..i + 1], stuck)
  {
    assert gone[..i + 1] == gone[..i] + [gone[i]];
  }

  /** The data of the object has grown by `bytes`, its attributes and all other objects are as before. */
  ghost predicate Prefixed(objects: map<Oid, Object>, objects': map<Oid, Object>, oid: Oid, bytes: seq<byte>) {
    && ObjectAt(objects', oid) == ObjectAt(objects, oid).(data := ObjectAt(objects, oid).data + bytes)
    && (bytes != [] || oid in objects ==> oid in objects')
    && (forall o :: o != oid ==> (o in objects' <==> o in objects))
    && (forall o :: o != oid && o in objects ==> objects'[o] == objects[o])
    && (oid in objects' ==> oid in objects || bytes != [])
  }

  lemma PrefixGrows(objects: map<Oid, Object>, now: map<Oid, Object>, oid: Oid, buffer: seq<byte>, chunk: nat, i: nat)
    requires chunk > 0 && i < ChunkCount(|buffer|, chunk)
    requires Prefixed(objects, now, oid, buffer[..Offset(|buffer|, chunk, i)])
    ensures Prefixed(objects, Append(now, oid, Chunk(buffer, chunk, i)), oid, buffer[..Offset(|buffer|, chunk, i + 1)])
  {
    ChunkBounds(|buffer|, chunk, i);
    var from, to := Offset(|buffer|, chunk, i), Offset(|buffer|, chunk, i + 1);
    assert buffer[..from] + buffer[from..to] == buffer[..to];
    Text.Assoc(ObjectAt(objects, oid).data, buffer[..from], buffer[from..to]);
  }

  /**
   A save wrote `bytes` to its object. If the metadata operation succeeded the object has its metadata with the
   mailbox of the save; a metadata operation that failed left the attributes alone. No other object changed.
   */
  ghost predicate SavedTo(objects: map<Oid, Object>, objects': map<Oid, Object>, oid: Oid, box: BoxId,
                          bytes: seq<byte>, metaOk: bool)
  {
    var o, o' := ObjectAt(objects, oid), ObjectAt(objects', oid);
    && o'.data == o.data + bytes && o'.uid == o.uid
    && o'.meta == (metaOk || o.meta) && o'.box == (if metaOk then box else o.box)
    && (oid in objects' <==> oid in objects || bytes != [] || metaOk)
    && (forall k :: k != oid ==> (k in objects' <==> k in objects))
    && (forall k :: k != oid && k in objects ==> objects'[k] == objects[k])
  }

  lemma SavedMeta(objects: map<Oid, Object>, objects': map<Oid, Object>, oid: Oid, box: BoxId, bytes: seq<byte>,
                  metaOk: bool)
    ensures SavedTo(objects, objects', oid, box, bytes, metaOk) && metaOk ==>
              oid in objects' && objects'[oid].meta && objects'[oid].box == box
  {
  }

  /** A save that stopped before the end of the mail. */
  ghost predicate SavedPartly(objects: map<Oid, Object>, objects': map<Oid, Object>, mail: Option<Oid>, box: BoxId,
                              buffer: seq<byte>, metaOk: bool)
  {
    mail.Some? && exists n :: 0 <= n < |buffer| && SavedTo(objects, objects', mail.value, box, buffer[..n], metaOk)
  }

  lemma WritingEnds(a: map<Oid, Object>, b: map<Oid, Object>, c: map<Oid, Object>, oid: Oid, box: BoxId,
                    buffer: seq<byte>, metaOk: bool, chunk: nat, done: nat)
    requires chunk > 0 && done <= ChunkCount(|buffer|, chunk)
    requires SavedTo(a, b, oid, box, [], metaOk) && Prefixed(b, c, oid, buffer[..Offset(|buffer|, chunk, done)])
    ensures if done == ChunkCount(|buffer|, chunk) then SavedTo(a, c, oid, box, buffer, metaOk)
            else SavedPartly(a, c, Some(oid), box, buffer, metaOk)
  {
    var n := Offset(|buffer|, chunk, done);
    AllWritten(|buffer|, chunk);
    if done < ChunkCount(|buffer|, chunk) { ChunkBounds(|buffer|, chunk, done); }
    assert ObjectAt(a, oid).data + [] == ObjectAt(a, oid).data;
    assert buffer[..|buffer|] == buffer;
    assert SavedTo(a, c, oid, box, buffer[..n], metaOk);
  }
}
