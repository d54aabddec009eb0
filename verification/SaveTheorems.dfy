/** What the save protocol guarantees over whole runs. */
module SaveTheorems {
  import opened Rados
  import opened SaveProtocol
  import opened SaveInvariant
  import opened SaveRecords

  // ----- every state of every disciplined run -----

  /** A run from the empty system whose surroundings keep the two conditions. */
  ghost predicate GoodRun(t: Run) {
    DisciplinedRun(t) && t.ws[0] == EMPTY
  }

  lemma ReachableInv(t: Run, i: nat)
    requires GoodRun(t) && i <= |t.es|
    ensures Inv(t.ws[i])
  {
    EmptyInv();
    RunInv(t, i);
  }

  lemma ReachableFull(t: Run, i: nat)
    requires GoodRun(t) && FullRebuilds(t) && i <= |t.es|
    ensures FullInv(t.ws[i])
  {
    EmptyFull();
    RunFull(t, i);
  }

  /**
   At every point of every interleaved run with failures, crashes and rebuilds that restore everything, each
   committed record names an object that holds the whole mail and carries its UID, no two records share an oid, and
   the UIDs of a mailbox increase.
   */
  lemma DurableAtEveryStep(t: Run, i: nat)
    requires GoodRun(t) && FullRebuilds(t) && i <= |t.es|
    ensures Durable(t.ws[i].db) && RecordsOk(t.ws[i].db.records, t.ws[i].db.nextUid)
  {
    ReachableFull(t, i);
  }

  // ----- no record is dropped silently -----

  /** The sync commit of a session that expunges the record. */
  predicate Expunges(w: World, e: Event, r: Record) {
    && e.Act? && e.a.SyncFinish? && e.a.ok && e.s in w.sessions
    && w.sessions[e.s].box == r.box && r.oid in w.sessions[e.s].expunged
  }

  /** The index commit of a session that appended the record. */
  predicate Publishes(w: World, e: Event, r: Record) {
    && e.Act? && e.a.Publish? && e.a.ok && e.s in w.sessions
    && var c := w.sessions[e.s]; r in NewRecords(c.box, NextUid(w.db.nextUid, c.box), c.appended)
  }

  /** Apart from rebuilds, records come by publication and go by expunge, and in no other way. */
  lemma RecordsChange(w: World, e: Event, r: Record)
    requires Enabled(w, e) && !e.Rebuild? && !e.Repair?
    ensures r in Step(w, e).db.records <==> (r in w.db.records && !Expunges(w, e, r)) || Publishes(w, e, r)
  {
    if e.Act? && !(e.a.Publish? && e.a.ok) && !(e.a.SyncFinish? && e.a.ok) {
      if IsSave(e.a) { SaveLeavesRecords(w, e.s, e.a); } else { QuietLeavesRecords(w, e.s, e.a); }
    }
  }

  lemma SaveLeavesRecords(w: World, s: Sid, a: Action)
    requires Enabled(w, Act(s, a)) && IsSave(a)
    ensures Apply(w, s, w.sessions[s], a).db.records == w.db.records
  {
  }

  lemma QuietLeavesRecords(w: World, s: Sid, a: Action)
    requires Enabled(w, Act(s, a)) && IsQuiet(a)
    ensures Apply(w, s, w.sessions[s], a).db.records == w.db.records
  {
  }

  /** In every run whatsoever a committed record is still there later, unless it was expunged or a rebuild came. */
  lemma {:induction false} RecordStays(t: Run, i: nat, j: nat, r: Record)
    requires i <= j <= |t.es| && r in t.ws[i].db.records
    requires forall k :: i <= k < j ==> !t.es[k].Rebuild? && !t.es[k].Repair? && !Expunges(t.ws[k], t.es[k], r)
    ensures r in t.ws[j].db.records
  {
    if i < j {
      RecordStays(t, i, j - 1, r);
      assert Linked(t, j - 1);
      RecordsChange(t.ws[j - 1], t.es[j - 1], r);
    }
  }

  // ----- removals -----

  /** The object a step of the run is about to remove. */
  ghost function Victim(w: World, e: Event): Option<Oid>
    requires Enabled(w, e)
  {
    if e.Act? && e.a.Remove? then Some(w.sessions[e.s].phase.queue[0])
    else if e.Act? && e.a.Clean? then Some(w.sessions[e.s].phase.todo[0])
    else None
  }

  lemma VictimUnnamed(w: World, e: Event)
    requires FullInv(w) && Enabled(w, e) && Victim(w, e).Some?
    ensures forall r :: r in w.db.records ==> r.oid != Victim(w, e).value
  {
    var c := w.sessions[e.s];
    assert CtxOk(w.db, e.s, c);
    if e.a.Remove? {
      assert c.phase.queue[0] in c.phase.queue;
    } else {
      assert c.phase.todo[0] in c.phase.todo;
    }
  }

  /** Neither an expunge nor the clean-up of a failed transaction removes an object that a record names. */
  lemma RemovalIsSafe(t: Run, i: nat)
    requires GoodRun(t) && FullRebuilds(t) && i < |t.es|
    ensures Linked(t, i)
    ensures Victim(t.ws[i], t.es[i]).Some? ==> forall r :: r in t.ws[i].db.records ==>
              r.oid != Victim(t.ws[i], t.es[i]).value
  {
    assert Linked(t, i);
    if Victim(t.ws[i], t.es[i]).Some? {
      ReachableFull(t, i);
      VictimUnnamed(t.ws[i], t.es[i]);
    }
  }
}
