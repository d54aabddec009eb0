/** Concrete runs from the empty system in which the protocol does not keep a promise its callers may rely on. */
module SaveExamples {
  import opened Rados
  import opened ChunkedWriter
  import opened RecoveryIndex
  import opened SaveProtocol
  import opened CommitExactness

  lemma Extend(t: Run, e: Event, w: World) returns (t': Run)
    requires Enabled(t.ws[|t.es|], e) && Step(t.ws[|t.es|], e) == w
    ensures t'.ws == t.ws + [w] && t'.es == t.es + [e]
  {
    ExtendedIsRun(t, e);
    t' := Trace(t.ws + [w], t.es + [e]);
  }

  /** A run from the empty system that ends in `w`. */
  ghost predicate Reaches(t: Run, w: World) { t.ws[0] == EMPTY && t.ws[|t.es|] == w }

  // ----- the steps of one small mail -----

  const RECEIVING := Ctx("b", false, true, ["a"], ["a"], [Begun], [], Receiving("a", []))
  const WRITING := RECEIVING.(phase := Writing("a", [7], 1, 0))
  const STORED := Ctx("b", false, true, ["a"], ["a"], [Stored], [], Ready)
  const REFUSED := Ctx("b", true, true, ["a"], ["a"], [Refused], [], Ready)

  function Body(meta: bool, uid: Option<nat>): Object { Object([7], meta, if meta then "b" else "", uid) }

  function Pend(store: map<Oid, Object>, whole: seq<byte>): Db {
    Db(store, [], map[], map["a" := whole], map["a" := Pending(0)])
  }

  lemma BegunMail() returns (t: Run)
    ensures Reaches(t, World(Pend(map[], []), "", map[0 := RECEIVING]))
  {
    var c := Ctx("b", true, true, [], [], [], [], Ready);
    t := Trace([EMPTY], []);
    t := Extend(t, Alloc(0, "b"), World(EMPTY.db, "", map[0 := c]));
    assert AddToIndex(c, "a", Begun) == Ctx("b", true, true, ["a"], ["a"], [Begun], [], Ready);
    t := Extend(t, Act(0, Begin("a", true)), World(Pend(map[], []), "", map[0 := RECEIVING]));
  }

  lemma ReceivedMail() returns (t: Run)
    ensures Reaches(t, World(Pend(map[], [7]), "", map[0 := RECEIVING.(phase := Receiving("a", [7]))]))
  {
    t := BegunMail();
    assert [] + [7] == [7];
    t := Extend(t, Act(0, Continue([7], true)),
                World(Pend(map[], [7]), "", map[0 := RECEIVING.(phase := Receiving("a", [7]))]));
  }

  /** The metadata operation and the only chunk of the mail. */
  lemma WrittenMail(meta: bool) returns (t: Run)
    ensures Reaches(t, World(Pend(map["a" := Body(meta, None)], [7]), "",
              map[0 := WRITING.(phase := Writing("a", [7], 1, 1))]))
  {
    t := ReceivedMail();
    var store := if meta then map["a" := Object([], true, "b", None)] else map[];
    t := Extend(t, Act(0, Finish(true, 1, 1, meta)), World(Pend(store, [7]), "", map[0 := WRITING]));
    OneChunk();
    assert [7][0..1] == [7] && [] + [7] == [7];
    t := Extend(t, Act(0, WriteChunk(true)),
                World(Pend(map["a" := Body(meta, None)], [7]), "",
                    map[0 := WRITING.(phase := Writing("a", [7], 1, 1))]));
  }

  lemma OneChunk()
    ensures ChunkCount(1, 1) == 1 && Offset(1, 1, 0) == 0 && Offset(1, 1, 1) == 1
  {
  }

  lemma SavedMail(meta: bool) returns (t: Run)
    ensures Reaches(t, World(Pend(map["a" := Body(meta, None)], [7]), "a,", map[0 := STORED]))
  {
    t := WrittenMail(meta);
    OneChunk();
    var c := WRITING.(phase := Writing("a", [7], 1, 1));
    assert EndSave(c, true) == STORED by { assert [Begun][0 := Stored] == [Stored]; }
    assert "" + Line("a") == "a,";
    t := Extend(t, Act(0, FinishEnd(true)), World(Pend(map["a" := Body(meta, None)], [7]), "a,", map[0 := STORED]));
  }

  // ----- a rollback leaves the object behind -----

  lemma RolledBackMailStays() returns (t: Run)
    ensures t.ws[0] == EMPTY && t.es != [] && t.es[|t.es| - 1] == Act(0, Rollback)
    ensures var w := t.ws[|t.es|]; "a" in w.db.store && w.db.records == [] && w.sessions == map[]
  {
    t := SavedMail(true);
    RollbackStep(t.ws[|t.es|], 0, STORED);
    assert map[0 := STORED] - {0} == map[];
    t := Extend(t, Act(0, Rollback), World(Pend(map["a" := Body(true, None)], [7]), "a,", map[]));
  }

  // ----- up to the index commit -----

  lemma UidGiven(t: Run, w: World, c: Ctx) returns (t': Run)
    requires t.ws[|t.es|] == w && w.sessions == map[0 := c] && c.mails == ["a"] && c.expunged == []
    requires c.phase.Ready? && c.finished
    ensures |t'.es| == |t.es| + 2 && t'.ws[..|t.ws|] == t.ws && t'.es[..|t.es|] == t.es
    ensures t'.es[|t.es|] == Act(0, CommitPre(true, []))
    ensures t'.ws[|t'.es|] == PutDb(w, 0, c.(phase := Assigning(1)), WithUid(w.db, "a", NextUid(w.db.nextUid, c.box)))
  {
    StartStep(w, 0, c, []);
    var w1 := Put(w, 0, c.(expunged := [], phase := Assigning(0)));
    t' := Extend(t, Act(0, CommitPre(true, [])), w1);
    AssignStep(w1, 0, c, 0);
    var w2 := PutDb(w1, 0, c.(phase := Assigning(1)), WithUid(w1.db, "a", NextUid(w1.db.nextUid, c.box)));
    t' := Extend(t', Act(0, AssignUid(true)), w2);
    assert w2.sessions == PutDb(w, 0, c.(phase := Assigning(1)), w2.db).sessions;
  }

  // ----- the sync commit fails -----

  /** The clean-up deletes the object of the only mail of the transaction. */
  lemma CleanUpOne(t: Run, w: World, c: Ctx) returns (t': Run)
    requires t.ws[|t.es|] == w && 0 in w.sessions && w.sessions[0] == c.(phase := CleaningUp(["a"])) && c.mails == ["a"]
    ensures |t'.es| == |t.es| + 2 && t'.ws[..|t.ws|] == t.ws && t'.es[..|t.es|] == t.es
    ensures t'.ws[|t'.es|].db == Removed(w.db, "a", true)
  {
    CleanStep(w, 0, c, ["a"]);
    assert ["a"][1..] == [];
    var w1 := PutDb(w, 0, c.(phase := CleaningUp([])), Removed(w.db, "a", true));
    t' := Extend(t, Act(0, Clean(true)), w1);
    EndCleanStep(w1, 0, c.(phase := CleaningUp([])));
    t' := Extend(t', Act(0, EndClean), Step(w1, Act(0, EndClean)));
  }

  /** The index has the record of a mail that was saved without any fault, and its object is deleted. */
  lemma SyncFailureLosesMail() returns (t: Run)
    ensures t.ws[0] == EMPTY && !Durable(t.ws[|t.es|].db)
    ensures |t.es| > 3 && t.es[|t.es| - 3] == Act(0, SyncFinish(false))
  {
    t := SavedMail(true);
    var t1 := UidGiven(t, t.ws[|t.es|], STORED);
    assert t1.ws[0] == t.ws[0];
    t := PublishedThenFailed(t1, t1.ws[|t1.es|], STORED);
    assert t.ws[0] == t1.ws[0];
  }

  lemma PublishedThenFailed(t: Run, w: World, c: Ctx) returns (t': Run)
    requires t.ws[|t.es|] == w && 0 in w.sessions && w.sessions[0] == c.(phase := Assigning(1))
    requires c.mails == c.appended == ["a"]
    ensures |t'.es| == |t.es| + 4 && t'.ws[..|t.ws|] == t.ws && t'.es[..|t.es|] == t.es
    ensures t'.es[|t.es| + 1] == Act(0, SyncFinish(false)) && !Durable(t'.ws[|t'.es|].db)
  {
    var c1 := c.(phase := Assigning(1));
    PublishThenFail(w, 0, c1);
    var w1 := PutDb(w, 0, c1.(phase := Synced(true)), Published(w.db, c.box, c.appended));
    var w2 := Put(w1, 0, c.(failed := true, phase := CleaningUp(["a"])));
    t' := Extend(t, Act(0, Publish(true)), w1);
    t' := Extend(t', Act(0, SyncFinish(false)), w2);
    t' := CleanUpOne(t', w2, c.(failed := true));
    assert NewRecords(c.box, NextUid(w.db.nextUid, c.box), c.appended)[0] in w1.db.records;
  }

  // ----- a refused mail is committed -----

  /** A mail of one byte exceeds the object size and is refused. */
  lemma RefusedMail() returns (t: Run)
    ensures Reaches(t, World(Pend(map[], [7]), "", map[0 := REFUSED]))
    ensures t.es != [] && t.es[|t.es| - 1] == Act(0, Finish(true, 0, 1, true))
  {
    t := ReceivedMail();
    var c := RECEIVING.(phase := Receiving("a", [7]));
    assert EndSave(c, false) == REFUSED by { assert [Begun][0 := Refused] == [Refused]; }
    t := Extend(t, Act(0, Finish(true, 0, 1, true)), World(Pend(map[], [7]), "", map[0 := REFUSED]));
  }

  /** The caller commits all the same: the committed record names no object. */
  lemma RefusedThenCommitted() returns (t: Run, n: nat)
    ensures t.ws[0] == EMPTY && !Durable(t.ws[|t.es|].db)
    ensures 0 < n < |t.es| && t.es[n - 1] == Act(0, Finish(true, 0, 1, true)) && t.es[n] == Act(0, CommitPre(true, []))
  {
    var t0 := RefusedMail();
    n := |t0.es|;
    var t1 := UidGiven(t0, t0.ws[n], REFUSED);
    assert t1.ws[0] == t0.ws[0] && t1.es[n - 1] == t0.es[n - 1];
    t := LostAfterCommit(t1, t1.ws[|t1.es|], REFUSED);
    assert t.ws[0] == t1.ws[0] && t.es[n - 1] == t1.es[n - 1] && t.es[n] == t1.es[n];
  }

  /** Publication, the sync commit, and the rollback function that every commit ends in. */
  lemma ThroughSync(t: Run, w: World, c: Ctx) returns (t': Run, w2: World)
    requires t.ws[|t.es|] == w && 0 in w.sessions && w.sessions[0] == c.(phase := Assigning(1))
    requires |c.mails| == 1 && c.expunged == []
    ensures |t'.es| == |t.es| + 3 && t'.ws[..|t.ws|] == t.ws && t'.es[..|t.es|] == t.es
    ensures var w1 := PutDb(w, 0, c.(phase := Synced(true)), Published(w.db, c.box, c.appended));
            w2 == StepSyncFinish(w1, 0, c.(phase := Synced(true)), true)
    ensures t'.ws[|t'.es|] == EndTransaction(w2, 0, c.(phase := Removing([])))
    ensures w2.db.records ==
            Remaining(w.db.records + NewRecords(c.box, NextUid(w.db.nextUid, c.box), c.appended), c.box, [])
  {
    var c1 := c.(phase := Assigning(1));
    var w1 := PutDb(w, 0, c1.(phase := Synced(true)), Published(w.db, c.box, c.appended));
    w2 := PublishSteps(w, 0, c1);
    t' := Extend(t, Act(0, Publish(true)), w1);
    t' := Extend(t', Act(0, SyncFinish(true)), w2);
    EndSyncStep(w2, 0, c.(phase := Removing([])));
    t' := Extend(t', Act(0, EndSync), EndTransaction(w2, 0, c.(phase := Removing([]))));
  }

  lemma LostAfterCommit(t: Run, w: World, c: Ctx) returns (t': Run)
    requires t.ws[|t.es|] == w && 0 in w.sessions && w.sessions[0] == c.(phase := Assigning(1))
    requires c.mails == c.appended == ["a"] && c.failed && c.expunged == []
    ensures |t'.es| >= |t.es| && t'.ws[..|t.ws|] == t.ws && t'.es[..|t.es|] == t.es
    ensures !Durable(t'.ws[|t'.es|].db)
  {
    var t1, w2 := ThroughSync(t, w, c);
    t' := CleanUpOne(t1, t1.ws[|t1.es|], c);
    assert t'.ws[..|t.ws|] == t1.ws[..|t.ws|] && t'.es[..|t.es|] == t1.es[..|t.es|];
    NewRecordStays(w.db.records, OneMail(c), NextUid(w.db.nextUid, c.box), [], 0);
  }

  /** The context with one outcome, as every context of one mail has. */
  function OneMail(c: Ctx): Ctx { c.(outcomes := [Refused], phase := Ready) }

  // ----- a committed mail -----

  /** The mail is in the index, and the save wrote its metadata or not. */
  function Live(meta: bool): World {
    World(Db(map["a" := Body(meta, Some(1))], [Record("b", 1, "a")], map["b" := 2], map["a" := [7]],
        map["a" := Owner.Live]),
          "a,", map[])
  }

  lemma CommittedMail(meta: bool) returns (t: Run)
    ensures Reaches(t, Live(meta))
  {
    var t0 := SavedMail(meta);
    var w := t0.ws[|t0.es|];
    var t1 := UidGiven(t0, w, STORED);
    assert t1.ws[0] == t0.ws[0];
    t := PublishedMail(t1, meta);
  }

  lemma PublishedMail(t: Run, meta: bool) returns (t': Run)
    requires var w := World(Pend(map["a" := Body(meta, None)], [7]), "a,", map[0 := STORED]);
             t.ws[|t.es|] == PutDb(w, 0, STORED.(phase := Assigning(1)), WithUid(w.db, "a", NextUid(w.db.nextUid, "b")))
    requires t.ws[0] == EMPTY
    ensures Reaches(t', Live(meta))
  {
    var w := t.ws[|t.es|];
    assert w.db == Pend(map["a" := Body(meta, Some(1))], [7]);
    var w2;
    t', w2 := ThroughSync(t, w, STORED);
    assert t'.ws[0] == t.ws[0];
    AfterPublication(w, w2, meta);
  }

  lemma AfterPublication(w: World, w2: World, meta: bool)
    requires w.db == Pend(map["a" := Body(meta, Some(1))], [7]) && w.index == "a,"
    requires w.sessions == map[0 := STORED.(phase := Assigning(1))]
    requires var w1 := PutDb(w, 0, STORED.(phase := Synced(true)), Published(w.db, "b", ["a"]));
             w2 == StepSyncFinish(w1, 0, STORED.(phase := Synced(true)), true)
    ensures EndTransaction(w2, 0, STORED.(phase := Removing([]))) == Live(meta)
  {
    PublishedDb(w.db, meta);
    assert w2.sessions - {0} == map[];
  }

  lemma PublishedDb(d: Db, meta: bool)
    requires d == Pend(map["a" := Body(meta, Some(1))], [7])
    ensures Expunged(Published(d, "b", ["a"]), "b", []) == Live(meta).db
  {
    var d1 := Published(d, "b", ["a"]);
    PublishedOne(d);
    RemainingAll(d1.records, "b");
    assert Transfer(d1.owner, [], Dead) == map["a" := Owner.Live];
  }

  lemma PublishedOne(d: Db)
    requires d.records == [] && d.nextUid == map[] && d.owner == map["a" := Pending(0)]
    ensures var d1 := Published(d, "b", ["a"]);
            && d1.records == [Record("b", 1, "a")] && d1.nextUid == map["b" := 2]
            && d1.owner == map["a" := Owner.Live]
  {
    assert NewRecords("b", 1, ["a"]) == [Record("b", 1, "a")];
    assert Transfer(d.owner, ["a"], Owner.Live) == map["a" := Owner.Live];
  }

  // ----- the copy is missing from the recovery index -----

  lemma CopyMissingFromIndex() returns (t: Run)
    ensures t.ws[0] == EMPTY && t.es != [] && t.es[|t.es| - 1] == Act(1, Copy("a", "c", true))
    ensures var w := t.ws[|t.es|];
            "c" in Loaded(w.db.store, w.db.store.Keys) && "c" !in Loaded(w.db.store, OidSet(w.index))
  {
    t := CommittedMail(true);
    var c := Ctx("b", true, true, [], [], [], [], Ready);
    t := Extend(t, Alloc(1, "b"), Live(true).(sessions := map[1 := c]));
    LineIsOid("a");
    LineIsOid("c");
    assert Line("a") == "a,";
    var w := StepCopy(t.ws[|t.es|], 1, c, "a", "c", true);
    t := Extend(t, Act(1, Copy("a", "c", true)), w);
    assert w.db.store["c"] == Body(true, Some(1));
  }

  // ----- a mail without metadata is dropped by a rebuild -----

  lemma MailWithoutMetadataDropped() returns (t: Run)
    ensures t.ws[0] == EMPTY && |t.es| > 0 && t.es[|t.es| - 1].Rebuild?
    ensures Record("b", 1, "a") in t.ws[|t.es| - 1].db.records && WholeIn(t.ws[|t.es| - 1].db, "a")
    ensures t.ws[|t.es|].db.records == []
  {
    t := CommittedMail(false);
    var w := t.ws[|t.es|];
    assert Loaded(w.db.store, OidSet(w.index)) == {};
    var e := Rebuild("", [], map["b" := 2]);
    assert RebuildResult(w, "", [], map["b" := 2]);
    t := Extend(t, e, Step(w, e));
  }
}
