/** What the calls of the save context leave in the stores, from what is proved of every run of the protocol. */
module SaveCalls {
  import opened Rados
  import opened SaveProtocol
  import opened SaveRecords
  import opened SaveTheorems
  import opened SaveMeta
  import opened SaveContext
  import Q = ExpungeQueue

  /** After any calls whose caller keeps the discipline, each record names an object with the bytes the client sent, its
      UID and, if the metadata was written, its mailbox. */
  lemma StoresAreDurable(s: Stores)
    requires s.Valid() && DisciplinedRun(s.history) && FullRebuilds(s.history)
    ensures forall r :: r in s.records ==>
              && r.oid in s.objects && s.objects[r.oid].uid == Some(r.uid)
              && s.objects[r.oid].data == Sent(s.history, |s.history.es|, r.oid)
              && (s.objects[r.oid].meta ==> s.objects[r.oid].box == r.box)
    ensures RecordsOk(s.records, s.nextUid)
  {
    var i := |s.history.es|;
    DurableAtEveryStep(s.history, i);
    forall r | r in s.records
      ensures r.oid in s.objects && s.objects[r.oid].uid == Some(r.uid)
      ensures s.objects[r.oid].data == Sent(s.history, i, r.oid)
      ensures s.objects[r.oid].meta ==> s.objects[r.oid].box == r.box
    {
      RecordIsComplete(s.history, i, r);
    }
  }

  /**
   Two transactions on the same stores with their calls interleaved: each context stays valid while the other is at
   work, and the oid set aside for the second mail stays unused.
   */
  method TwoOpenSaves(s: Stores, a: Oid, b: Oid, bytes: seq<byte>) returns (c: Context, d: Context)
    requires s.Valid() && 1 !in Now(s.history).sessions && 2 !in Now(s.history).sessions
    requires a != b && Fresh(Now(s.history).db, a) && Fresh(Now(s.history).db, b)
    modifies s
    ensures c.stores == d.stores == s && c.Valid() && d.Valid()
    ensures c.phase == Receiving(a, bytes) && d.phase == Receiving(b, [])
  {
    ghost var h0 := s.history;
    c := new Context(s, 1, "inbox");
    StillFresh(h0, s.history, 1, {}, a);
    StillFresh(h0, s.history, 1, {}, b);
    ghost var h1 := s.history;
    NotStarted(h0, h1, 1, 2);
    d := new Context(s, 2, "archive");
    OtherContextSurvives(c, h1, 2);
    StillFresh(h1, s.history, 2, {}, a);
    StillFresh(h1, s.history, 2, {}, b);
    ghost var h2 := s.history;
    c.Begin(a, true);
    OtherContextSurvives(d, h2, 1);
    StillFresh(h2, s.history, 1, {a}, b);
    ghost var h3 := s.history;
    d.Begin(b, true);
    OtherContextSurvives(c, h3, 2);
    ghost var h4 := s.history;
    var ret := c.Continue(bytes, true);
    OtherContextSurvives(d, h4, 1);
    assert [] + bytes == bytes;
  }

  lemma NotStarted(t: Run, t': Run, sid: Sid, other: Sid)
    requires Others(t', sid) == Others(t, sid) && other != sid && other !in Now(t).sessions
    ensures other !in Now(t').sessions
  {
    assert other !in Others(t, sid);
  }

  // ----- what a commit expunges -----

  /** The view of a mailbox shows records of the committed index. */
  ghost predicate Shows(view: Q.View, w: World, box: BoxId) {
    forall q :: Q.Present(view, q) && Q.OidOf(view, q).Some? ==>
      Record(box, view[q - 1].value.uid, Q.OidOf(view, q).value) in w.db.records
  }

  function QueueOf(items: seq<Q.Item>): seq<Oid> { seq(|items|, i requires 0 <= i < |items| => items[i].oid) }

  /** The items that a sync has queued may be expunged by the commit, and with distinct records none is queued twice. */
  lemma QueueMeetsGuard(view: Q.View, expunged: set<nat>, items: seq<Q.Item>, w: World, c: Ctx)
    requires Q.QueueOk(view, expunged, items) && Shows(view, w, c.box) && c.phase.Ready? && c.finished
    requires forall t :: t in w.sessions && Locked(w.sessions[t]) ==> w.sessions[t].box != c.box
    ensures Allowed(w, c, CommitPre(true, QueueOf(items)))
    ensures Q.DistinctOids(view) ==> Distinct(QueueOf(items))
  {
    forall o | o in QueueOf(items)
      ensures exists r :: r in w.db.records && r.oid == o && r.box == c.box
    {
      var i :| 0 <= i < |items| && items[i].oid == o;
      assert Q.ItemOk(view, expunged, items[i]);
      assert Record(c.box, items[i].uid, o) in w.db.records;
    }
    if Q.DistinctOids(view) {
      forall i, j | 0 <= i < j < |items|
        ensures items[i].oid != items[j].oid
      {
        assert Q.ItemOk(view, expunged, items[i]) && Q.ItemOk(view, expunged, items[j]);
      }
    }
  }
}
