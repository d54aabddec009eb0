/** Rebuilds in runs of the save protocol: whatever a forced rebuild leaves, the run goes on from there. */
module RecoveryRebuild {
  import opened Rados
  import P = SaveProtocol
  import opened SaveTheorems
  import opened RecoveryTheorem
  import opened RebuildPasses
  import opened RebuildBridge

  /** A run from the empty system that keeps the recovery index up to date. */
  ghost predicate IndexedRun(t: P.Run) { GoodRun(t) && forall e :: e in t.es ==> Indexing(e) }

  lemma ReachableKnown(t: P.Run, i: nat)
    requires GoodRun(t) && i <= |t.es|
    ensures Known(t.ws[i])
  {
    ReachableInv(t, i);
  }

  /** A represented world of such a run has an index that agrees with a listing. */
  lemma RunsAgree(t: P.Run, i: nat, s: Stores, data: map<Oid, seq<byte>>)
    requires IndexedRun(t) && i <= |t.es| && Represents(t.ws[i], s, data)
    ensures Agree(s, data)
  {
    IndexFindsAllMails(t, i);
  }

  /**
   A forced rebuild by search method 2 at the end of such a run, with any outcome of the rebuild, makes the run one
   event longer, and its stores are those of the new last world.
   */
  lemma RunGoesOn(t: P.Run, conv: Convert, before: Stores, after: Stores, data: map<Oid, seq<byte>>,
                  order: seq<BoxId>, boxes: seq<BoxId>, inbox: Option<BoxId>, firstTry: bool, ret: int)
    returns (t': P.Run)
    requires IndexedRun(t) && t.ws[|t.es|].sessions == map[] && Represents(t.ws[|t.es|], before, data)
    requires Outcome(conv, FoundBy(true, before.objects, before.text), before, after, boxes, inbox, firstTry, ret)
    requires TextAfter(true, true, FoundBy(true, before.objects, before.text), before.text, after.text)
    requires Lists(order, after.indexes)
    ensures IndexedRun(t') && t'.es == t.es + [RepairEvent(after, data, order)] && t'.ws[..|t.ws|] == t.ws
    ensures Represents(t'.ws[|t'.es|], after, data) && Agree(after, data)
  {
    var w, e := t.ws[|t.es|], RepairEvent(after, data, order);
    ReachableKnown(t, |t.es|);
    AnyRebuildIsStep(w, before, after, data, order);
    P.ExtendedIsRun(t, e);
    t' := P.Trace(t.ws + [P.Step(w, e)], t.es + [e]);
    StillGood(t, t', e);
    RunsAgree(t', |t'.es|, after, data);
  }

  lemma StillGood(t: P.Run, t': P.Run, e: P.Event)
    requires IndexedRun(t) && !e.Act? && P.Enabled(t.ws[|t.es|], e)
    requires t'.ws == t.ws + [P.Step(t.ws[|t.es|], e)] && t'.es == t.es + [e]
    ensures IndexedRun(t')
  {
    forall i: nat | i < |t'.es|
      ensures P.DisciplinedAt(t', i)
    {
      assert P.Linked(t', i);
      if i < |t.es| { assert P.DisciplinedAt(t, i); }
    }
  }

  /** Wherever in such a run a rebuild is made, and however it ends, index and listing agree afterwards. */
  lemma AnyRebuildAgrees(t: P.Run, i: nat, conv: Convert, before: Stores, after: Stores, data: map<Oid, seq<byte>>,
                         boxes: seq<BoxId>, inbox: Option<BoxId>, firstTry: bool, ret: int)
    requires IndexedRun(t) && i <= |t.es| && Represents(t.ws[i], before, data)
    requires Outcome(conv, FoundBy(true, before.objects, before.text), before, after, boxes, inbox, firstTry, ret)
    requires if boxes == [] then after.text == before.text
             else TextAfter(true, true, FoundBy(true, before.objects, before.text), before.text, after.text)
    ensures Agree(after, data)
  {
    RunsAgree(t, i, before, data);
    AgreementSurvives(before, after, data);
  }
}
