/** The parallel object search: one worker per OSD, a bounded window of workers, one shared result set. */
module AsyncSearch {
  import opened Rados

  type Pg = string

  datatype Osd = Osd(name: string, pgs: seq<Pg>)

  /** The OSDs in the order of the map, what each PG lists, and the number of threads. */
  datatype Job = Job(osds: seq<Osd>, listing: Pg -> seq<Oid>, threads: nat)

  /** A worker stands before object `k` of its PG number `j`. */
  datatype Worker = Worker(pgs: seq<Pg>, j: nat, k: nat)

  datatype Point = Top | Spawn | Final | Returned

  /** All workers ever started; the first `joined` of them have been joined. */
  datatype State = State(point: Point, i: nat, workers: seq<Worker>, joined: nat, found: set<Oid>)

  const INVALID_OSD := "oon"

  predicate Finished(w: Worker) { w.j >= |w.pgs| }

  const START := State(Top, 0, [], 0, {})

  // ----- steps -----

  /** The main thread; joining waits for the worker. */
  predicate MainCan(job: Job, s: State) {
    match s.point
    case Top => s.i < |job.osds| && |s.workers| - s.joined == job.threads ==>
        s.joined < |s.workers| && Finished(s.workers[s.joined])
    case Spawn => s.i < |job.osds|
    case Final => s.joined < |s.workers| ==> Finished(s.workers[s.joined])
    case Returned => false
  }

  function MainStep(job: Job, s: State): State
    requires MainCan(job, s)
  {
    match s.point
    case Top =>
      if s.i >= |job.osds| then s.(point := Final)
      else if |s.workers| - s.joined == job.threads then s.(point := Spawn, joined := s.joined + 1)
      else s.(point := Spawn)
    case Spawn =>
      var osd := job.osds[s.i];
      if osd.name == INVALID_OSD then s.(point := Top, i := s.i + 1)
      else s.(point := Top, i := s.i + 1, workers := s.workers + [Worker(osd.pgs, 0, 0)])
    case Final =>
      if s.joined < |s.workers| then s.(joined := s.joined + 1) else s.(point := Returned)
  }

  function WorkerMoved(job: Job, w: Worker): Worker
    requires !Finished(w)
  {
    if w.k < |job.listing(w.pgs[w.j])| then w.(k := w.k + 1) else w.(j := w.j + 1, k := 0)
  }

  /** A worker inserts one oid while it holds the mutex, or goes on to its next PG. */
  function WorkerStep(job: Job, s: State, t: nat): State
    requires t < |s.workers| && !Finished(s.workers[t])
  {
    var w := s.workers[t];
    var objects := job.listing(w.pgs[w.j]);
    s.(workers := s.workers[t := WorkerMoved(job, w)],
       found := if w.k < |objects| then s.found + {objects[w.k]} else s.found)
  }

  datatype Who = Main | Thread(t: nat)

  predicate Can(job: Job, s: State, who: Who) {
    match who
    case Main => MainCan(job, s)
    case Thread(t) => t < |s.workers| && !Finished(s.workers[t])
  }

  function Step(job: Job, s: State, who: Who): State
    requires Can(job, s, who)
  {
    match who
    case Main => MainStep(job, s)
    case Thread(t) => WorkerStep(job, s, t)
  }

  // ----- what is to be found -----

  function SetOf(oids: seq<Oid>): set<Oid> { set o | o in oids }

  function OfPgs(listing: Pg -> seq<Oid>, pgs: seq<Pg>): set<Oid> {
    if pgs == [] then {} else OfPgs(listing, pgs[..|pgs| - 1]) + SetOf(listing(pgs[|pgs| - 1]))
  }

  /** The PGs of the OSDs that are not skipped. */
  function Searched(osds: seq<Osd>): seq<seq<Pg>> {
    if osds == [] then []
    else Searched(osds[..|osds| - 1]) + if osds[|osds| - 1].name == INVALID_OSD then [] else [osds[|osds| - 1].pgs]
  }

  /** An oid is listed by some PG of some searched OSD. */
  ghost predicate Listed(job: Job, o: Oid) {
    exists i, j :: 0 <= i < |job.osds| && job.osds[i].name != "oon" && 0 <= j < |job.osds[i].pgs|
                   && o in job.listing(job.osds[i].pgs[j])
  }

  // ----- invariant -----

  ghost predicate WorkerOk(job: Job, w: Worker) {
    w.j <= |w.pgs| && if w.j < |w.pgs| then w.k <= |job.listing(w.pgs[w.j])| else w.k == 0
  }

  function Seen(job: Job, w: Worker): set<Oid> {
    OfPgs(job.listing, if w.j <= |w.pgs| then w.pgs[..w.j] else w.pgs) +
    if w.j < |w.pgs| && w.k <= |job.listing(w.pgs[w.j])| then SetOf(job.listing(w.pgs[w.j])[..w.k]) else {}
  }

  ghost predicate FoundOk(job: Job, workers: seq<Worker>, found: set<Oid>) {
    forall o :: o in found <==> exists t :: 0 <= t < |workers| && o in Seen(job, workers[t])
  }

  ghost predicate WindowOk(job: Job, s: State) {
    && s.joined <= |s.workers|
    && |s.workers| - s.joined <= job.threads
    && (s.point == Spawn ==> |s.workers| - s.joined < job.threads)
    && (s.point == Returned ==> s.joined == |s.workers|)
    && (forall t :: 0 <= t < s.joined ==> Finished(s.workers[t]))
  }

  ghost predicate Inv(job: Job, s: State) {
    && s.i <= |job.osds| && (s.point == Spawn ==> s.i < |job.osds|)
        && (s.point.Final? || s.point.Returned? ==> s.i == |job.osds|)
    && WindowOk(job, s)
    && (forall t :: 0 <= t < |s.workers| ==> WorkerOk(job, s.workers[t]))
    && |s.workers| == |Searched(job.osds[..s.i])|
    && (forall t :: 0 <= t < |s.workers| ==> s.workers[t].pgs == Searched(job.osds[..s.i])[t])
    && FoundOk(job, s.workers, s.found)
  }

  lemma StartInv(job: Job)
    ensures Inv(job, START)
  {
  }

  lemma MainInv(job: Job, s: State)
    requires job.threads >= 1 && Inv(job, s) && MainCan(job, s)
    ensures Inv(job, MainStep(job, s))
  {
    if s.point.Spawn? {
      assert job.osds[..s.i + 1][..s.i] == job.osds[..s.i];
      var osd := job.osds[s.i];
      if osd.name != INVALID_OSD {
        var s' := MainStep(job, s);
        NewWorker(job, s.workers, s.found, osd.pgs);
        assert forall t :: 0 <= t < |s.workers| ==> s'.workers[t] == s.workers[t];
      }
    }
  }

  lemma NewWorker(job: Job, workers: seq<Worker>, found: set<Oid>, pgs: seq<Pg>)
    requires FoundOk(job, workers, found)
    ensures WorkerOk(job, Worker(pgs, 0, 0)) && FoundOk(job, workers + [Worker(pgs, 0, 0)], found)
  {
    var w := Worker(pgs, 0, 0);
    assert Seen(job, w) == {};
    forall o
      ensures o in found <==> exists t :: 0 <= t < |workers + [w]| && o in Seen(job, (workers + [w])[t])
    {
      if o in found {
        var t :| 0 <= t < |workers| && o in Seen(job, workers[t]);
        assert (workers + [w])[t] == workers[t];
      }
    }
  }

  lemma WorkerSees(job: Job, w: Worker)
    requires WorkerOk(job, w) && !Finished(w)
    ensures WorkerOk(job, WorkerMoved(job, w))
    ensures var objects := job.listing(w.pgs[w.j]);
            Seen(job, WorkerMoved(job, w)) == if w.k < |objects| then Seen(job, w) + {objects[w.k]} else Seen(job, w)
  {
    var objects := job.listing(w.pgs[w.j]);
    if w.k < |objects| {
      assert objects[..w.k + 1] == objects[..w.k] + [objects[w.k]];
    } else {
      assert objects[..w.k] == objects;
      assert w.pgs[..w.j + 1][..w.j] == w.pgs[..w.j];
    }
  }

  lemma FoundGrows(job: Job, workers: seq<Worker>, found: set<Oid>, t: nat, w: Worker, more: set<Oid>)
    requires FoundOk(job, workers, found) && t < |workers| && Seen(job, w) == Seen(job, workers[t]) + more
    ensures FoundOk(job, workers[t := w], found + more)
  {
    var ws := workers[t := w];
    forall o
      ensures o in found + more <==> exists u :: 0 <= u < |ws| && o in Seen(job, ws[u])
    {
      if o in found {
        var u :| 0 <= u < |workers| && o in Seen(job, workers[u]);
        assert o in Seen(job, ws[u]);
      }
      if o in more { assert o in Seen(job, ws[t]); }
      if u :| 0 <= u < |ws| && o in Seen(job, ws[u]) {
        assert u != t ==> ws[u] == workers[u];
      }
    }
  }

  lemma WorkerInv(job: Job, s: State, t: nat)
    requires Inv(job, s) && t < |s.workers| && !Finished(s.workers[t])
    ensures Inv(job, WorkerStep(job, s, t))
  {
    var w := s.workers[t];
    var objects := job.listing(w.pgs[w.j]);
    WorkerSees(job, w);
    var more := if w.k < |objects| then {objects[w.k]} else {};
    FoundGrows(job, s.workers, s.found, t, WorkerMoved(job, w), more);
    assert WorkerStep(job, s, t).found == s.found + more;
  }

  // ----- runs -----

  predicate IsRun(job: Job, who: seq<Who>, run: seq<State>) {
    && |run| == |who| + 1 && run[0] == START
    && forall i :: 0 <= i < |who| ==> Can(job, run[i], who[i]) && run[i + 1] == Step(job, run[i], who[i])
  }

  lemma {:induction false} RunInv(job: Job, who: seq<Who>, run: seq<State>, n: nat)
    requires job.threads >= 1 && IsRun(job, who, run) && n < |run|
    ensures Inv(job, run[n])
  {
    if n == 0 {
      StartInv(job);
    } else {
      RunInv(job, who, run, n - 1);
      match who[n - 1] {
        case Main => MainInv(job, run[n - 1]);
        case Thread(t) => WorkerInv(job, run[n - 1], t);
      }
    }
  }

  lemma {:induction false} OfPgsIff(listing: Pg -> seq<Oid>, pgs: seq<Pg>, o: Oid)
    ensures o in OfPgs(listing, pgs) <==> exists j :: 0 <= j < |pgs| && o in listing(pgs[j])
  {
    if pgs != [] {
      var n := |pgs| - 1;
      OfPgsIff(listing, pgs[..n], o);
      if j :| 0 <= j < |pgs| && o in listing(pgs[j]) {
        if j < n { assert o in listing(pgs[..n][j]); }
      }
      if o in OfPgs(listing, pgs[..n]) {
        var j :| 0 <= j < n && o in listing(pgs[..n][j]);
        assert o in listing(pgs[j]);
      }
    }
  }

  lemma {:induction false} SearchedIff(osds: seq<Osd>, pgs: seq<Pg>)
    ensures pgs in Searched(osds) <==> exists i :: 0 <= i < |osds| && osds[i].name != INVALID_OSD && osds[i].pgs == pgs
  {
    if osds != [] {
      var n := |osds| - 1;
      SearchedIff(osds[..n], pgs);
      if i :| 0 <= i < |osds| && osds[i].name != INVALID_OSD && osds[i].pgs == pgs {
        if i < n { assert osds[..n][i] == osds[i]; }
      }
      if pgs in Searched(osds[..n]) {
        var i :| 0 <= i < n && osds[..n][i].name != INVALID_OSD && osds[..n][i].pgs == pgs;
        assert osds[i].pgs == pgs;
      }
    }
  }

  lemma FinishedSaw(job: Job, w: Worker)
    requires WorkerOk(job, w) && Finished(w)
    ensures Seen(job, w) == OfPgs(job.listing, w.pgs)
  {
    assert w.pgs[..w.j] == w.pgs;
  }

  /** Under every interleaving the search returns the union of what all PGs of all valid OSDs list. */
  lemma SearchFindsAll(job: Job, who: seq<Who>, run: seq<State>)
    requires job.threads >= 1 && IsRun(job, who, run) && run[|run| - 1].point == Returned
    ensures var s := run[|run| - 1];
            && (forall o :: o in s.found <==> Listed(job, o))
            && s.joined == |s.workers| && forall t :: 0 <= t < |s.workers| ==> Finished(s.workers[t])
  {
    var s := run[|run| - 1];
    RunInv(job, who, run, |run| - 1);
    forall o ensures o in s.found <==> Listed(job, o) { FoundIffListed(job, s, o); }
  }

  lemma FoundIffListed(job: Job, s: State, o: Oid)
    requires Inv(job, s) && s.point == Returned
    ensures o in s.found <==> Listed(job, o)
  {
    assert job.osds[..s.i] == job.osds;
    if o in s.found {
      var t :| 0 <= t < |s.workers| && o in Seen(job, s.workers[t]);
      var pgs := s.workers[t].pgs;
      FinishedSaw(job, s.workers[t]);
      OfPgsIff(job.listing, pgs, o);
      assert pgs in Searched(job.osds);
      SearchedIff(job.osds, pgs);
    }
    if Listed(job, o) {
      var i, j :| 0 <= i < |job.osds| && job.osds[i].name != "oon" && 0 <= j < |job.osds[i].pgs|
                  && o in job.listing(job.osds[i].pgs[j]);
      var pgs := job.osds[i].pgs;
      SearchedIff(job.osds, pgs);
      var t :| 0 <= t < |Searched(job.osds)| && Searched(job.osds)[t] == pgs;
      OfPgsIff(job.listing, pgs, o);
      FinishedSaw(job, s.workers[t]);
    }
  }

  /** Never more than `threads` workers that are not joined. */
  lemma WindowBounded(job: Job, who: seq<Who>, run: seq<State>, n: nat)
    requires job.threads >= 1 && IsRun(job, who, run) && n < |run|
    ensures 0 <= |run[n].workers| - run[n].joined <= job.threads
  {
    RunInv(job, who, run, n);
  }

  // ----- progress -----

  /** Somebody can always go on until the search has returned. */
  lemma NeverStuck(job: Job, s: State)
    requires job.threads >= 1 && Inv(job, s) && s.point != Returned
    ensures exists who :: Can(job, s, who)
  {
    if s.joined < |s.workers| && !Finished(s.workers[s.joined]) {
      assert Can(job, s, Thread(s.joined));
    } else {
      assert Can(job, s, Main);
    }
  }

  function PgWork(listing: Pg -> seq<Oid>, pgs: seq<Pg>): nat {
    if pgs == [] then 0 else |listing(pgs[0])| + 1 + PgWork(listing, pgs[1..])
  }

  function WorkerWork(job: Job, w: Worker): nat
    requires WorkerOk(job, w)
  {
    PgWork(job.listing, w.pgs[w.j..]) - if w.j < |w.pgs| then w.k else 0
  }

  function AllWork(job: Job, ws: seq<Worker>): nat
    requires forall t :: 0 <= t < |ws| ==> WorkerOk(job, ws[t])
  {
    if ws == [] then 0 else AllWork(job, ws[..|ws| - 1]) + WorkerWork(job, ws[|ws| - 1])
  }

  function OsdWork(job: Job, i: nat): nat
    requires i <= |job.osds|
    decreases |job.osds| - i
  {
    if i == |job.osds| then 0 else PgWork(job.listing, job.osds[i].pgs) + 4 + OsdWork(job, i + 1)
  }

  function PointWork(p: Point): nat { match p case Top => 2 case Spawn => 1 case Final => 1 case Returned => 0 }

  /** A bound on the steps that are left. */
  ghost function Work(job: Job, s: State): nat
    requires Inv(job, s)
  {
    AllWork(job, s.workers) + OsdWork(job, s.i) + (|s.workers| - s.joined) + PointWork(s.point)
  }

  lemma {:induction false} AllWorkUpdated(job: Job, ws: seq<Worker>, t: nat, w: Worker)
    requires t < |ws| && WorkerOk(job, w) && forall u :: 0 <= u < |ws| ==> WorkerOk(job, ws[u])
    ensures AllWork(job, ws[t := w]) == AllWork(job, ws) - WorkerWork(job, ws[t]) + WorkerWork(job, w)
  {
    var n := |ws| - 1;
    if t == n {
      assert ws[t := w][..n] == ws[..n];
    } else {
      assert ws[t := w][..n] == ws[..n][t := w];
      AllWorkUpdated(job, ws[..n], t, w);
    }
  }

  lemma WorkerWorks(job: Job, w: Worker)
    requires WorkerOk(job, w) && !Finished(w)
    ensures WorkerOk(job, WorkerMoved(job, w)) && WorkerWork(job, WorkerMoved(job, w)) == WorkerWork(job, w) - 1
  {
    WorkerSees(job, w);
    assert w.pgs[w.j..][1..] == w.pgs[w.j + 1..];
  }

  /** Every step of anybody leaves less to do, so every search returns, whoever is scheduled. */
  lemma StepsRunOut(job: Job, s: State, who: Who)
    requires job.threads >= 1 && Inv(job, s) && Can(job, s, who)
    ensures Inv(job, Step(job, s, who)) && Work(job, Step(job, s, who)) < Work(job, s)
  {
    match who
    case Main =>
      MainInv(job, s);
      if s.point.Spawn? && job.osds[s.i].name != INVALID_OSD {
        var w := Worker(job.osds[s.i].pgs, 0, 0);
        assert (s.workers + [w])[..|s.workers|] == s.workers;
        assert w.pgs[0..] == w.pgs;
      }
    case Thread(t) =>
      WorkerInv(job, s, t);
      WorkerWorks(job, s.workers[t]);
      AllWorkUpdated(job, s.workers, t, WorkerMoved(job, s.workers[t]));
  }

  /** No schedule can go on for longer than the work there was at the start. */
  lemma {:induction false} RunsAreBounded(job: Job, who: seq<Who>, run: seq<State>, n: nat)
    requires job.threads >= 1 && IsRun(job, who, run) && n < |run|
    ensures Inv(job, START) && Inv(job, run[n]) && n + Work(job, run[n]) <= Work(job, START)
  {
    StartInv(job);
    if n > 0 {
      RunsAreBounded(job, who, run, n - 1);
      StepsRunOut(job, run[n - 1], who[n - 1]);
    }
  }
}
