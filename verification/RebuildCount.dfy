/** Several processes find one mailbox corrupted: the rebuild count keeps them from rebuilding it one after the
    other. */
module RebuildCount {
  import opened Rados

  type Pid = nat

  /** The 32-bit count starts at 0 and then goes round through 1 to 2^32 - 1. */
  const CYCLE: nat := 0xffff_ffff

  type Count = n: nat | n <= CYCLE

  function Bumped(count: Count): (next: Count)
    ensures next != 0
  {
    if count == CYCLE then 1 else count + 1
  }

  /** What a process remembers: the count it compares with, and the count of the mailbox when it noticed. */
  datatype Mark = Mark(remembered: Count, at: Count)

  /** `running` are the processes between the check and the end of their rebuild, with their force flag. */
  datatype World = World(count: Count, marks: map<Pid, Mark>, running: map<Pid, bool>, lock: Option<Pid>)

  datatype Event =
    | Notice(p: Pid)
    | Check(p: Pid, force: bool)
    | Finish(p: Pid, commits: bool)

  /** `rbox_set_mailbox_corrupted` */
  function Remembered(count: Count): Count { if count == 0 then 1 else count }

  /** The test at the start of `rbox_sync_index_rebuild`; an unmarked process compares with 0. */
  predicate GoesAhead(w: World, p: Pid, force: bool) {
    var remembered := if p in w.marks then w.marks[p].remembered else 0;
    force || w.count == remembered || w.count == 0
  }

  /** With `locking`, the index is locked from before the check until after the rebuild. */
  predicate Can(locking: bool, w: World, e: Event) {
    match e
    case Notice(p) => p !in w.running
    case Check(p, _) => p !in w.running && (locking ==> w.lock.None?)
    case Finish(p, _) => p in w.running
  }

  predicate Bumps(w: World, e: Event) { e.Finish? && e.commits }

  function Next(locking: bool, w: World, e: Event): World {
    match e
    case Notice(p) => w.(marks := w.marks[p := Mark(Remembered(w.count), w.count)])
    case Check(p, force) =>
      if GoesAhead(w, p, force) then w.(running := w.running[p := force], lock := if locking then Some(p) else w.lock)
      else w.(marks := w.marks - {p})
    case Finish(p, commits) =>
      World(if commits then Bumped(w.count) else w.count, w.marks - {p}, w.running - {p},
            if locking then None else w.lock)
  }

  // ----- runs -----

  predicate IsRun(locking: bool, es: seq<Event>, ws: seq<World>) {
    && |ws| == |es| + 1 && ws[0].marks == map[] && ws[0].running == map[] && ws[0].lock == None
    && forall i :: 0 <= i < |es| ==> Can(locking, ws[i], es[i]) && ws[i + 1] == Next(locking, ws[i], es[i])
  }

  ghost predicate MarksOk(w: World) {
    forall p :: p in w.marks ==>
      w.marks[p].remembered == Remembered(w.marks[p].at) && (w.marks[p].at != 0 ==> w.count != 0)
  }

  /** Only the process that holds the lock is rebuilding, and its check would still go ahead. */
  ghost predicate LockOk(w: World) {
    forall p :: p in w.running ==> w.lock == Some(p) && GoesAhead(w, p, w.running[p])
  }

  lemma {:induction false} RunMarks(locking: bool, es: seq<Event>, ws: seq<World>, n: nat)
    requires IsRun(locking, es, ws) && n < |ws|
    ensures MarksOk(ws[n])
  {
    if n > 0 {
      RunMarks(locking, es, ws, n - 1);
      assert ws[n] == Next(locking, ws[n - 1], es[n - 1]);
    }
  }

  lemma {:induction false} RunLocked(es: seq<Event>, ws: seq<World>, n: nat)
    requires IsRun(true, es, ws) && n < |ws|
    ensures LockOk(ws[n])
  {
    if n > 0 {
      RunLocked(es, ws, n - 1);
      assert Can(true, ws[n - 1], es[n - 1]) && ws[n] == Next(true, ws[n - 1], es[n - 1]);
    }
  }

  /** Rebuilds committed from position `i` up to position `j`. */
  function BumpsBetween(es: seq<Event>, ws: seq<World>, i: nat, j: nat): nat
    requires i <= j <= |es| < |ws|
  {
    if i == j then 0 else BumpsBetween(es, ws, i, j - 1) + if Bumps(ws[j - 1], es[j - 1]) then 1 else 0
  }

  /** The count after `k` more rebuilds. */
  function Later(count: Count, k: nat): Count
    requires count != 0
  {
    (count - 1 + k) % CYCLE + 1
  }

  lemma LaterBumped(count: Count, k: nat)
    requires count != 0
    ensures Later(count, k + 1) == Bumped(Later(count, k))
  {
    ModuloNext(count - 1 + k);
  }

  lemma ModuloNext(n: nat)
    ensures (n + 1) % CYCLE == if n % CYCLE == CYCLE - 1 then 0 else n % CYCLE + 1
  {
    var q, r := n / CYCLE, n % CYCLE;
    assert n == q * CYCLE + r;
    if r == CYCLE - 1 {
      assert n + 1 == (q + 1) * CYCLE;
      ModuloOf(q + 1, 0);
    } else {
      ModuloOf(q, r + 1);
    }
  }

  lemma {:induction false} ModuloOf(q: nat, r: nat)
    requires r < CYCLE
    ensures (q * CYCLE + r) % CYCLE == r
  {
    if q > 0 {
      ModuloOf(q - 1, r);
      assert q * CYCLE + r == (q - 1) * CYCLE + r + CYCLE;
    }
  }

  lemma {:induction false} CountLater(locking: bool, es: seq<Event>, ws: seq<World>, i: nat, j: nat)
    requires IsRun(locking, es, ws) && i <= j <= |es| && ws[i].count != 0
    ensures ws[j].count == Later(ws[i].count, BumpsBetween(es, ws, i, j))
  {
    if i < j {
      CountLater(locking, es, ws, i, j - 1);
      LaterBumped(ws[i].count, BumpsBetween(es, ws, i, j - 1));
      assert ws[j] == Next(locking, ws[j - 1], es[j - 1]);
    }
  }

  /** Once a mailbox has been rebuilt its count is never 0 again, locked or not. */
  lemma {:induction false} NeverZeroAgain(locking: bool, es: seq<Event>, ws: seq<World>, i: nat, j: nat)
    requires IsRun(locking, es, ws) && i < j <= |es| && Bumps(ws[i], es[i])
    ensures ws[j].count != 0
  {
    assert ws[j] == Next(locking, ws[j - 1], es[j - 1]);
    if i < j - 1 { NeverZeroAgain(locking, es, ws, i, j - 1); }
  }

  lemma BumpsFrom(es: seq<Event>, ws: seq<World>, i: nat, j: nat)
    requires i < j <= |es| < |ws| && Bumps(ws[i], es[i])
    ensures BumpsBetween(es, ws, i, j) >= 1
  {
    if i < j - 1 { BumpsFrom(es, ws, i, j - 1); }
  }

  /** The same count again means that the counter went all the way round. */
  lemma SameCountLater(locking: bool, es: seq<Event>, ws: seq<World>, i: nat, j: nat)
    requires IsRun(locking, es, ws) && i < j <= |es| && Bumps(ws[i], es[i]) && ws[i].count == ws[j].count != 0
    ensures BumpsBetween(es, ws, i, j) >= CYCLE
  {
    var k, c := BumpsBetween(es, ws, i, j), ws[i].count;
    CountLater(locking, es, ws, i, j);
    BumpsFrom(es, ws, i, j);
    if k < CYCLE { LaterDiffers(c, k); }
  }

  lemma LaterDiffers(c: Count, k: nat)
    requires c != 0 && 0 < k < CYCLE
    ensures Later(c, k) != c
  {
    if c - 1 + k < CYCLE { ModuloOf(0, c - 1 + k); } else { ModuloOf(1, c - 1 + k - CYCLE); }
  }

  // ----- what a mark is good for -----

  /**
   A process that noticed the corruption and finds that others have committed `k` rebuilds since goes ahead exactly if
   there was none, or if there was one and the mailbox had never been rebuilt when it noticed.
   */
  lemma GoesAheadIff(locking: bool, es: seq<Event>, ws: seq<World>, i: nat, j: nat)
    requires IsRun(locking, es, ws) && i < j <= |es| && es[i].Notice? && BumpsBetween(es, ws, i, j) < CYCLE
    requires es[i].p in ws[j].marks && ws[j].marks[es[i].p] == Mark(Remembered(ws[i].count), ws[i].count)
    ensures var k := BumpsBetween(es, ws, i, j);
            GoesAhead(ws[j], es[i].p, false) <==> k == 0 || (k == 1 && ws[i].count == 0)
  {
    var k, c := BumpsBetween(es, ws, i, j), ws[i].count;
    if c == 0 {
      CountFromZero(locking, es, ws, i, j);
    } else {
      CountLater(locking, es, ws, i, j);
      if k == 0 { ModuloOf(0, c - 1); } else { LaterDiffers(c, k); }
    }
  }

  lemma {:induction false} CountFromZero(locking: bool, es: seq<Event>, ws: seq<World>, i: nat, j: nat)
    requires IsRun(locking, es, ws) && i <= j <= |es| && ws[i].count == 0 && BumpsBetween(es, ws, i, j) < CYCLE
    ensures ws[j].count == BumpsBetween(es, ws, i, j)
  {
    if i < j {
      CountFromZero(locking, es, ws, i, j - 1);
      assert ws[j] == Next(locking, ws[j - 1], es[j - 1]);
    }
  }

  // ----- how many rebuild, with the lock -----

  /** A committed rebuild that is not forced, by a process that noticed the corruption when the count was `c`. */
  ghost predicate Answers(es: seq<Event>, ws: seq<World>, i: nat, c: Count)
    requires i < |es| < |ws|
  {
    var e, w := es[i], ws[i];
    Bumps(w, e) && e.p in w.running && !w.running[e.p] && e.p in w.marks && w.marks[e.p].at == c
  }

  /** The same, committed or rolled back. */
  ghost predicate Attempts(es: seq<Event>, ws: seq<World>, i: nat, c: Count)
    requires i < |es| < |ws|
  {
    var e, w := es[i], ws[i];
    e.Finish? && e.p in w.running && !w.running[e.p] && e.p in w.marks && w.marks[e.p].at == c
  }

  lemma AttemptsAt(es: seq<Event>, ws: seq<World>, i: nat, c: Count)
    requires IsRun(true, es, ws) && i < |es| && Attempts(es, ws, i, c)
    ensures ws[i].count == Remembered(c) || (c == 0 && ws[i].count == 0)
  {
    RunMarks(true, es, ws, i);
    RunLocked(es, ws, i);
  }

  /** Of all who noticed at one count other than 0 a second one rebuilds only after the counter went all the way
      round. */
  lemma OneRebuild(es: seq<Event>, ws: seq<World>, c: Count, i: nat, j: nat)
    requires IsRun(true, es, ws) && i < j < |es| && c != 0 && Answers(es, ws, i, c) && Answers(es, ws, j, c)
    ensures BumpsBetween(es, ws, i, j) >= CYCLE
  {
    NoneAfterOne(es, ws, c, i, j);
  }

  /** After a committed rebuild nobody who noticed at the same count even runs one, committed or not. */
  lemma NoneAfterOne(es: seq<Event>, ws: seq<World>, c: Count, i: nat, j: nat)
    requires IsRun(true, es, ws) && i < j < |es| && c != 0 && Answers(es, ws, i, c) && Attempts(es, ws, j, c)
    ensures BumpsBetween(es, ws, i, j) >= CYCLE
  {
    AttemptsAt(es, ws, i, c);
    AttemptsAt(es, ws, j, c);
    SameCountLater(true, es, ws, i, j);
  }

  lemma NoneAfterTwo(es: seq<Event>, ws: seq<World>, i: nat, j: nat, k: nat)
    requires IsRun(true, es, ws) && i < j < k < |es|
    requires Answers(es, ws, i, 0) && Answers(es, ws, j, 0) && Attempts(es, ws, k, 0)
    ensures BumpsBetween(es, ws, j, k) >= CYCLE
  {
    AttemptsAt(es, ws, j, 0);
    AttemptsAt(es, ws, k, 0);
    NeverZeroAgain(true, es, ws, i, j);
    NeverZeroAgain(true, es, ws, i, k);
    SameCountLater(true, es, ws, j, k);
  }

  /** Of all who noticed while the mailbox had never been rebuilt, the same holds for a third one. */
  lemma TwoRebuilds(es: seq<Event>, ws: seq<World>, i: nat, j: nat, k: nat)
    requires IsRun(true, es, ws) && i < j < k < |es|
    requires Answers(es, ws, i, 0) && Answers(es, ws, j, 0) && Answers(es, ws, k, 0)
    ensures BumpsBetween(es, ws, j, k) >= CYCLE
  {
    NoneAfterTwo(es, ws, i, j, k);
  }

  lemma {:induction false} BumpsWithin(es: seq<Event>, ws: seq<World>, i: nat, j: nat, n: nat)
    requires i <= j <= n <= |es| < |ws|
    ensures BumpsBetween(es, ws, i, j) <= BumpsBetween(es, ws, 0, n)
  {
    if j < n {
      BumpsWithin(es, ws, i, j, n - 1);
    } else if i < j {
      BumpsWithin(es, ws, i, j - 1, n - 1);
    }
  }

  ghost function Answering(es: seq<Event>, ws: seq<World>, c: Count): set<nat>
    requires |es| < |ws|
  {
    set i: nat | i < |es| && Answers(es, ws, i, c)
  }

  /** Short of a full round of the counter, at most one rebuild answers a count, and at most two the count 0. */
  lemma AtMostOneOrTwo(es: seq<Event>, ws: seq<World>, c: Count)
    requires IsRun(true, es, ws) && BumpsBetween(es, ws, 0, |es|) < CYCLE
    ensures |Answering(es, ws, c)| <= if c == 0 then 2 else 1
  {
    var all := Answering(es, ws, c);
    forall i, j | i in all && j in all && i < j
      ensures c == 0
    {
      if c != 0 { OneRebuild(es, ws, c, i, j); BumpsWithin(es, ws, i, j, |es|); }
    }
    forall i, j, k | i in all && j in all && k in all && i < j < k
      ensures false
    {
      TwoRebuilds(es, ws, i, j, k);
      BumpsWithin(es, ws, j, k, |es|);
    }
    if c == 0 { Pair(all); } else { Single(all); }
  }

  /** The rebuilds that run for one count: those that are rolled back, and one more, or two for the count 0. */
  lemma AttemptsBounded(es: seq<Event>, ws: seq<World>, c: Count)
    requires IsRun(true, es, ws) && BumpsBetween(es, ws, 0, |es|) < CYCLE
    ensures var attempts := set i: nat | i < |es| && Attempts(es, ws, i, c);
            var undone := set i: nat | i < |es| && Attempts(es, ws, i, c) && !es[i].commits;
            |attempts| <= |undone| + if c == 0 then 2 else 1
  {
    var attempts := set i: nat | i < |es| && Attempts(es, ws, i, c);
    var undone := set i: nat | i < |es| && Attempts(es, ws, i, c) && !es[i].commits;
    AtMostOneOrTwo(es, ws, c);
    assert attempts == undone + Answering(es, ws, c);
  }

  lemma Single(s: set<nat>)
    requires forall i, j :: i in s && j in s && i < j ==> false
    ensures |s| <= 1
  {
    if i :| i in s { assert s == {i}; }
  }

  lemma Pair(s: set<nat>)
    requires forall i, j, k :: i in s && j in s && k in s && i < j < k ==> false
    ensures |s| <= 2
  {
    if i, j :| i in s && j in s && i < j {
      assert s == {i, j};
    } else {
      Single(s);
    }
  }

  // ----- without the lock -----

  /**
   Without the lock two processes that noticed at the same count both check before either commits, and both rebuild:
   the bound fails for every count other than 0.
   */
  lemma RaceWithoutLock(c: Count) returns (es: seq<Event>, ws: seq<World>)
    requires c != 0
    ensures IsRun(false, es, ws) && ws[0].count == c && BumpsBetween(es, ws, 0, |es|) == 2
    ensures Answering(es, ws, c) == {4, 5}
  {
    es := [Notice(1), Notice(2), Check(1, false), Check(2, false), Finish(1, true), Finish(2, true)];
    var m := Mark(c, c);
    var w2 := World(c, map[1 := m, 2 := m], map[], None);
    ws := [World(c, map[], map[], None), World(c, map[1 := m], map[], None), w2, w2.(running := map[1 := false]),
           w2.(running := map[1 := false, 2 := false]),
           World(Bumped(c), map[2 := m], map[2 := false], None), World(Bumped(Bumped(c)), map[], map[], None)];
    RaceSteps(c, es, ws);
    assert BumpsBetween(es, ws, 0, 5) == 1;
    forall i: nat | i < |es|
      ensures Answers(es, ws, i, c) <==> i in {4, 5}
    {
    }
  }

  lemma {:induction false} NoBumps(es: seq<Event>, ws: seq<World>, n: nat)
    requires n <= |es| < |ws| && forall i :: 0 <= i < n ==> !Bumps(ws[i], es[i])
    ensures BumpsBetween(es, ws, 0, n) == 0
  {
    if n > 0 { NoBumps(es, ws, n - 1); }
  }

  lemma RaceSteps(c: Count, es: seq<Event>, ws: seq<World>)
    requires c != 0 && |es| == 6
    requires es == [Notice(1), Notice(2), Check(1, false), Check(2, false), Finish(1, true), Finish(2, true)]
    requires var m := Mark(c, c);
             var w2 := World(c, map[1 := m, 2 := m], map[], None);
             ws == [World(c, map[], map[], None), World(c, map[1 := m], map[], None), w2,
                    w2.(running := map[1 := false]), w2.(running := map[1 := false, 2 := false]),
                    World(Bumped(c), map[2 := m], map[2 := false], None), World(Bumped(Bumped(c)), map[], map[], None)]
    ensures IsRun(false, es, ws)
    ensures BumpsBetween(es, ws, 0, 4) == 0
  {
    assert Next(false, ws[0], es[0]) == ws[1] && Next(false, ws[1], es[1]) == ws[2];
    assert Next(false, ws[2], es[2]) == ws[3] && Next(false, ws[3], es[3]) == ws[4];
    assert Next(false, ws[4], es[4]) == ws[5] && Next(false, ws[5], es[5]) == ws[6];
    NoBumps(es, ws, 4);
  }

  const ZERO_EVENTS: seq<Event> :=
    [Notice(1), Notice(2), Notice(3), Check(1, false), Check(2, false), Check(3, false),
     Finish(1, true), Finish(2, true), Finish(3, true)]

  const NOTICED: World := World(0, map[1 := Mark(1, 0), 2 := Mark(1, 0), 3 := Mark(1, 0)], map[], None)

  const ZERO_WORLDS: seq<World> :=
    [World(0, map[], map[], None), World(0, map[1 := Mark(1, 0)], map[], None),
     World(0, map[1 := Mark(1, 0), 2 := Mark(1, 0)], map[], None), NOTICED,
     NOTICED.(running := map[1 := false]), NOTICED.(running := map[1 := false, 2 := false]),
     NOTICED.(running := map[1 := false, 2 := false, 3 := false]),
     World(1, map[2 := Mark(1, 0), 3 := Mark(1, 0)], map[2 := false, 3 := false], None),
     World(2, map[3 := Mark(1, 0)], map[3 := false], None), World(3, map[], map[], None)]

  /** At count 0, where two are allowed, three processes rebuild without the lock. */
  lemma RaceAtZero()
    ensures IsRun(false, ZERO_EVENTS, ZERO_WORLDS) && ZERO_WORLDS[0].count == 0
    ensures BumpsBetween(ZERO_EVENTS, ZERO_WORLDS, 0, |ZERO_EVENTS|) == 3
    ensures Answering(ZERO_EVENTS, ZERO_WORLDS, 0) == {6, 7, 8}
  {
    ZeroNotices();
    ZeroFinishes();
    NoBumps(ZERO_EVENTS, ZERO_WORLDS, 6);
    assert BumpsBetween(ZERO_EVENTS, ZERO_WORLDS, 0, 7) == 1;
    assert BumpsBetween(ZERO_EVENTS, ZERO_WORLDS, 0, 8) == 2;
  }

  lemma ZeroNotices()
    ensures forall i: nat :: i < 6 ==>
              && Can(false, ZERO_WORLDS[i], ZERO_EVENTS[i])
              && ZERO_WORLDS[i + 1] == Next(false, ZERO_WORLDS[i], ZERO_EVENTS[i])
  {
    var es, ws := ZERO_EVENTS, ZERO_WORLDS;
    assert Next(false, ws[0], es[0]) == ws[1] && Next(false, ws[1], es[1]) == ws[2];
    assert Next(false, ws[2], es[2]) == ws[3] && Next(false, ws[3], es[3]) == ws[4];
    assert Next(false, ws[4], es[4]) == ws[5] && Next(false, ws[5], es[5]) == ws[6];
  }

  lemma ZeroFinishes()
    ensures forall i: nat :: 6 <= i < 9 ==>
              && Can(false, ZERO_WORLDS[i], ZERO_EVENTS[i])
              && ZERO_WORLDS[i + 1] == Next(false, ZERO_WORLDS[i], ZERO_EVENTS[i])
              && Answers(ZERO_EVENTS, ZERO_WORLDS, i, 0)
  {
    var es, ws := ZERO_EVENTS, ZERO_WORLDS;
    assert Next(false, ws[6], es[6]) == ws[7] && Next(false, ws[7], es[7]) == ws[8];
    assert Next(false, ws[8], es[8]) == ws[9];
  }

  // ----- as the code does it -----

  class Mailbox {
    var rebuildCount: Count
    constructor () ensures rebuildCount == 0 { rebuildCount := 0; }
  }

  /** The counters of one process; they follow the events of the machine. */
  class Storage {
    var corruptedRebuildCount: Count
    var corrupted: bool

    /** The counters of process `p` in a world of the machine. */
    ghost predicate Follows(box: Mailbox, w: World, p: Pid)
      reads this, box
    {
      && box.rebuildCount == w.count
      && corruptedRebuildCount == if p in w.marks then w.marks[p].remembered else 0
    }

    method SetMailboxCorrupted(box: Mailbox, ghost locking: bool, ghost p: Pid, ghost w: World)
      requires Follows(box, w, p) && Can(locking, w, Notice(p))
      modifies this
      ensures corrupted && Follows(box, Next(locking, w, Notice(p)), p)
      ensures corruptedRebuildCount != 0
    {
      if box.rebuildCount == 0 {
        corruptedRebuildCount := 1;
      } else {
        corruptedRebuildCount := box.rebuildCount;
      }
      corrupted := true;
    }

    /** The check at the start of `rbox_sync_index_rebuild`. */
    method CheckCount(box: Mailbox, force: bool, ghost locking: bool, ghost p: Pid,
                      ghost w: World) returns (ahead: bool)
      requires Follows(box, w, p) && Can(locking, w, Check(p, force))
      modifies this
      ensures Follows(box, Next(locking, w, Check(p, force)), p) && corrupted == old(corrupted)
      ensures ahead <==> p in Next(locking, w, Check(p, force)).running
    {
      if !force && box.rebuildCount != corruptedRebuildCount && box.rebuildCount != 0 {
        corruptedRebuildCount := 0;
        return false;
      }
      return true;
    }

    /** The end of `rbox_sync_index_rebuild`. */
    method FinishRebuild(box: Mailbox, commits: bool, ghost locking: bool, ghost p: Pid, ghost w: World)
      requires Follows(box, w, p) && Can(locking, w, Finish(p, commits))
      modifies this, box
      ensures Follows(box, Next(locking, w, Finish(p, commits)), p) && corrupted == old(corrupted)
    {
      if commits { box.rebuildCount := if box.rebuildCount == CYCLE then 1 else box.rebuildCount + 1; }
      corruptedRebuildCount := 0;
    }
  }
}
