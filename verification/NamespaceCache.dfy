/** The namespace manager: which RADOS namespace holds the mails of a user, with a cache in front of the store. */
module NamespaceCache {
  import opened Rados

  type User = string
  type Namespace = string

  /** The configuration of the manager; `userNs` is where the entries are kept. */
  datatype Config = Config(valid: bool, userMapping: bool, userNs: Namespace)

  /** An entry object: the namespace it is in, and its oid. */
  datatype Slot = Slot(ns: Namespace, oid: User)

  datatype State = State(cache: map<User, Namespace>, objects: map<Slot, Namespace>, io: Namespace)

  /** One call: `opens` tells an opening of a user's storage, which creates a missing entry, from a plain lookup as the
      copy of a mail makes it. The rest is whether the store answers, and the GUID the generator would give. */
  datatype Call = Call(user: User, opens: bool, readOk: bool, saveOk: bool, guid: Namespace)

  function Stored(cfg: Config, s: State, u: User): Option<Namespace> {
    if Slot(cfg.userNs, u) in s.objects && s.objects[Slot(cfg.userNs, u)] != ""
        then Some(s.objects[Slot(cfg.userNs, u)]) else None
  }

  /** What `lookup_key` would answer without a cache. */
  function Uncached(cfg: Config, s: State, u: User): Option<Namespace> {
    if u == "" then Some("")
    else if !cfg.valid then None
    else if !cfg.userMapping then Some(u)
    else Stored(cfg, s, u)
  }

  function LookedUp(cfg: Config, s: State, c: Call): (State, Option<Namespace>) {
    if c.user != "" && cfg.valid && cfg.userMapping && c.user in s.cache then (s, Some(s.cache[c.user]))
    else if c.user != "" && cfg.valid && cfg.userMapping then
      var found := if c.readOk then Stored(cfg, s, c.user) else None;
      (s.(cache := if found.Some? then s.cache[c.user := found.value] else s.cache, io := ""), found)
    else (s, Uncached(cfg, s, c.user))
  }

  function Added(cfg: Config, s: State, c: Call): (State, Option<Namespace>) {
    if !cfg.valid then (s, None)
    else if !c.saveOk then (s.(io := ""), None)
    else (State(s.cache[c.user := c.guid], s.objects[Slot(cfg.userNs, c.user) := c.guid], ""), Some(c.guid))
  }

  /** The namespace step of `rbox_open_rados_connection`: look up or create. */
  function Opened(cfg: Config, s: State, c: Call): (State, Option<Namespace>) {
    var looked := LookedUp(cfg, s, c);
    if looked.1.Some? then looked else Added(cfg, looked.0, c)
  }

  /** What a call does and gives. */
  function Called(cfg: Config, s: State, c: Call): (State, Option<Namespace>) {
    if c.opens then Opened(cfg, s, c) else LookedUp(cfg, s, c)
  }

  // ----- every run -----

  /** A run starts with any store and an empty cache. */
  predicate IsRun(cfg: Config, cs: seq<Call>, ss: seq<State>) {
    && |ss| == |cs| + 1 && ss[0].cache == map[] && ss[0].io == ""
    && forall i :: 0 <= i < |cs| ==> ss[i + 1] == Called(cfg, ss[i], cs[i]).0
  }

  /** GUIDs are not empty and never given out twice. */
  predicate FreshGuids(cs: seq<Call>) {
    && (forall i :: 0 <= i < |cs| ==> cs[i].guid != "")
    && (forall i, j :: 0 <= i < j < |cs| ==> cs[i].guid != cs[j].guid)
  }

  /** The cache never differs from the store. */
  ghost predicate Coherent(cfg: Config, s: State) {
    s.io == "" && forall u :: u in s.cache ==> Stored(cfg, s, u) == Some(s.cache[u])
  }

  lemma CalledCoherent(cfg: Config, s: State, c: Call)
    requires Coherent(cfg, s) && c.guid != ""
    ensures Coherent(cfg, Called(cfg, s, c).0)
  {
  }

  lemma {:induction false} RunCoherent(cfg: Config, cs: seq<Call>, ss: seq<State>, n: nat)
    requires IsRun(cfg, cs, ss) && FreshGuids(cs) && n < |ss|
    ensures Coherent(cfg, ss[n])
  {
    if n > 0 {
      RunCoherent(cfg, cs, ss, n - 1);
      CalledCoherent(cfg, ss[n - 1], cs[n - 1]);
    }
  }

  /** At any point of any run a lookup answers as an uncached read would, as long as the store answers: the user's name
      without user mapping, else what the entry object of the user holds. */
  lemma LookupIsUncached(cfg: Config, cs: seq<Call>, ss: seq<State>, n: nat, c: Call)
    requires IsRun(cfg, cs, ss) && FreshGuids(cs) && n < |ss| && c.readOk
    ensures var (s', ns) := LookedUp(cfg, ss[n], c);
            && ns == Uncached(cfg, ss[n], c.user) && s'.io == ""
            && (c.user == "" ==> ns == Some(""))
            && (c.user != "" && !cfg.valid ==> ns == None)
            && (c.user != "" && cfg.valid && !cfg.userMapping ==> ns == Some(c.user))
            && (c.user != "" && cfg.valid && cfg.userMapping ==> EntryIs(ss[n], Slot(cfg.userNs, c.user), ns))
  {
    RunCoherent(cfg, cs, ss, n);
  }

  /** The entry object holds `ns`; an empty one counts as missing. */
  predicate EntryIs(s: State, slot: Slot, ns: Option<Namespace>) {
    match ns
    case Some(text) => text != "" && slot in s.objects && s.objects[slot] == text
    case None => slot in s.objects ==> s.objects[slot] == ""
  }

  /** A call changes nothing of other users, neither in the cache nor in the store, and stores only in `userNs`. */
  lemma OthersUntouched(cfg: Config, s: State, c: Call)
    ensures var s' := Called(cfg, s, c).0;
            && (forall u :: u != c.user ==> (u in s'.cache <==> u in s.cache))
            && (forall u :: u != c.user && u in s.cache ==> s'.cache[u] == s.cache[u])
            && (forall k :: k != Slot(cfg.userNs, c.user) ==> (k in s'.objects <==> k in s.objects))
            && (forall k :: k != Slot(cfg.userNs, c.user) && k in s.objects ==> s'.objects[k] == s.objects[k])
            && (!c.opens ==> s'.objects == s.objects)
  {
  }

  /** A user who has a namespace gets it again iff it is cached or the store answers; otherwise a new one replaces
      it. */
  lemma KeepsNamespaceIff(cfg: Config, cs: seq<Call>, ss: seq<State>, n: nat, c: Call)
    requires IsRun(cfg, cs, ss) && FreshGuids(cs) && n < |ss| && cfg.valid && cfg.userMapping && c.user != ""
    requires c.opens && Stored(cfg, ss[n], c.user).Some? && c.guid != "" && c.guid != Stored(cfg, ss[n], c.user).value
    requires c.saveOk
    ensures Called(cfg, ss[n], c).1 == Stored(cfg, ss[n], c.user) <==> c.user in ss[n].cache || c.readOk
    ensures Stored(cfg, Called(cfg, ss[n], c).0, c.user) == Called(cfg, ss[n], c).1
  {
    RunCoherent(cfg, cs, ss, n);
  }

  /** A new process whose first read of the store fails gives a user who has a namespace another one, and keeps that. */
  lemma NamespaceReplaced() returns (cfg: Config, cs: seq<Call>, ss: seq<State>)
    ensures IsRun(cfg, cs, ss) && FreshGuids(cs) && |cs| == 1 && cfg.valid && cfg.userMapping
    ensures Stored(cfg, ss[0], "u") == Some("old") && Stored(cfg, ss[1], "u") == Some("fresh")
  {
    cfg := Config(true, true, "users");
    var s := State(map[], map[Slot("users", "u") := "old"], "");
    cs := [Call("u", true, false, true, "fresh")];
    ss := [s, Called(cfg, s, cs[0]).0];
  }

  // ----- distinct users -----

  /** No two users share an entry at the start, and the generator knows none of them. */
  ghost predicate DistinctEntries(cfg: Config, cs: seq<Call>, s: State) {
    && (forall u, v :: Stored(cfg, s, u).Some? && Stored(cfg, s, u) == Stored(cfg, s, v) ==> u == v)
    && (forall u, i :: 0 <= i < |cs| ==> Stored(cfg, s, u) != Some(cs[i].guid))
  }

  /** The namespace is that of the user at the start, or was generated in one of the first `n` calls for this user. */
  ghost predicate From(cfg: Config, cs: seq<Call>, s: State, n: nat, u: User, ns: Namespace)
    requires n <= |cs|
  {
    Stored(cfg, s, u) == Some(ns) || exists i :: 0 <= i < n && cs[i].user == u && cs[i].guid == ns
  }

  lemma StoredAfter(cfg: Config, s: State, c: Call, u: User)
    ensures var after := Stored(cfg, Called(cfg, s, c).0, u);
            after == Stored(cfg, s, u) || (u == c.user && (after == Some(c.guid) || c.guid == ""))
  {
  }

  lemma {:induction false} RunEntries(cfg: Config, cs: seq<Call>, ss: seq<State>, n: nat, u: User)
    requires IsRun(cfg, cs, ss) && FreshGuids(cs) && n < |ss| && Stored(cfg, ss[n], u).Some?
    ensures From(cfg, cs, ss[0], n, u, Stored(cfg, ss[n], u).value)
  {
    if n > 0 {
      assert ss[n] == Called(cfg, ss[n - 1], cs[n - 1]).0;
      StoredAfter(cfg, ss[n - 1], cs[n - 1], u);
      if Stored(cfg, ss[n], u) == Stored(cfg, ss[n - 1], u) { RunEntries(cfg, cs, ss, n - 1, u); }
    }
  }

  /** With user mapping on, a namespace given to a user is one of this user. */
  lemma GivenFrom(cfg: Config, cs: seq<Call>, ss: seq<State>, n: nat)
    requires IsRun(cfg, cs, ss) && FreshGuids(cs) && n < |cs| && cfg.valid && cfg.userMapping && cs[n].user != ""
    requires Called(cfg, ss[n], cs[n]).1.Some?
    ensures From(cfg, cs, ss[0], n + 1, cs[n].user, Called(cfg, ss[n], cs[n]).1.value)
  {
    RunCoherent(cfg, cs, ss, n);
    assert Stored(cfg, ss[n + 1], cs[n].user) == Called(cfg, ss[n], cs[n]).1;
    RunEntries(cfg, cs, ss, n + 1, cs[n].user);
  }

  /** Over every run, distinct users are given distinct namespaces, even when the store fails in between. */
  lemma DistinctUsers(cfg: Config, cs: seq<Call>, ss: seq<State>, i: nat, j: nat)
    requires IsRun(cfg, cs, ss) && FreshGuids(cs) && DistinctEntries(cfg, cs, ss[0])
    requires i < |cs| && j < |cs| && cs[i].user != cs[j].user && cfg.valid
    requires Called(cfg, ss[i], cs[i]).1.Some? && Called(cfg, ss[j], cs[j]).1.Some?
    ensures Called(cfg, ss[i], cs[i]).1 != Called(cfg, ss[j], cs[j]).1
  {
    if cfg.userMapping {
      if cs[i].user != "" { GivenFrom(cfg, cs, ss, i); }
      if cs[j].user != "" { GivenFrom(cfg, cs, ss, j); }
    }
  }

  // ----- as the code does it -----

  class Manager {
    const cfg: Config
    var cache: map<User, Namespace>
    var objects: map<Slot, Namespace>
    var io: Namespace

    function Value(): State reads this { State(cache, objects, io) }

    constructor (cfg: Config)
      ensures this.cfg == cfg && Value() == State(map[], map[], "")
    {
      this.cfg := cfg;
      cache, objects, io := map[], map[], "";
    }

    method LookupKey(c: Call) returns (found: bool, ns: Namespace)
      modifies this
      ensures Value() == LookedUp(cfg, old(Value()), c).0
      ensures LookedUp(cfg, old(Value()), c).1 == if found then Some(ns) else None
    {
      var uid := c.user;
      ns := "";
      if uid == "" { return true, uid; }
      if !cfg.valid { return false, ns; }
      if !cfg.userMapping { return true, uid; }
      if uid in cache { return true, cache[uid]; }
      found := false;
      io := cfg.userNs;
      if c.readOk && Slot(io, uid) in objects && objects[Slot(io, uid)] != "" {
        ns := objects[Slot(io, uid)];
        cache := cache[uid := ns];
        found := true;
      }
      io := "";
    }

    method AddNamespaceEntry(c: Call) returns (added: bool, ns: Namespace)
      modifies this
      ensures Value() == Added(cfg, old(Value()), c).0
      ensures Added(cfg, old(Value()), c).1 == if added then Some(ns) else None
    {
      if !cfg.valid { return false, ""; }
      ns := c.guid;
      io := cfg.userNs;
      added := false;
      if c.saveOk {
        objects := objects[Slot(io, c.user) := ns];
        cache := cache[c.user := ns];
        added := true;
      }
      io := "";
    }

    method Open(c: Call) returns (ret: int, ns: Namespace)
      modifies this
      ensures Value() == Opened(cfg, old(Value()), c).0
      ensures Opened(cfg, old(Value()), c).1 == if ret >= 0 then Some(ns) else None
    {
      ret := 0;
      var found;
      found, ns := LookupKey(c);
      if !found {
        var added;
        added, ns := AddNamespaceEntry(c);
        ret := if added then 0 else -1;
      }
    }
  }
}
