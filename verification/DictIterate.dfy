/** Iteration over the entries of the private and the shared dictionary object. */
module DictIterate {
  import opened Rados
  import opened Text
  import opened DictTransaction

  datatype Entry = Entry(key: string, value: string)

  datatype Flags = Flags(recurse: bool, exactKey: bool, noValue: bool)

  // ----- the order of std::set and std::map -----

  predicate Less(a: string, b: string) {
    b != "" && (a == "" || a[0] < b[0] || (a[0] == b[0] && Less(a[1..], b[1..])))
  }

  /** The lexicographic order: the first difference decides, and a proper prefix comes first. */
  lemma {:induction false} LessIff(a: string, b: string)
    ensures Less(a, b) <==> exists n :: Differ(a, b, n)
  {
    if a == "" {
      assert b != "" ==> Differ(a, b, 0);
    } else if b != "" {
      if a[0] < b[0] { assert Differ(a, b, 0); }
      if a[0] == b[0] {
        LessIff(a[1..], b[1..]);
        if n :| Differ(a[1..], b[1..], n) { DifferCons(a, b, n); }
        if n :| Differ(a, b, n) { DifferTail(a, b, n); }
      }
    }
  }

  /** `a` and `b` agree up to `n`, where `a` ends or has the smaller character. */
  predicate Differ(a: string, b: string, n: int) {
    && 0 <= n <= |a| && n < |b| && (forall i :: 0 <= i < n ==> a[i] == b[i])
    && (n < |a| ==> a[n] < b[n])
  }

  lemma DifferCons(a: string, b: string, n: int)
    requires a != "" && b != "" && a[0] == b[0] && Differ(a[1..], b[1..], n)
    ensures Differ(a, b, n + 1)
  {
    assert forall i :: 0 < i <= n ==> a[i] == a[1..][i - 1] && b[i] == b[1..][i - 1];
  }

  lemma DifferTail(a: string, b: string, n: int)
    requires a != "" && b != "" && a[0] == b[0] && Differ(a, b, n)
    ensures Differ(a[1..], b[1..], n - 1)
  {
  }

  lemma {:induction false} LessTransitive(a: string, b: string, c: string)
    requires Less(a, b) && Less(b, c)
    ensures Less(a, c)
  {
    if a != "" && a[0] == b[0] == c[0] { LessTransitive(a[1..], b[1..], c[1..]); }
  }

  lemma {:induction false} LessTotal(a: string, b: string)
    ensures a == b || Less(a, b) || Less(b, a)
    ensures !(Less(a, b) && Less(b, a)) && !Less(a, a)
  {
    if a != "" && b != "" && a[0] == b[0] {
      LessTotal(a[1..], b[1..]);
      if a[1..] == b[1..] { assert a == [a[0]] + a[1..] && b == [b[0]] + b[1..]; }
    }
    if a != "" { LessTotal(a[1..], a[1..]); }
  }

  predicate Ascending(s: seq<string>) { forall i, j :: 0 <= i < j < |s| ==> Less(s[i], s[j]) }

  /** Inserting into an ordered set of paths. */
  method Insert(keys: seq<string>, k: string) returns (keys': seq<string>)
    requires Ascending(keys)
    ensures Ascending(keys')
    ensures forall x :: x in keys' <==> x in keys || x == k
  {
    var i := 0;
    while i < |keys| && Less(keys[i], k)
      invariant i <= |keys| && forall j :: 0 <= j < i ==> Less(keys[j], k)
    {
      i := i + 1;
    }
    if i < |keys| && keys[i] == k { return keys; }
    keys' := keys[..i] + [k] + keys[i..];
    InsertAscending(keys, i, k);
    assert keys == keys[..i] + keys[i..];
  }

  lemma InsertAscending(keys: seq<string>, i: nat, k: string)
    requires Ascending(keys) && i <= |keys| && (forall j :: 0 <= j < i ==> Less(keys[j], k))
    requires i < |keys| ==> !Less(keys[i], k) && keys[i] != k
    ensures Ascending(keys[..i] + [k] + keys[i..])
  {
    forall j | i <= j < |keys|
      ensures Less(k, keys[j])
    {
      LessTotal(keys[i], k);
      if i < j { LessTransitive(k, keys[i], keys[j]); }
    }
  }

  // ----- what the store answers -----

  ghost predicate Listing(es: seq<Entry>) { forall i, j :: 0 <= i < j < |es| ==> Less(es[i].key, es[j].key) }

  /** An omap as the store lists it. */
  type Omap = es: seq<Entry> | Listing(es) witness []

  predicate Matches(e: Entry, path: string, recurse: bool) {
    StartsWith(e.key, path) && (recurse || forall i :: |path| <= i < |e.key| ==> e.key[i] != '/')
  }

  /** `omap_get_vals` with a prefix. */
  function WithPrefix(es: seq<Entry>, path: string): seq<Entry> {
    if es == [] then []
    else (if StartsWith(es[0].key, path) then [es[0]] else []) + WithPrefix(es[1..], path)
  }

  /** `omap_get_vals_by_keys` */
  function WithKeys(es: seq<Entry>, keys: seq<string>): seq<Entry> {
    if es == [] then [] else (if es[0].key in keys then [es[0]] else []) + WithKeys(es[1..], keys)
  }

  // ----- the answer a caller gets -----

  function OnPath(es: seq<Entry>, path: string, recurse: bool): seq<Entry> {
    if es == [] then []
    else (if Matches(es[0], path, recurse) then [es[0]] else []) + OnPath(es[1..], path, recurse)
  }

  /** Path after path, in the order of the paths and of the keys. */
  function OnPaths(es: seq<Entry>, paths: seq<string>, recurse: bool): seq<Entry> {
    if paths == [] then [] else OnPath(es, paths[0], recurse) + OnPaths(es, paths[1..], recurse)
  }

  function Side(es: seq<Entry>, paths: seq<string>, flags: Flags): seq<Entry> {
    if flags.exactKey then WithKeys(es, paths) else OnPaths(es, paths, flags.recurse)
  }

  /** The entries an iteration visits, private ones first. */
  function Answer(priv: seq<Entry>, shared: seq<Entry>, privatePaths: seq<string>, sharedPaths: seq<string>,
                  flags: Flags): seq<Entry> {
    Side(priv, privatePaths, flags) + Side(shared, sharedPaths, flags)
  }

  lemma {:induction false} OnPathIff(es: seq<Entry>, path: string, recurse: bool, e: Entry)
    ensures e in OnPath(es, path, recurse) <==> e in es && Matches(e, path, recurse)
  {
    if es != [] {
      OnPathIff(es[1..], path, recurse, e);
      assert es == [es[0]] + es[1..];
    }
  }

  /** An entry is visited iff one of the paths is a prefix and, unless recursing, no '/' follows. */
  lemma {:induction false} OnPathsIff(es: seq<Entry>, paths: seq<string>, recurse: bool, e: Entry)
    ensures e in OnPaths(es, paths, recurse) <==>
              e in es && exists i :: 0 <= i < |paths| && Matches(e, paths[i], recurse)
  {
    if paths != [] {
      OnPathIff(es, paths[0], recurse, e);
      OnPathsIff(es, paths[1..], recurse, e);
      if e in es && exists i :: 0 <= i < |paths| && Matches(e, paths[i], recurse) {
        var i :| 0 <= i < |paths| && Matches(e, paths[i], recurse);
        if i > 0 { assert paths[1..][i - 1] == paths[i]; }
      }
    }
  }

  lemma {:induction false} WithKeysIff(es: seq<Entry>, keys: seq<string>, e: Entry)
    ensures e in WithKeys(es, keys) <==> e in es && e.key in keys
  {
    if es != [] {
      WithKeysIff(es[1..], keys, e);
      assert es == [es[0]] + es[1..];
    }
  }

  /** Within one path the keys ascend, so no entry is visited twice there. */
  lemma {:induction false} OnPathListing(es: Omap, path: string, recurse: bool)
    ensures Listing(OnPath(es, path, recurse))
  {
    if es != [] {
      OnPathListing(es[1..], path, recurse);
      forall e | e in OnPath(es[1..], path, recurse)
        ensures Less(es[0].key, e.key)
      {
        OnPathIff(es[1..], path, recurse, e);
      }
    }
  }

  /** The same for exact keys. */
  lemma {:induction false} WithKeysListing(es: Omap, keys: seq<string>)
    ensures Listing(WithKeys(es, keys))
  {
    if es != [] {
      WithKeysListing(es[1..], keys);
      forall e | e in WithKeys(es[1..], keys)
        ensures Less(es[0].key, e.key)
      {
        WithKeysIff(es[1..], keys, e);
      }
    }
  }

  /** A caller asks for `key` with the path: the key itself, or one below the path. */
  predicate Wanted(key: string, path: string, flags: Flags) {
    if flags.exactKey then key == path
    else StartsWith(key, path) && (flags.recurse || forall i :: |path| <= i < |key| ==> key[i] != '/')
  }

  lemma SideIff(es: seq<Entry>, paths: seq<string>, flags: Flags, e: Entry)
    ensures e in Side(es, paths, flags) <==> e in es && exists i :: 0 <= i < |paths| && Wanted(e.key, paths[i], flags)
  {
    if flags.exactKey { WithKeysIff(es, paths, e); } else { OnPathsIff(es, paths, flags.recurse, e); }
  }

  /** The entries of the private object come first. */
  lemma PrivateFirst(priv: seq<Entry>, shared: seq<Entry>, privatePaths: seq<string>, sharedPaths: seq<string>,
                     flags: Flags) returns (n: nat)
    ensures var answer := Answer(priv, shared, privatePaths, sharedPaths, flags);
            && n <= |answer|
            && (forall e :: e in answer[..n] <==>
                  e in priv && exists i :: 0 <= i < |privatePaths| && Wanted(e.key, privatePaths[i], flags))
            && (forall e :: e in answer[n..] <==>
                  e in shared && exists i :: 0 <= i < |sharedPaths| && Wanted(e.key, sharedPaths[i], flags))
  {
    var a, b := Side(priv, privatePaths, flags), Side(shared, sharedPaths, flags);
    n := |a|;
    assert (a + b)[..n] == a && (a + b)[n..] == b;
    forall e
      ensures e in a <==> e in priv && exists i :: 0 <= i < |privatePaths| && Wanted(e.key, privatePaths[i], flags)
      ensures e in b <==> e in shared && exists i :: 0 <= i < |sharedPaths| && Wanted(e.key, sharedPaths[i], flags)
    {
      SideIff(priv, privatePaths, flags, e);
      SideIff(shared, sharedPaths, flags, e);
    }
  }

  /** Entry `a` of the list was found on path `from[a]`: path after path, and in the order of the keys on each. */
  ghost predicate InOrder(es: seq<Entry>, paths: seq<string>, recurse: bool, list: seq<Entry>, from: seq<nat>) {
    && |from| == |list|
    && (forall a :: 0 <= a < |list| ==> from[a] < |paths| && list[a] in es && Matches(list[a], paths[from[a]], recurse))
    && (forall a, b :: 0 <= a < b < |list| ==>
          from[a] < from[b] || (from[a] == from[b] && Less(list[a].key, list[b].key)))
  }

  /** The entry is in the list for path `i`. */
  ghost predicate FoundOn(list: seq<Entry>, from: seq<nat>, i: nat, e: Entry)
    requires |from| == |list|
  {
    exists a :: 0 <= a < |list| && list[a] == e && from[a] == i
  }

  /** For each path in turn every matching entry is visited once, in the order of the keys. */
  lemma {:induction false} OnPathsOrder(es: Omap, paths: seq<string>, recurse: bool) returns (from: seq<nat>)
    ensures InOrder(es, paths, recurse, OnPaths(es, paths, recurse), from)
    ensures forall i: nat, e :: i < |paths| && e in es && Matches(e, paths[i], recurse) ==>
              FoundOn(OnPaths(es, paths, recurse), from, i, e)
  {
    from := [];
    if paths != [] {
      var first, rest := OnPath(es, paths[0], recurse), OnPaths(es, paths[1..], recurse);
      var later := OnPathsOrder(es, paths[1..], recurse);
      from := seq(|first|, _ => 0) + seq(|later|, a requires 0 <= a < |later| => later[a] + 1);
      OnPathListing(es, paths[0], recurse);
      forall e ensures e in first <==> e in es && Matches(e, paths[0], recurse) { OnPathIff(es, paths[0], recurse, e); }
      OrderCons(es, paths, recurse, first, rest, later, from);
      forall i: nat, e | i < |paths| && e in es && Matches(e, paths[i], recurse)
        ensures FoundOn(first + rest, from, i, e)
      {
        if i > 0 { assert paths[1..][i - 1] == paths[i]; }
        FoundCons(first, rest, later, from, i, e);
      }
    }
  }

  lemma FoundCons(first: seq<Entry>, rest: seq<Entry>, later: seq<nat>, from: seq<nat>, i: nat, e: Entry)
    requires |later| == |rest| && (if i == 0 then e in first else FoundOn(rest, later, i - 1, e))
    requires from == seq(|first|, _ => 0) + seq(|later|, a requires 0 <= a < |later| => later[a] + 1)
    ensures FoundOn(first + rest, from, i, e)
  {
    if i == 0 {
      var a :| 0 <= a < |first| && first[a] == e;
      assert (first + rest)[a] == e && from[a] == 0;
    } else {
      var a :| 0 <= a < |rest| && rest[a] == e && later[a] == i - 1;
      assert (first + rest)[|first| + a] == e && from[|first| + a] == i;
    }
  }

  lemma OrderCons(es: seq<Entry>, paths: seq<string>, recurse: bool, first: seq<Entry>, rest: seq<Entry>,
                  later: seq<nat>, from: seq<nat>)
    requires paths != [] && Listing(first) && InOrder(es, paths[1..], recurse, rest, later)
    requires forall e :: e in first ==> e in es && Matches(e, paths[0], recurse)
    requires from == seq(|first|, _ => 0) + seq(|later|, a requires 0 <= a < |later| => later[a] + 1)
    ensures InOrder(es, paths, recurse, first + rest, from)
  {
    forall a | 0 <= a < |first + rest|
      ensures from[a] < |paths| && (first + rest)[a] in es && Matches((first + rest)[a], paths[from[a]], recurse)
    {
      if a < |first| {
        assert first[a] in first;
      } else {
        assert rest[a - |first|] in es && paths[1..][later[a - |first|]] == paths[from[a]];
      }
    }
  }

  // ----- the iterator -----

  datatype KvMap = KvMap(key: string, entries: seq<Entry>)

  /** The filter the iterator applies while it reads. */
  predicate Passes(flags: Flags, path: string, key: string) {
    flags.recurse || flags.exactKey || |path| > |key| || FindFrom(key, '/', |path|) == |key|
  }

  function Rest(flags: Flags, path: string, es: seq<Entry>): seq<Entry> {
    if es == [] then []
    else (if Passes(flags, path, es[0].key) then [es[0]] else []) + Rest(flags, path, es[1..])
  }

  function RestAll(flags: Flags, results: seq<KvMap>): seq<Entry> {
    if results == [] then [] else Rest(flags, results[0].key, results[0].entries) + RestAll(flags, results[1..])
  }

  function Size(results: seq<KvMap>): nat {
    if results == [] then 0 else |results[0].entries| + Size(results[1..])
  }

  lemma {:induction false} RestOfPrefix(flags: Flags, path: string, es: seq<Entry>)
    requires !flags.exactKey
    ensures Rest(flags, path, WithPrefix(es, path)) == OnPath(es, path, flags.recurse)
  {
    if es != [] {
      RestOfPrefix(flags, path, es[1..]);
      if StartsWith(es[0].key, path) {
        assert Passes(flags, path, es[0].key) <==> Matches(es[0], path, flags.recurse);
        RestCons(flags, path, es[0], WithPrefix(es[1..], path));
      } else {
        assert [] + WithPrefix(es[1..], path) == WithPrefix(es[1..], path);
      }
    }
  }

  lemma RestCons(flags: Flags, path: string, e: Entry, es: seq<Entry>)
    ensures Rest(flags, path, [e] + es) == (if Passes(flags, path, e.key) then [e] else []) + Rest(flags, path, es)
  {
    assert ([e] + es)[1..] == es;
  }

  lemma {:induction false} RestOfAll(flags: Flags, path: string, es: seq<Entry>)
    requires flags.exactKey
    ensures Rest(flags, path, es) == es
  {
    if es != [] {
      RestOfAll(flags, path, es[1..]);
      assert es == [es[0]] + es[1..];
    }
  }

  lemma {:induction false} RestAllAppend(flags: Flags, a: seq<KvMap>, b: seq<KvMap>)
    ensures RestAll(flags, a + b) == RestAll(flags, a) + RestAll(flags, b)
  {
    if a == [] {
      assert a + b == b;
    } else {
      assert (a + b)[1..] == a[1..] + b;
      RestAllAppend(flags, a[1..], b);
    }
  }

  lemma {:induction false} OnPathsAppend(es: seq<Entry>, a: seq<string>, b: seq<string>, recurse: bool)
    ensures OnPaths(es, a + b, recurse) == OnPaths(es, a, recurse) + OnPaths(es, b, recurse)
  {
    if a == [] {
      assert a + b == b;
    } else {
      assert (a + b)[1..] == a[1..] + b;
      OnPathsAppend(es, a[1..], b, recurse);
    }
  }

  lemma RestAllOne(flags: Flags, r: KvMap)
    ensures RestAll(flags, [r]) == Rest(flags, r.key, r.entries)
  {
    assert [r][1..] == [];
  }

  lemma OnPathsOne(es: seq<Entry>, path: string, recurse: bool)
    ensures OnPaths(es, [path], recurse) == OnPath(es, path, recurse)
  {
    assert [path][1..] == [];
  }

  /** The paths of both sides; others are ignored. */
  method SplitPaths(paths: seq<string>) returns (privatePaths: seq<string>, sharedPaths: seq<string>)
    ensures Ascending(privatePaths) && Ascending(sharedPaths)
    ensures forall p :: p in sharedPaths <==> p in paths && StartsWith(p, "shared/")
    ensures forall p :: p in privatePaths <==>
              p in paths && !StartsWith(p, "shared/") && StartsWith(p, "priv/")
  {
    privatePaths, sharedPaths := [], [];
    var i := 0;
    while i < |paths|
      invariant i <= |paths| && Ascending(privatePaths) && Ascending(sharedPaths)
      invariant forall p :: p in sharedPaths <==> p in paths[..i] && StartsWith(p, "shared/")
      invariant forall p :: p in privatePaths <==>
                  p in paths[..i] && !StartsWith(p, "shared/") && StartsWith(p, "priv/")
    {
      if StartsWith(paths[i], SHARED_PREFIX) {
        sharedPaths := Insert(sharedPaths, paths[i]);
      } else if StartsWith(paths[i], PRIVATE_PREFIX) {
        privatePaths := Insert(privatePaths, paths[i]);
      }
      assert paths[..i + 1] == paths[..i] + [paths[i]];
      i := i + 1;
    }
    assert paths[..i] == paths;
  }

  /** The reads of one side. */
  method Query(es: seq<Entry>, paths: seq<string>, flags: Flags) returns (results: seq<KvMap>)
    ensures RestAll(flags, results) == Side(es, paths, flags)
    ensures paths != [] ==> results != []
  {
    results := [];
    if paths == [] {
      NoPaths(es, flags);
    } else if flags.exactKey {
      results := [KvMap("", WithKeys(es, paths))];
      RestAllOne(flags, results[0]);
      RestOfAll(flags, "", WithKeys(es, paths));
    } else {
      var i := 0;
      while i < |paths|
        invariant i <= |paths| && |results| == i
        invariant RestAll(flags, results) == OnPaths(es, paths[..i], flags.recurse)
      {
        var r := KvMap(paths[i], WithPrefix(es, paths[i]));
        RestAllAppend(flags, results, [r]);
        RestAllOne(flags, r);
        RestOfPrefix(flags, paths[i], es);
        OnPathsAppend(es, paths[..i], [paths[i]], flags.recurse);
        OnPathsOne(es, paths[i], flags.recurse);
        assert paths[..i + 1] == paths[..i] + [paths[i]];
        results := results + [r];
        i := i + 1;
      }
      assert paths[..i] == paths;
    }
  }

  lemma {:induction false} NoPaths(es: seq<Entry>, flags: Flags)
    ensures Side(es, [], flags) == []
  {
    if es != [] && flags.exactKey { NoPaths(es[1..], flags); }
  }

  predicate InRange(results: seq<KvMap>, outer: nat, inner: nat) {
    outer < |results| && inner <= |results[outer].entries|
  }

  /** What the iterator still passes on from a position. */
  function Left(flags: Flags, results: seq<KvMap>, outer: nat, inner: nat): seq<Entry>
    requires InRange(results, outer, inner)
  {
    Rest(flags, results[outer].key, results[outer].entries[inner..]) + RestAll(flags, results[outer + 1..])
  }

  function Unread(results: seq<KvMap>, outer: nat, inner: nat): nat
    requires InRange(results, outer, inner)
  {
    |results[outer].entries| - inner + Size(results[outer + 1..])
  }

  lemma NextResult(flags: Flags, results: seq<KvMap>, outer: nat)
    requires outer < |results|
    ensures var end := |results[outer].entries|;
            if outer + 1 == |results| then Left(flags, results, outer, end) == []
            else Left(flags, results, outer, end) == Left(flags, results, outer + 1, 0)
                 && Unread(results, outer, end) == Unread(results, outer + 1, 0)
  {
    if outer + 1 < |results| {
      assert results[outer + 1..][1..] == results[outer + 2..];
      assert results[outer + 1].entries[0..] == results[outer + 1].entries;
    }
  }

  /** The entry was taken off the list, or is one that is skipped. */
  ghost predicate Took(flags: Flags, path: string, e: Entry, before: seq<Entry>, after: seq<Entry>) {
    before == if Passes(flags, path, e.key) then [e] + after else after
  }

  lemma NextEntry(flags: Flags, results: seq<KvMap>, outer: nat, inner: nat)
    requires InRange(results, outer, inner + 1)
    ensures Took(flags, results[outer].key, results[outer].entries[inner],
                 Left(flags, results, outer, inner), Left(flags, results, outer, inner + 1))
    ensures Unread(results, outer, inner + 1) < Unread(results, outer, inner)
  {
    assert results[outer].entries[inner..][1..] == results[outer].entries[inner + 1..];
  }

  class Iterator {
    const flags: Flags
    var failed: bool
    var results: seq<KvMap>
    var outer: nat
    var inner: nat

    predicate Valid()
      reads this
    {
      !failed ==> InRange(results, outer, inner)
    }

    /** The entries still to come. */
    ghost function Remaining(): seq<Entry>
      requires Valid()
      reads this
    {
      if failed then [] else Left(flags, results, outer, inner)
    }

    /** `rados_dict_iterate_init`; a side that is asked for and cannot be read fails the iteration. */
    constructor (privatePaths: seq<string>, sharedPaths: seq<string>, flags: Flags, priv: Option<Omap>,
                 shared: Option<Omap>)
      ensures Valid() && this.flags == flags
      ensures failed <==> || (privatePaths == [] && sharedPaths == [])
                          || (privatePaths != [] && priv.None?)
                          || (sharedPaths != [] && shared.None?)
      ensures !failed ==> Remaining() == Answer(Entries(priv), Entries(shared), privatePaths, sharedPaths, flags)
    {
      var p := Query(Entries(priv), privatePaths, flags);
      var s := Query(Entries(shared), sharedPaths, flags);
      this.flags := flags;
      failed := privatePaths == [] && sharedPaths == [];
      if privatePaths != [] && priv.None? { failed := true; }
      if sharedPaths != [] && shared.None? { failed := true; }
      results := p + s;
      outer, inner := 0, 0;
      RestAllAppend(flags, p, s);
      var all: seq<KvMap> := p + s;
      if all != [] { assert all[0].entries[0..] == all[0].entries; }
    }

    /** Moves on to the next result that has an entry left. */
    method SkipExhausted() returns (found: bool)
      requires Valid() && !failed
      modifies this`outer, this`inner
      ensures !found ==> old(Remaining()) == []
      ensures found ==> Valid() && inner < |results[outer].entries| && Remaining() == old(Remaining())
      ensures found ==> Unread(results, outer, inner) == old(Unread(results, outer, inner))
    {
      ghost var left, unread := Left(flags, results, outer, inner), Unread(results, outer, inner);
      while inner == |results[outer].entries|
        invariant InRange(results, outer, inner) && Left(flags, results, outer, inner) == left
        invariant Unread(results, outer, inner) == unread
        decreases |results| - outer
      {
        NextResult(flags, results, outer);
        outer := outer + 1;
        if outer == |results| { return false; }
        inner := 0;
      }
      return true;
    }

    /** Takes the next entry, whether it is passed on or not. */
    method Advance() returns (found: bool, e: Entry, path: string)
      requires Valid() && !failed
      modifies this`outer, this`inner
      ensures !found ==> old(Remaining()) == []
      ensures found ==> Valid() && Unread(results, outer, inner) < old(Unread(results, outer, inner))
      ensures found ==> Took(flags, path, e, old(Remaining()), Remaining())
    {
      e, path := Entry("", ""), "";
      found := SkipExhausted();
      if found {
        e, path := results[outer].entries[inner], results[outer].key;
        NextEntry(flags, results, outer, inner);
        inner := inner + 1;
      }
    }

    /** `rados_dict_iterate`: the next entry, skipping those below a deeper path. */
    method Iterate() returns (ok: bool, key: Option<string>, value: Option<string>)
      requires Valid()
      modifies this`outer, this`inner
      decreases if failed then 0 else Unread(results, outer, inner)
      ensures ok <==> old(Remaining()) != []
      ensures ok ==> Valid() && Remaining() == old(Remaining())[1..]
      ensures ok ==> key == Some(CStr(old(Remaining())[0].key))
      ensures ok ==> value == if flags.noValue then None else Some(CStr(old(Remaining())[0].value))
      ensures !ok ==> key == None && value == None
    {
      key, value := None, None;
      if failed { return false, None, None; }
      var found, e, path := Advance();
      if !found { return false, None, None; }
      if !Passes(flags, path, e.key) {
        ok, key, value := Iterate();
        return;
      }
      return true, Some(CStr(e.key)), if flags.noValue then None else Some(CStr(e.value));
    }
  }

  function Entries(m: Option<Omap>): seq<Entry> { if m.Some? then m.value else [] }

  /** A caller that iterates until the first FALSE sees the whole answer, in order. */
  method Drain(it: Iterator) returns (out: seq<(string, Option<string>)>)
    requires it.Valid()
    modifies it
    ensures |out| == |old(it.Remaining())|
    ensures forall i :: 0 <= i < |out| ==> out[i].0 == CStr(old(it.Remaining())[i].key)
    ensures forall i :: 0 <= i < |out| ==>
              out[i].1 == if it.flags.noValue then None else Some(CStr(old(it.Remaining())[i].value))
  {
    out := [];
    ghost var all := it.Remaining();
    while true
      invariant it.Valid() && Told(it.flags, all, out, it.Remaining())
      decreases |it.Remaining()|
    {
      ghost var rest := it.Remaining();
      var ok, key, value := it.Iterate();
      if !ok { return; }
      ToldMore(it.flags, all, out, rest);
      out := out + [(key.value, value)];
    }
  }

  /** The caller has been told `out` and `rest` is still to come. */
  ghost predicate Told(flags: Flags, all: seq<Entry>, out: seq<(string, Option<string>)>, rest: seq<Entry>) {
    && |out| <= |all| && rest == all[|out|..]
    && (forall i :: 0 <= i < |out| ==> out[i].0 == CStr(all[i].key))
    && (forall i :: 0 <= i < |out| ==> out[i].1 == if flags.noValue then None else Some(CStr(all[i].value)))
  }

  lemma ToldMore(flags: Flags, all: seq<Entry>, out: seq<(string, Option<string>)>, rest: seq<Entry>)
    requires Told(flags, all, out, rest) && rest != []
    ensures var pair := (CStr(rest[0].key), if flags.noValue then None else Some(CStr(rest[0].value)));
            Told(flags, all, out + [pair], rest[1..])
  {
  }

  /** A whole iteration, from the paths a caller gives. */
  method IterateAll(paths: seq<string>, flags: Flags, priv: Option<Omap>, shared: Option<Omap>)
    returns (out: seq<(string, Option<string>)>, ret: int, privatePaths: seq<string>, sharedPaths: seq<string>)
    ensures Ascending(privatePaths) && Ascending(sharedPaths)
    ensures forall p :: p in sharedPaths <==> p in paths && StartsWith(p, "shared/")
    ensures forall p :: p in privatePaths <==>
              p in paths && !StartsWith(p, "shared/") && StartsWith(p, "priv/")
    ensures ret == 0 || ret == -1
    ensures ret < 0 <==> || (privatePaths == [] && sharedPaths == [])
                         || (privatePaths != [] && priv.None?)
                         || (sharedPaths != [] && shared.None?)
    ensures ret < 0 ==> out == []
    ensures ret == 0 ==>
              var answer := Answer(Entries(priv), Entries(shared), privatePaths, sharedPaths, flags);
              && |out| == |answer|
              && (forall i :: 0 <= i < |out| ==> out[i].0 == CStr(answer[i].key))
              && (forall i :: 0 <= i < |out| ==>
                    out[i].1 == if flags.noValue then None else Some(CStr(answer[i].value)))
  {
    privatePaths, sharedPaths := SplitPaths(paths);
    var it := new Iterator(privatePaths, sharedPaths, flags, priv, shared);
    ret := if it.failed then -1 else 0;
    out := Drain(it);
  }
}
