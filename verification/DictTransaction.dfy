/** Dictionary transactions: operations are collected per kind and deployed on commit. */
module DictTransaction {
  import opened Rados

  /** A stored text: a number in some spelling (0 is the one the store writes itself), or something else. */
  datatype Value = Numeral(n: int, spelling: nat) | Opaque(text: string)

  datatype Op = Set(key: string, value: Value) | Unset(key: string) | Inc(key: string, diff: int)

  datatype Side = Private | Shared

  /** An omap entry: the object it is in, and its key. */
  datatype Slot = Slot(side: Side, key: string)

  type Omaps = map<Slot, Value>

  function At(m: Omaps, s: Slot): Option<Value> { if s in m then Some(m[s]) else None }

  function Put(m: Omaps, s: Slot, v: Option<Value>): (m': Omaps)
    ensures At(m', s) == v
    ensures forall t :: t != s ==> At(m', t) == At(m, t)
  {
    if v.Some? then m[s := v.value] else m - {s}
  }

  const PRIVATE_PREFIX := "priv/"
  const SHARED_PREFIX := "shared/"

  predicate StartsWith(s: string, prefix: string) { |prefix| <= |s| && s[..|prefix|] == prefix }

  predicate Routable(key: string) { StartsWith(key, PRIVATE_PREFIX) || StartsWith(key, SHARED_PREFIX) }

  /** `is_private` picks the object. */
  function Route(key: string): Slot
    requires Routable(key)
  {
    Slot(if StartsWith(key, PRIVATE_PREFIX) then Private else Shared, key)
  }

  predicate AllRoutable(ops: seq<Op>) { forall i :: 0 <= i < |ops| ==> Routable(ops[i].key) }

  /** `osd_add`: a missing value counts as 0, and a text that is no number stays. */
  function Added(v: Option<Value>, d: int): Option<Value> {
    match v
    case None => Some(Numeral(d, 0))
    case Some(Numeral(n, _)) => Some(Numeral(n + d, 0))
    case Some(Opaque(_)) => v
  }

  // ----- one by one -----

  function Applied(op: Op, v: Option<Value>): Option<Value> {
    match op
    case Set(_, x) => Some(x)
    case Unset(_) => None
    case Inc(_, d) => Added(v, d)
  }

  function OneByOne(ops: seq<Op>, m: Omaps): Omaps
    requires AllRoutable(ops)
  {
    if ops == [] then m
    else
      var before := OneByOne(ops[..|ops| - 1], m);
      var op := ops[|ops| - 1];
      Put(before, Route(op.key), Applied(op, At(before, Route(op.key))))
  }

  /** The same, seen by one key. */
  function KeyOneByOne(ops: seq<Op>, key: string, v: Option<Value>): Option<Value> {
    if ops == [] then v
    else
      var before := KeyOneByOne(ops[..|ops| - 1], key, v);
      if ops[|ops| - 1].key == key then Applied(ops[|ops| - 1], before) else before
  }

  lemma {:induction false} OneByOneAt(ops: seq<Op>, m: Omaps, s: Slot)
    requires AllRoutable(ops)
    ensures At(OneByOne(ops, m), s) ==
            if Routable(s.key) && s == Route(s.key) then KeyOneByOne(ops, s.key, At(m, s)) else At(m, s)
  {
    if ops != [] {
      var op := ops[|ops| - 1];
      OneByOneAt(ops[..|ops| - 1], m, s);
      if op.key == s.key { assert Routable(s.key); }
    }
  }

  // ----- batched -----

  /** What a transaction remembers about one key. */
  datatype Batch = Batch(set_: Option<Value>, unset: bool, inc: Option<int>)

  function Summed(a: Option<int>, d: int): Option<int> { Some(if a.Some? then a.value + d else d) }

  function Remembered(b: Batch, op: Op): Batch {
    match op
    case Set(_, v) => Batch(Some(v), false, b.inc)
    case Unset(_) => b.(unset := true)
    case Inc(_, d) => b.(inc := Summed(b.inc, d))
  }

  function Collected(ops: seq<Op>, key: string): Batch {
    if ops == [] then Batch(None, false, None)
    else
      var b := Collected(ops[..|ops| - 1], key);
      if ops[|ops| - 1].key == key then Remembered(b, ops[|ops| - 1]) else b
  }

  /** All sets, then all increments, then all unsets. */
  function Deployed(b: Batch, v: Option<Value>): Option<Value> {
    var set_ := if b.set_.Some? then b.set_ else v;
    var added := if b.inc.Some? then Added(set_, b.inc.value) else set_;
    if b.unset then None else added
  }

  ghost predicate SlotCommitted(ops: seq<Op>, m: Omaps, m': Omaps, s: Slot) {
    At(m', s) == if Routable(s.key) && s == Route(s.key) then Deployed(Collected(ops, s.key), At(m, s)) else At(m, s)
  }

  ghost predicate Committed(ops: seq<Op>, m: Omaps, m': Omaps) {
    forall s :: SlotCommitted(ops, m, m', s)
  }

  /** Private keys live in the private object, shared ones in the shared object, and other keys are not touched. */
  ghost predicate SidesCommitted(ops: seq<Op>, m: Omaps, m': Omaps, key: string) {
    var priv, shared := Slot(Private, key), Slot(Shared, key);
    && At(m', priv) == (if StartsWith(key, "priv/") then Deployed(Collected(ops, key), At(m, priv)) else At(m, priv))
    && At(m', shared) ==
       if StartsWith(key, "shared/") then Deployed(Collected(ops, key), At(m, shared)) else At(m, shared)
  }

  lemma OnOwnSide(ops: seq<Op>, m: Omaps, m': Omaps, key: string)
    requires Committed(ops, m, m')
    ensures SidesCommitted(ops, m, m', key)
  {
    assert SlotCommitted(ops, m, m', Slot(Private, key)) && SlotCommitted(ops, m, m', Slot(Shared, key));
    OneSide(key, "priv/", "shared/");
  }

  /** No key starts with both of two texts that begin differently. */
  lemma OneSide(key: string, a: string, b: string)
    requires a != "" && b != "" && a[0] != b[0]
    ensures !(StartsWith(key, a) && StartsWith(key, b))
  {
    assert StartsWith(key, a) ==> key[0] == a[0];
    assert StartsWith(key, b) ==> key[0] == b[0];
  }

  /** What a number, a missing value and a text that is no number become by one increment. */
  lemma IncrementOne(key: string, d: int, n: int, spelling: nat, text: string)
    ensures Deployed(Collected([Inc(key, d)], key), None) == Some(Numeral(d, 0))
    ensures Deployed(Collected([Inc(key, d)], key), Some(Numeral(n, spelling))) == Some(Numeral(n + d, 0))
    ensures Deployed(Collected([Inc(key, d)], key), Some(Opaque(text))) == Some(Opaque(text))
  {
    assert [Inc(key, d)][..0] == [];
  }

  // ----- when both agree -----

  /** The last set or unset of a key. */
  function LastWrite(ops: seq<Op>, key: string): (i: int)
    ensures -1 <= i < |ops|
    ensures i >= 0 ==> ops[i].key == key && !ops[i].Inc?
    ensures forall j :: i < j < |ops| ==> ops[j].key == key ==> ops[j].Inc?
  {
    if ops == [] then -1
    else if ops[|ops| - 1].key == key && !ops[|ops| - 1].Inc? then |ops| - 1
    else
      var i := LastWrite(ops[..|ops| - 1], key);
      assert forall j :: 0 <= j < |ops| - 1 ==> ops[j] == ops[..|ops| - 1][j];
      i
  }

  /** The sum of the increments of a key, if there are any. */
  function Incs(ops: seq<Op>, key: string): Option<int> {
    if ops == [] then None
    else
      var before := Incs(ops[..|ops| - 1], key);
      if ops[|ops| - 1].key == key && ops[|ops| - 1].Inc? then Summed(before, ops[|ops| - 1].diff) else before
  }

  /**
   * No increment follows a last unset; increments before a last set of a number cancel out, and unless one
   * follows the set, the number is spelled as the store would.
   */
  predicate Orderly(ops: seq<Op>, key: string) {
    var i := LastWrite(ops, key);
    i >= 0 ==>
      var before, after := Incs(ops[..i], key), Incs(ops[i + 1..], key);
      match ops[i]
      case Unset(_) => after.None?
      case Set(_, v) => v.Opaque? || before.None? || (before.value == 0 && (after.Some? || v.spelling == 0))
      case Inc(_, _) => true
  }

  function Plus(a: Option<int>, b: Option<int>): Option<int> {
    if b.None? then a else Summed(a, b.value)
  }

  function AddedIf(v: Option<Value>, d: Option<int>): Option<Value> { if d.Some? then Added(v, d.value) else v }

  predicate NoWrites(ops: seq<Op>, key: string) { forall i :: 0 <= i < |ops| && ops[i].key == key ==> ops[i].Inc? }

  /** Increments alone can be summed up. */
  lemma {:induction false} IncsOnly(ops: seq<Op>, key: string, v: Option<Value>)
    requires NoWrites(ops, key)
    ensures KeyOneByOne(ops, key, v) == AddedIf(v, Incs(ops, key))
  {
    if ops != [] { IncsOnly(ops[..|ops| - 1], key, v); }
  }

  lemma {:induction false} OneByOneSplits(a: seq<Op>, b: seq<Op>, key: string, v: Option<Value>)
    ensures KeyOneByOne(a + b, key, v) == KeyOneByOne(b, key, KeyOneByOne(a, key, v))
  {
    if b == [] {
      assert a + b == a;
    } else {
      assert (a + b)[..|a + b| - 1] == a + b[..|b| - 1];
      OneByOneSplits(a, b[..|b| - 1], key, v);
    }
  }

  /** After the last write only the sum still grows. */
  lemma {:induction false} CollectedSplits(a: seq<Op>, b: seq<Op>, key: string)
    requires NoWrites(b, key)
    ensures Collected(a + b, key) == Collected(a, key).(inc := Plus(Collected(a, key).inc, Incs(b, key)))
  {
    if b == [] {
      assert a + b == a;
    } else {
      assert (a + b)[..|a + b| - 1] == a + b[..|b| - 1];
      CollectedSplits(a, b[..|b| - 1], key);
    }
  }

  lemma {:induction false} CollectedIncs(ops: seq<Op>, key: string)
    ensures Collected(ops, key).inc == Incs(ops, key)
  {
    if ops != [] { CollectedIncs(ops[..|ops| - 1], key); }
  }

  lemma CollectedWrite(ops: seq<Op>, key: string, op: Op)
    requires op.key == key
    ensures Collected(ops + [op], key) == Remembered(Collected(ops, key), op)
    ensures forall v :: KeyOneByOne(ops + [op], key, v) == Applied(op, KeyOneByOne(ops, key, v))
  {
    assert (ops + [op])[..|ops|] == ops;
  }

  /** Without a set or unset of the key both ways agree. */
  lemma IncsAgree(ops: seq<Op>, key: string, v: Option<Value>)
    requires NoWrites(ops, key)
    ensures Deployed(Collected(ops, key), v) == KeyOneByOne(ops, key, v)
  {
    IncsOnly(ops, key, v);
    CollectedSplits([], ops, key);
    assert [] + ops == ops;
  }

  /** A last write `op` between the increments `b.inc` before it and `after` it; `x` is what the write finds. */
  lemma WriteAgreesIff(b: Batch, op: Op, after: Option<int>, v: Option<Value>, x: Option<Value>)
    requires !op.Inc?
    ensures var b' := Remembered(b, op);
            Deployed(b'.(inc := Plus(b'.inc, after)), v) == AddedIf(Applied(op, x), after) <==>
            if op.Unset? then after.None?
            else op.value.Opaque? || b.inc.None? || (b.inc.value == 0 && (after.Some? || op.value.spelling == 0))
  {
  }

  /** The two ways, split at the last write. */
  lemma SplitAtWrite(ops: seq<Op>, key: string, i: nat, v: Option<Value>) returns (x: Option<Value>)
    requires i < |ops| && ops[i].key == key && NoWrites(ops[i + 1..], key)
    ensures var b := Remembered(Collected(ops[..i], key), ops[i]);
            Collected(ops, key) == b.(inc := Plus(b.inc, Incs(ops[i + 1..], key)))
    ensures KeyOneByOne(ops, key, v) == AddedIf(Applied(ops[i], x), Incs(ops[i + 1..], key))
  {
    var pre, post := ops[..i], ops[i + 1..];
    assert ops == (pre + [ops[i]]) + post;
    x := KeyOneByOne(pre, key, v);
    OneByOneSplits(pre + [ops[i]], post, key, v);
    CollectedSplits(pre + [ops[i]], post, key);
    CollectedWrite(pre, key, ops[i]);
    IncsOnly(post, key, KeyOneByOne(pre + [ops[i]], key, v));
  }

  /** For every key and every stored value: the batch has the effect of the single operations iff they are orderly. */
  lemma KeyAgreesIff(ops: seq<Op>, key: string, v: Option<Value>)
    ensures Deployed(Collected(ops, key), v) == KeyOneByOne(ops, key, v) <==> Orderly(ops, key)
  {
    var i := LastWrite(ops, key);
    if i < 0 {
      IncsAgree(ops, key, v);
    } else {
      var x := SplitAtWrite(ops, key, i, v);
      CollectedIncs(ops[..i], key);
      WriteAgreesIff(Collected(ops[..i], key), ops[i], Incs(ops[i + 1..], key), v, x);
    }
  }

  /** A commit is the same as applying the operations one by one exactly when every key is used in an orderly way. */
  lemma CommitIsOneByOneIff(ops: seq<Op>, m: Omaps, m': Omaps)
    requires AllRoutable(ops) && Committed(ops, m, m')
    ensures m' == OneByOne(ops, m) <==> forall i :: 0 <= i < |ops| ==> Orderly(ops, ops[i].key)
  {
    var m'' := OneByOne(ops, m);
    if m' == m'' {
      forall i | 0 <= i < |ops|
        ensures Orderly(ops, ops[i].key)
      {
        SlotAgreesIff(ops, m, m', Route(ops[i].key));
      }
    } else {
      var s := Difference(m', m'');
      SlotAgreesIff(ops, m, m', s);
      UnusedOrderly(ops, s.key);
    }
  }

  lemma SlotAgreesIff(ops: seq<Op>, m: Omaps, m': Omaps, s: Slot)
    requires AllRoutable(ops) && Committed(ops, m, m')
    ensures At(m', s) == At(OneByOne(ops, m), s) <==> (Routable(s.key) && s == Route(s.key) ==> Orderly(ops, s.key))
  {
    assert SlotCommitted(ops, m, m', s);
    OneByOneAt(ops, m, s);
    KeyAgreesIff(ops, s.key, At(m, s));
  }

  lemma Difference(m: Omaps, m': Omaps) returns (s: Slot)
    requires m != m'
    ensures At(m, s) != At(m', s)
  {
    if m.Keys != m'.Keys {
      s :| (s in m.Keys) != (s in m'.Keys);
    } else {
      s :| s in m && m[s] != m'[s];
    }
  }

  lemma UnusedOrderly(ops: seq<Op>, key: string)
    ensures Orderly(ops, key) || exists i :: 0 <= i < |ops| && ops[i].key == key
  {
  }

  /** The simple rule for callers: nothing is added to a key before its last set or after its last unset. */
  lemma SimpleRule(ops: seq<Op>, key: string)
    requires var i := LastWrite(ops, key);
             i >= 0 ==>
               forall j :: 0 <= j < |ops| && ops[j].key == key && ops[j].Inc? ==> if ops[i].Set? then j > i else j < i
    ensures Orderly(ops, key)
  {
    var i := LastWrite(ops, key);
    if i >= 0 {
      if ops[i].Set? { NoIncs(ops[..i], key); } else { NoIncs(ops[i + 1..], key); }
    }
  }

  /** Such uses do differ: an increment before a set is added to the value set, and one after an unset is lost. */
  lemma DisorderlyUses(key: string, n: int, d: int, v: Option<Value>)
    requires d != 0
    ensures Deployed(Collected([Inc(key, d), Set(key, Numeral(n, 0))], key), v) == Some(Numeral(n + d, 0))
    ensures KeyOneByOne([Inc(key, d), Set(key, Numeral(n, 0))], key, v) == Some(Numeral(n, 0))
    ensures Deployed(Collected([Unset(key), Inc(key, d)], key), v) == None
    ensures KeyOneByOne([Unset(key), Inc(key, d)], key, v) == Some(Numeral(d, 0))
  {
    var a, b, c := Inc(key, d), Set(key, Numeral(n, 0)), Unset(key);
    assert [] + [a] == [a] && [a] + [b] == [a, b] && [] + [c] == [c] && [c] + [a] == [c, a];
    CollectedWrite([], key, a);
    CollectedWrite([a], key, b);
    CollectedWrite([], key, c);
    CollectedWrite([c], key, a);
  }

  lemma {:induction false} NoIncs(ops: seq<Op>, key: string)
    requires forall j :: 0 <= j < |ops| && ops[j].key == key ==> !ops[j].Inc?
    ensures Incs(ops, key) == None
  {
    if ops != [] { NoIncs(ops[..|ops| - 1], key); }
  }

  // ----- the transaction context -----

  /** The two dictionary objects. */
  class Store {
    var omaps: Omaps
    constructor () ensures omaps == map[] { omaps := map[]; }
  }

  predicate Agrees(sets: map<string, Value>, unsets: set<string>, incs: map<string, int>, key: string, b: Batch) {
    && b.set_ == (if key in sets then Some(sets[key]) else None)
    && b.unset == (key in unsets)
    && b.inc == (if key in incs then Some(incs[key]) else None)
  }

  class Transaction {
    var setMap: map<string, Value>
    var unsetSet: set<string>
    var incMap: map<string, int>
    var incNotFound: bool
    ghost var ops: seq<Op>

    ghost predicate Valid()
      reads this
    {
      !incNotFound && forall k :: Agrees(setMap, unsetSet, incMap, k, Collected(ops, k))
    }

    constructor ()
      ensures Valid() && ops == []
    {
      setMap, unsetSet, incMap, incNotFound, ops := map[], {}, map[], false, [];
    }

    method AddSet(key: string, value: Value)
      requires Valid()
      modifies this
      ensures Valid() && ops == old(ops) + [Set(key, value)]
    {
      if key in unsetSet { unsetSet := unsetSet - {key}; }
      setMap := setMap[key := value];
      ops := ops + [Set(key, value)];
      assert ops[..|ops| - 1] == old(ops);
    }

    method AddUnset(key: string)
      requires Valid()
      modifies this
      ensures Valid() && ops == old(ops) + [Unset(key)]
    {
      unsetSet := unsetSet + {key};
      ops := ops + [Unset(key)];
      assert ops[..|ops| - 1] == old(ops);
    }

    method AddInc(key: string, diff: int)
      requires Valid()
      modifies this
      ensures Valid() && ops == old(ops) + [Inc(key, diff)]
    {
      var sum := if key in incMap then diff + incMap[key] else diff;
      incMap := incMap[key := sum];
      ops := ops + [Inc(key, diff)];
      assert ops[..|ops| - 1] == old(ops);
    }

    method DeploySets(store: Store)
      requires Valid() && forall k :: k in setMap ==> Routable(k)
      modifies this`setMap, store
      ensures setMap == map[]
      ensures forall s :: At(store.omaps, s) == if Routable(s.key) && s == Route(s.key) && s.key in old(setMap)
                                                then Some(old(setMap)[s.key]) else At(old(store.omaps), s)
    {
      var todo := setMap.Keys;
      while todo != {}
        invariant setMap == old(setMap) && todo <= setMap.Keys
        invariant forall s :: At(store.omaps, s) == if Routable(s.key) && s == Route(s.key)
                    && s.key in setMap.Keys - todo
                                                    then Some(setMap[s.key]) else At(old(store.omaps), s)
      {
        var key :| key in todo;
        store.omaps := Put(store.omaps, Route(key), Some(setMap[key]));
        todo := todo - {key};
      }
      setMap := map[];
    }

    method DeployIncs(store: Store)
      requires !incNotFound && forall k :: k in incMap ==> Routable(k)
      modifies this`incMap, store
      ensures incMap == map[]
      ensures forall s :: At(store.omaps, s) == if Routable(s.key) && s == Route(s.key) && s.key in old(incMap)
                                                then Added(At(old(store.omaps), s), old(incMap)[s.key])
                                                else At(old(store.omaps), s)
    {
      var todo := incMap.Keys;
      while todo != {} && !incNotFound
        invariant incMap == old(incMap) && todo <= incMap.Keys
        invariant forall s :: At(store.omaps, s) == if Routable(s.key) && s == Route(s.key)
                    && s.key in incMap.Keys - todo
                                                    then Added(At(old(store.omaps), s), incMap[s.key])
                                                    else At(old(store.omaps), s)
      {
        var key :| key in todo;
        store.omaps := Put(store.omaps, Route(key), Added(At(store.omaps, Route(key)), incMap[key]));
        todo := todo - {key};
      }
      incMap := map[];
    }

    method DeployUnsets(store: Store)
      requires forall k :: k in unsetSet ==> Routable(k)
      modifies this`unsetSet, store
      ensures unsetSet == {}
      ensures forall s :: At(store.omaps, s) == if Routable(s.key) && s == Route(s.key) && s.key in old(unsetSet)
                                                then None else At(old(store.omaps), s)
    {
      var todo := unsetSet;
      while todo != {}
        invariant unsetSet == old(unsetSet) && todo <= unsetSet
        invariant forall s :: At(store.omaps, s) == if Routable(s.key) && s == Route(s.key) && s.key in unsetSet - todo
                                                    then None else At(old(store.omaps), s)
      {
        var key :| key in todo;
        store.omaps := Put(store.omaps, Route(key), None);
        todo := todo - {key};
      }
      unsetSet := {};
    }

    /** `rados_dict_transaction_commit`: always answers OK. */
    method Commit(store: Store) returns (ret: int)
      requires Valid() && AllRoutable(ops)
      modifies this, store
      ensures Committed(ops, old(store.omaps), store.omaps) && ops == old(ops)
      ensures forall key :: SidesCommitted(ops, old(store.omaps), store.omaps, key)
      ensures ret == 1
    {
      forall k ensures k in setMap || k in unsetSet || k in incMap ==> Routable(k) { UsedRoutable(ops, k); }
      DeploySets(store);
      DeployIncs(store);
      DeployUnsets(store);
      forall s ensures SlotCommitted(ops, old(store.omaps), store.omaps, s) {
        assert Agrees(old(setMap), old(unsetSet), old(incMap), s.key, Collected(ops, s.key));
      }
      forall key ensures SidesCommitted(ops, old(store.omaps), store.omaps, key) {
        OnOwnSide(ops, old(store.omaps), store.omaps, key);
      }
      ret := if incNotFound then 0 else 1;
    }

    /** `rados_dict_transaction_rollback`: the store has not been touched. */
    method Rollback(store: Store)
      requires Valid()
      modifies this
      ensures Valid() && ops == [] && store.omaps == old(store.omaps)
    {
      setMap, unsetSet, incMap, ops := map[], {}, map[], [];
    }
  }

  lemma {:induction false} UsedRoutable(ops: seq<Op>, key: string)
    requires AllRoutable(ops)
    ensures Collected(ops, key) == Batch(None, false, None) || Routable(key)
  {
    if ops != [] {
      UsedRoutable(ops[..|ops| - 1], key);
      assert Routable(ops[|ops| - 1].key);
    }
  }
}
