/** Commits and iterations of the dictionary together: what was written is what is read back, on the right side. */
module DictLaws {
  import opened Rados
  import opened DictTransaction
  import opened DictIterate

  /** `es` lists the entries of one of the two objects, with their stored texts. */
  ghost predicate Lists(es: seq<Entry>, m: Omaps, side: DictTransaction.Side, text: Value -> string) {
    forall e :: e in es <==> Slot(side, e.key) in m && e.value == text(m[Slot(side, e.key)])
  }

  /** A private key is asked for by private paths only, a shared key by shared ones. */
  lemma NotWanted(key: string, paths: seq<string>, mine: string, other: string, flags: Flags)
    requires StartsWith(key, mine) && mine != "" && other != "" && mine[0] != other[0]
    requires forall p :: p in paths ==> StartsWith(p, other)
    ensures !exists i :: 0 <= i < |paths| && Wanted(key, paths[i], flags)
  {
    OneSide(key, mine, other);
    OnlyRoutable(key, paths, other, flags);
  }

  lemma OnlyRoutable(key: string, paths: seq<string>, prefix: string, flags: Flags)
    requires (forall p :: p in paths ==> StartsWith(p, prefix)) && !StartsWith(key, prefix)
    ensures !exists i :: 0 <= i < |paths| && Wanted(key, paths[i], flags)
  {
    forall i | 0 <= i < |paths|
      ensures !Wanted(key, paths[i], flags)
    {
      assert paths[i] in paths;
      Prefixes(key, paths[i], prefix);
    }
  }

  lemma Prefixes(key: string, path: string, prefix: string)
    requires StartsWith(path, prefix)
    ensures StartsWith(key, path) ==> StartsWith(key, prefix)
  {
    assert |path| <= |key| ==> key[..|path|][..|prefix|] == key[..|prefix|];
  }

  /** One of the paths asks for the key. */
  predicate AskedFor(key: string, privatePaths: seq<string>, sharedPaths: seq<string>, flags: Flags) {
    || (exists i :: 0 <= i < |privatePaths| && Wanted(key, privatePaths[i], flags))
    || (exists i :: 0 <= i < |sharedPaths| && Wanted(key, sharedPaths[i], flags))
  }

  ghost predicate PathsOk(privatePaths: seq<string>, sharedPaths: seq<string>) {
    && (forall p :: p in privatePaths ==> StartsWith(p, "priv/"))
    && (forall p :: p in sharedPaths ==> StartsWith(p, "shared/"))
  }

  /** An iteration answers from the private object for private keys and from the shared one for shared keys. */
  lemma AnswerIff(m: Omaps, priv: seq<Entry>, shared: seq<Entry>, text: Value -> string, privatePaths: seq<string>,
                  sharedPaths: seq<string>, flags: Flags, e: Entry)
    requires Lists(priv, m, Private, text) && Lists(shared, m, Shared, text) && PathsOk(privatePaths, sharedPaths)
    ensures e in Answer(priv, shared, privatePaths, sharedPaths, flags) <==>
              && AskedFor(e.key, privatePaths, sharedPaths, flags)
              && var s := Slot(if StartsWith(e.key, "priv/") then Private else Shared, e.key);
                s in m && e.value == text(m[s])
  {
    SideIff(priv, privatePaths, flags, e);
    SideIff(shared, sharedPaths, flags, e);
    if StartsWith(e.key, "priv/") {
      NotWanted(e.key, sharedPaths, "priv/", "shared/", flags);
    } else {
      OnlyRoutable(e.key, privatePaths, "priv/", flags);
    }
  }

  /**
   After a commit whose operations on a key are orderly, an iteration shows for that key exactly the text that the
   operations one by one leave in the object of its side, if one of its paths asks for the key, and nothing else.
   */
  lemma IterationShowsCommit(ops: seq<Op>, m: Omaps, m': Omaps, priv: seq<Entry>, shared: seq<Entry>,
                             text: Value -> string, privatePaths: seq<string>, sharedPaths: seq<string>, flags: Flags,
                             e: Entry)
    requires Committed(ops, m, m') && Orderly(ops, e.key)
    requires Lists(priv, m', Private, text) && Lists(shared, m', Shared, text) && PathsOk(privatePaths, sharedPaths)
    ensures e in Answer(priv, shared, privatePaths, sharedPaths, flags) <==>
              && AskedFor(e.key, privatePaths, sharedPaths, flags)
              && var s := Slot(if StartsWith(e.key, "priv/") then Private else Shared, e.key);
                var v := KeyOneByOne(ops, e.key, At(m, s));
                v.Some? && e.value == text(v.value)
  {
    AnswerIff(m', priv, shared, text, privatePaths, sharedPaths, flags, e);
    if AskedFor(e.key, privatePaths, sharedPaths, flags) {
      var s := Slot(if StartsWith(e.key, "priv/") then Private else Shared, e.key);
      if !StartsWith(e.key, "priv/") { OnlyRoutable(e.key, privatePaths, "priv/", flags); }
      if !StartsWith(e.key, "shared/") { OnlyRoutable(e.key, sharedPaths, "shared/", flags); }
      OnOwnSide(ops, m, m', e.key);
      KeyAgreesIff(ops, e.key, At(m, s));
    }
  }

  /** The last set of a key, with no increment before it and nothing after it, is what an iteration shows. */
  lemma SetIsShown(ops: seq<Op>, m: Omaps, m': Omaps, priv: seq<Entry>, shared: seq<Entry>, text: Value -> string,
                   privatePaths: seq<string>, sharedPaths: seq<string>, flags: Flags, i: nat)
    requires Committed(ops, m, m') && i < |ops| && ops[i].Set?
    requires forall j :: 0 <= j < |ops| && ops[j].key == ops[i].key && j != i ==> j < i && !ops[j].Inc?
    requires Lists(priv, m', Private, text) && Lists(shared, m', Shared, text) && PathsOk(privatePaths, sharedPaths)
    requires AskedFor(ops[i].key, privatePaths, sharedPaths, flags)
    ensures Entry(ops[i].key, text(ops[i].value)) in Answer(priv, shared, privatePaths, sharedPaths, flags)
  {
    var key := ops[i].key;
    var s := Slot(if StartsWith(key, "priv/") then Private else Shared, key);
    assert LastWrite(ops, key) == i;
    SimpleRule(ops, key);
    var x := SplitAtWrite(ops, key, i, At(m, s));
    NoIncs(ops[i + 1..], key);
    IterationShowsCommit(ops, m, m', priv, shared, text, privatePaths, sharedPaths, flags,
                         Entry(key, text(ops[i].value)));
  }
}
