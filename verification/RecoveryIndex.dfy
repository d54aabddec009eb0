/** The recovery index: one text object per namespace that lists the saved oids, each followed by a comma. */
module RecoveryIndex {
  import opened Rados
  import opened Text

  /** What the format can carry: oids are hexadecimal GUIDs, so all of them qualify. */
  predicate Indexable(oid: Oid) {
    oid != "" && ',' !in oid && NUL !in oid
  }

  /** The set a text stands for. */
  function OidSet(text: string): set<Oid> {
    set t | t in Tokens(CStr(text), ',') && t != ""
  }

  function Line(oid: Oid): string { oid + "," }

  function Lines(oids: seq<Oid>): string {
    if oids == [] then "" else Line(oids[0]) + Lines(oids[1..])
  }

  /** A text all of whose items are complete. */
  predicate WellFormed(text: string) {
    NUL !in text && Closed(text, ',')
  }

  /** Appending well-formed text adds exactly its oids. */
  lemma AppendAdds(text: string, more: string)
    requires WellFormed(text) && WellFormed(more)
    ensures WellFormed(text + more)
    ensures OidSet(text + more) == OidSet(text) + OidSet(more)
  {
    TokensAppend(text, more, ',');
  }

  lemma LineIsOid(oid: Oid)
    requires Indexable(oid)
    ensures WellFormed(Line(oid)) && OidSet(Line(oid)) == {oid}
  {
    assert Line(oid) == oid + "," + "";
    TokensCons(oid, ',', "");
    assert Tokens("", ',') == [];
  }

  lemma {:induction false} LinesAreOids(oids: seq<Oid>)
    requires forall o :: o in oids ==> Indexable(o)
    ensures WellFormed(Lines(oids))
    ensures OidSet(Lines(oids)) == set o | o in oids
  {
    if oids != [] {
      LineIsOid(oids[0]);
      LinesAreOids(oids[1..]);
      AppendAdds(Line(oids[0]), Lines(oids[1..]));
      SetOfCons(oids);
    }
  }

  lemma SetOfCons(oids: seq<Oid>)
    requires oids != []
    ensures (set o | o in oids) == {oids[0]} + (set o | o in oids[1..])
  {
    assert forall o :: o in oids <==> o == oids[0] || o in oids[1..];
  }

  /** One appended oid reads back as itself exactly when the format can carry it. */
  lemma LineRoundTrip(oid: Oid)
    ensures OidSet(Line(oid)) == {oid} <==> Indexable(oid)
  {
    if Indexable(oid) {
      LineIsOid(oid);
    } else if OidSet(Line(oid)) == {oid} {
      assert oid in OidSet(Line(oid));
      TokensAvoid(CStr(Line(oid)), ',', NUL);
      TokensAvoid(CStr(Line(oid)), ',', ',');
      assert false;
    }
  }

  /** The operations on the index object; a set is listed in its iteration order. */
  datatype IndexOp = Add(oid: Oid) | AddAll(oids: seq<Oid>) | Overwrite(oids: seq<Oid>) | Delete

  predicate Carried(op: IndexOp) {
    match op
    case Add(oid) => Indexable(oid)
    case AddAll(oids) => forall o :: o in oids ==> Indexable(o)
    case Overwrite(oids) => forall o :: o in oids ==> Indexable(o)
    case Delete => true
  }

  function ApplyText(text: string, op: IndexOp): string {
    match op
    case Add(oid) => text + Line(oid)
    case AddAll(oids) => text + Lines(oids)
    case Overwrite(oids) => Lines(oids)
    case Delete => ""
  }

  function ApplySet(s: set<Oid>, op: IndexOp): set<Oid> {
    match op
    case Add(oid) => s + {oid}
    case AddAll(oids) => s + (set o | o in oids)
    case Overwrite(oids) => set o | o in oids
    case Delete => {}
  }

  function RunText(ops: seq<IndexOp>): string {
    if ops == [] then "" else ApplyText(RunText(ops[..|ops| - 1]), ops[|ops| - 1])
  }

  function RunSet(ops: seq<IndexOp>): set<Oid> {
    if ops == [] then {} else ApplySet(RunSet(ops[..|ops| - 1]), ops[|ops| - 1])
  }

  /** Over every run the text stands for the oids added since the last overwrite or delete. */
  lemma {:induction false} TextRefinesSet(ops: seq<IndexOp>)
    requires forall op :: op in ops ==> Carried(op)
    ensures WellFormed(RunText(ops))
    ensures OidSet(RunText(ops)) == RunSet(ops)
  {
    if ops != [] {
      var front, op := ops[..|ops| - 1], ops[|ops| - 1];
      TextRefinesSet(front);
      assert Carried(op);
      match op {
        case Add(oid) => LineIsOid(oid); AppendAdds(RunText(front), Line(oid));
        case AddAll(oids) => LinesAreOids(oids); AppendAdds(RunText(front), Lines(oids));
        case Overwrite(oids) => LinesAreOids(oids);
        case Delete =>
      }
    }
  }

  /** `ceph_index_to_set`: a loop that runs while the stream is good and drops empty items. */
  method IndexToSet(str: string) returns (index: set<Oid>)
    ensures index == set t | t in Tokens(str, ',') && t != ""
  {
    index := {};
    var rest, good := str, true;
    while good
      invariant index + (set t | t in Tokens(rest, ',') && t != "") == set t | t in Tokens(str, ',') && t != ""
      invariant !good ==> rest == ""
      decreases good, |rest|
    {
      var i := Find(rest, ',');
      var item := rest[..i];
      good := i < |rest|;
      if item != "" { index := index + {item}; }
      rest := if good then rest[i + 1..] else "";
    }
  }

  /** `convert_to_ceph_index` for a set, in whatever order the set is listed. */
  method ConvertSet(oids: set<Oid>) returns (text: string)
    requires forall o :: o in oids ==> Indexable(o)
    ensures WellFormed(text) && OidSet(text) == oids
  {
    text := "";
    var todo := oids;
    while todo != {}
      invariant todo <= oids && WellFormed(text) && OidSet(text) == oids - todo
    {
      var o :| o in todo;
      LineIsOid(o);
      AppendAdds(text, Line(o));
      text := text + Line(o);
      todo := todo - {o};
    }
  }

  /** The index object in the recovery pool; `None` before the first write and after a delete. */
  class Index {
    var content: Option<string>
    ghost var added: set<Oid>

    ghost predicate Valid()
      reads this
    {
      var text := if content.Some? then content.value else "";
      WellFormed(text) && OidSet(text) == added
    }

    constructor ()
      ensures Valid() && added == {}
    {
      content, added := None, {};
    }

    method Append(oid: Oid)
      requires Valid() && Indexable(oid)
      modifies this
      ensures Valid() && added == old(added) + {oid}
    {
      var text := if content.Some? then content.value else "";
      LineIsOid(oid);
      AppendAdds(text, Line(oid));
      content, added := Some(text + Line(oid)), added + {oid};
    }

    method AppendSet(oids: set<Oid>)
      requires Valid() && forall o :: o in oids ==> Indexable(o)
      modifies this
      ensures Valid() && added == old(added) + oids
    {
      var text := if content.Some? then content.value else "";
      var more := ConvertSet(oids);
      AppendAdds(text, more);
      content, added := Some(text + more), added + oids;
    }

    method Overwrite(oids: set<Oid>)
      requires Valid() && forall o :: o in oids ==> Indexable(o)
      modifies this
      ensures Valid() && added == oids
    {
      var text := ConvertSet(oids);
      content, added := Some(text), oids;
    }

    method Delete()
      requires Valid()
      modifies this
      ensures Valid() && added == {}
    {
      content, added := None, {};
    }

    /** A missing or empty object reads as the empty set. */
    method Read() returns (index: set<Oid>)
      requires Valid()
      ensures index == added
    {
      if content.None? || content.value == "" { return {}; }
      index := IndexToSet(CStr(content.value));
    }
  }
}
