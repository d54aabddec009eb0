/** The forced rebuild of all mailbox indexes from the mail objects of the namespace. */
module Rebuild {
  import opened Rados
  import opened Text
  import opened RecoveryIndex
  import RebuildCount

  type Attrs = map<char, string>

  const MAILBOX_GUID: char := 'M'
  const MAIL_GUID: char := 'G'
  const MAIL_UID: char := 'U'
  const RECEIVED_TIME: char := 'R'
  const PHYSICAL_SIZE: char := 'Z'
  const VIRTUAL_SIZE: char := 'V'
  const FLAGS: char := 'F'
  const PVT_FLAGS: char := 'C'

  // ----- metadata -----

  predicate IsNumeric(s: string) {
    forall i :: 0 <= i < |s| ==> '0' <= s[i] <= '9'
  }

  predicate Numeric(a: Attrs, k: char) { k in a && IsNumeric(a[k]) }

  predicate NumericOptional(a: Attrs, k: char) { k in a ==> IsNumeric(a[k]) }

  /** `validate_metadata` */
  predicate Validate(a: Attrs) {
    && Numeric(a, MAIL_UID) && Numeric(a, RECEIVED_TIME) && Numeric(a, PHYSICAL_SIZE) && Numeric(a, VIRTUAL_SIZE)
    && NumericOptional(a, FLAGS) && NumericOptional(a, PVT_FLAGS)
    && MAILBOX_GUID in a && MAIL_GUID in a
  }

  predicate Digits(s: string) { forall c :: c in s ==> c in "0123456789" }

  /** The attributes a mail must have, by their letters, and which of them must be numbers. */
  lemma ValidateIff(a: Attrs)
    ensures Validate(a) <==>
              && {'U', 'R', 'Z', 'V', 'M', 'G'} <= a.Keys
              && forall k :: k in a && k in {'U', 'R', 'Z', 'V', 'F', 'C'} ==> Digits(a[k])
  {
    forall k | k in a
      ensures IsNumeric(a[k]) <==> Digits(a[k])
    {
      NumericIff(a[k]);
    }
  }

  lemma NumericIff(s: string)
    ensures IsNumeric(s) <==> Digits(s)
  {
    var d := "0123456789";
    assert d[0] == '0' && d[1] == '1' && d[2] == '2' && d[3] == '3' && d[4] == '4';
    assert d[5] == '5' && d[6] == '6' && d[7] == '7' && d[8] == '8' && d[9] == '9';
    assert forall c :: '0' <= c <= '9' <==> c in d;
    if Digits(s) {
      forall i | 0 <= i < |s| ensures '0' <= s[i] <= '9' { assert s[i] in s; }
    }
  }

  function Digit(n: nat): char
    requires n < 10
  {
    (n as char) + '0'
  }

  /** `std::to_string` of a UID. */
  function Decimal(n: nat): (s: string)
    ensures s != "" && IsNumeric(s)
  {
    if n < 10 then [Digit(n)] else Decimal(n / 10) + [Digit(n % 10)]
  }

  /** What `stoi` reads back. */
  function Value(s: string): nat
    requires IsNumeric(s)
  {
    if s == "" then 0 else Value(s[..|s| - 1]) * 10 + (s[|s| - 1] - '0') as nat
  }

  lemma {:induction false} DecimalRoundTrip(n: nat)
    ensures Value(Decimal(n)) == n
  {
    if n >= 10 {
      DecimalRoundTrip(n / 10);
      var s := Decimal(n);
      assert s[..|s| - 1] == Decimal(n / 10);
    } else {
      assert Decimal(n)[..0] == "";
    }
  }

  /** The digits are in the usual order. */
  lemma DecimalExample()
    ensures Decimal(105) == "105" && Value("105") == 105
  {
    assert Decimal(1) == "1" && Decimal(10) == "10";
    DecimalRoundTrip(105);
  }

  // ----- entities -----

  datatype Entry = Entry(uid: nat, oid: Oid)

  datatype MailIndex = MailIndex(entries: seq<Entry>, nextUid: nat, uidValidity: nat, rebuildCount: RebuildCount.Count)

  /** A loaded mail object, with the flags of this pass. */
  datatype Mail = Mail(oid: Oid, attrs: Attrs, restored: bool, lost: bool)

  type Groups = map<BoxId, seq<Mail>>

  /** A mailbox as the namespace iteration meets it. */
  datatype Box = Box(name: string, guid: BoxId, selectable: bool, isVirtual: bool, foreign: bool, opens: bool)

  // ----- grouping -----

  predicate Holds(ms: seq<Mail>, oid: Oid) {
    exists i :: 0 <= i < |ms| && ms[i].oid == oid
  }

  ghost predicate GroupOk(objects: map<Oid, Attrs>, g: BoxId, ms: seq<Mail>) {
    && (forall i :: 0 <= i < |ms| ==>
          && ms[i].oid in objects && ms[i].attrs == objects[ms[i].oid]
          && Validate(ms[i].attrs) && ms[i].attrs[MAILBOX_GUID] == g)
    && (forall i, j :: 0 <= i < j < |ms| ==> ms[i].oid != ms[j].oid)
  }

  /** `mails` is a partition of the valid objects among `oids` by their mailbox GUID. */
  ghost predicate Grouped(objects: map<Oid, Attrs>, oids: set<Oid>, mails: Groups) {
    && (forall g :: g in mails ==> mails[g] != [] && GroupOk(objects, g, mails[g]))
    && (forall g, i :: g in mails && 0 <= i < |mails[g]| ==> mails[g][i].oid in oids)
    && (forall o :: o in oids && o in objects && Validate(objects[o]) ==>
          objects[o][MAILBOX_GUID] in mails && Holds(mails[objects[o][MAILBOX_GUID]], o))
  }

  ghost predicate NoneRestored(ms: seq<Mail>) {
    forall i :: 0 <= i < |ms| ==> !ms[i].restored
  }

  /** `load_rados_mail_metadata`: objects that are gone or whose metadata is not valid are skipped. */
  method LoadMetadata(objects: map<Oid, Attrs>, list: set<Oid>) returns (mails: Groups)
    ensures Grouped(objects, list, mails)
    ensures forall g :: g in mails ==> NoneRestored(mails[g])
  {
    mails := map[];
    var todo := list;
    while todo != {}
      invariant todo <= list
      invariant Grouped(objects, list - todo, mails)
      invariant forall g :: g in mails ==> NoneRestored(mails[g])
    {
      var oid :| oid in todo;
      if oid in objects && Validate(objects[oid]) {
        var g := objects[oid][MAILBOX_GUID];
        var m := Mail(oid, objects[oid], false, false);
        var before := if g in mails then mails[g] else [];
        AddToGroup(objects, list - todo, mails, g, m);
        mails := mails[g := before + [m]];
      }
      SkipInvalid(objects, list - todo, mails, oid);
      assert list - (todo - {oid}) == (list - todo) + {oid};
      todo := todo - {oid};
    }
    assert list - todo == list;
  }

  lemma GroupGrows(objects: map<Oid, Attrs>, g: BoxId, ms: seq<Mail>, m: Mail)
    requires GroupOk(objects, g, ms) && GroupOk(objects, g, [m]) && !Holds(ms, m.oid)
    ensures GroupOk(objects, g, ms + [m])
    ensures forall o :: Holds(ms + [m], o) <==> Holds(ms, o) || o == m.oid
  {
    assert [m][0] == m;
    forall o
      ensures Holds(ms + [m], o) <==> Holds(ms, o) || o == m.oid
    {
      if Holds(ms, o) {
        var i :| 0 <= i < |ms| && ms[i].oid == o;
        assert (ms + [m])[i].oid == o;
      }
      if o == m.oid { assert (ms + [m])[|ms|].oid == o; }
    }
  }

  lemma AddToGroup(objects: map<Oid, Attrs>, oids: set<Oid>, mails: Groups, g: BoxId, m: Mail)
    requires Grouped(objects, oids, mails) && m.oid !in oids && m.oid in objects && m.attrs == objects[m.oid]
    requires Validate(m.attrs) && m.attrs[MAILBOX_GUID] == g
    ensures var before := if g in mails then mails[g] else [];
            Grouped(objects, oids + {m.oid}, mails[g := before + [m]])
  {
    var before := if g in mails then mails[g] else [];
    GroupGrows(objects, g, before, m);
  }

  lemma SkipInvalid(objects: map<Oid, Attrs>, oids: set<Oid>, mails: Groups, oid: Oid)
    requires Grouped(objects, oids, mails) || Grouped(objects, oids + {oid}, mails)
    requires oid in objects && Validate(objects[oid]) ==> Grouped(objects, oids + {oid}, mails)
    ensures Grouped(objects, oids + {oid}, mails)
  {
  }

  // ----- one mailbox -----

  predicate Converts(conv: (Oid, string) -> bool, m: Mail) {
    MAIL_GUID in m.attrs && conv(m.oid, m.attrs[MAIL_GUID])
  }

  /** The oids still to be added, in list order. */
  function Todo(ms: seq<Mail>): (r: seq<Oid>)
    ensures forall o :: o in r ==> Holds(ms, o)
  {
    if ms == [] then []
    else
      var n := |ms| - 1;
      assert forall o :: Holds(ms[..n], o) ==> Holds(ms, o) by {
        forall o | Holds(ms[..n], o) ensures Holds(ms, o) {
          var i :| 0 <= i < n && ms[..n][i].oid == o;
          assert ms[i].oid == o;
        }
      }
      Todo(ms[..n]) + (if ms[n].restored then [] else [ms[n].oid])
  }

  function Numbered(first: nat, oids: seq<Oid>): seq<Entry> {
    seq(|oids|, i requires 0 <= i < |oids| => Entry(first + i, oids[i]))
  }

  /** The first `n` mails of the list are marked as restored. */
  ghost predicate Flagged(ms: seq<Mail>, ms': seq<Mail>, n: nat) {
    && |ms'| == |ms| && n <= |ms|
    && (forall i :: 0 <= i < n ==> ms'[i] == ms[i].(restored := true))
    && (forall i :: n <= i < |ms| ==> ms'[i] == ms[i])
  }

  predicate Named(es: seq<Entry>, o: Oid) {
    exists i :: 0 <= i < |es| && es[i].oid == o
  }

  /** The U attributes of the objects in `es` are the UIDs given there, and nothing else changed. */
  ghost predicate UidsSet(objects: map<Oid, Attrs>, objects': map<Oid, Attrs>, es: seq<Entry>) {
    && objects'.Keys == objects.Keys
    && (forall i :: 0 <= i < |es| ==>
        es[i].oid in objects && objects'[es[i].oid] == objects[es[i].oid][MAIL_UID := Decimal(es[i].uid)])
    && (forall o :: o in objects && !Named(es, o) ==> objects'[o] == objects[o])
  }

  lemma OneMoreUid(objects: map<Oid, Attrs>, now: map<Oid, Attrs>, es: seq<Entry>, e: Entry)
    requires UidsSet(objects, now, es) && e.oid in objects && !Named(es, e.oid)
    ensures UidsSet(objects, now[e.oid := now[e.oid][MAIL_UID := Decimal(e.uid)]], es + [e])
  {
    var now', es' := now[e.oid := now[e.oid][MAIL_UID := Decimal(e.uid)]], es + [e];
    assert forall i :: 0 <= i < |es| ==> es'[i] == es[i] && es[i].oid != e.oid;
    forall o | o in objects && !Named(es', o)
      ensures now'[o] == objects[o]
    {
      assert es'[|es|].oid != o;
      assert forall i :: 0 <= i < |es| ==> es'[i].oid != o;
    }
  }

  lemma NumberedStep(first: nat, oids: seq<Oid>, oid: Oid)
    ensures Numbered(first, oids + [oid]) == Numbered(first, oids) + [Entry(first + |oids|, oid)]
  {
  }

  lemma TodoStep(ms: seq<Mail>, i: nat)
    requires i < |ms|
    ensures Todo(ms[..i + 1]) == Todo(ms[..i]) + (if ms[i].restored then [] else [ms[i].oid])
  {
    assert ms[..i + 1][..i] == ms[..i];
  }

  /** The state of the loop over one mailbox after `i` mails. */
  ghost predicate EntrySoFar(objects: map<Oid, Attrs>, now: map<Oid, Attrs>, ms: seq<Mail>, ms': seq<Mail>,
                             first: nat, entries: seq<Entry>, i: nat)
  {
    && i <= |ms| && Flagged(ms, ms', i)
    && entries == Numbered(first, Todo(ms[..i]))
    && UidsSet(objects, now, entries)
  }

  lemma EntrySkips(objects: map<Oid, Attrs>, now: map<Oid, Attrs>, ms: seq<Mail>, ms': seq<Mail>,
                   first: nat, entries: seq<Entry>, i: nat)
    requires EntrySoFar(objects, now, ms, ms', first, entries, i) && i < |ms| && ms[i].restored
    ensures EntrySoFar(objects, now, ms, ms', first, entries, i + 1)
  {
    TodoStep(ms, i);
  }

  lemma EntryAdds(objects: map<Oid, Attrs>, now: map<Oid, Attrs>, ms: seq<Mail>, ms': seq<Mail>,
                  first: nat, entries: seq<Entry>, i: nat)
    requires EntrySoFar(objects, now, ms, ms', first, entries, i) && i < |ms| && !ms[i].restored && ms[i].oid in objects
    requires forall k, j :: 0 <= k < j < |ms| ==> ms[k].oid != ms[j].oid
    ensures var e := Entry(first + |entries|, ms[i].oid);
            EntrySoFar(objects, now[e.oid := now[e.oid][MAIL_UID := Decimal(e.uid)]], ms,
                ms'[i := ms[i].(restored := true)],
                       first, entries + [e], i + 1)
  {
    TodoStep(ms, i);
    Unnamed(ms, i, first);
    OneMoreUid(objects, now, entries, Entry(first + |entries|, ms[i].oid));
    NumberedStep(first, Todo(ms[..i]), ms[i].oid);
  }

  lemma Unnamed(ms: seq<Mail>, i: nat, first: nat)
    requires i < |ms| && forall k, j :: 0 <= k < j < |ms| ==> ms[k].oid != ms[j].oid
    ensures !Named(Numbered(first, Todo(ms[..i])), ms[i].oid)
  {
    assert forall j :: 0 <= j < i ==> ms[..i][j].oid != ms[i].oid;
    assert ms[i].oid !in Todo(ms[..i]);
    assert forall k :: 0 <= k < |Todo(ms[..i])| ==> Todo(ms[..i])[k] in Todo(ms[..i]);
  }

  // ----- one pass -----

  /** What a pass starts from: the stores, the text of the recovery index, the valid objects its search finds, and
      the groups it loads. */
  datatype Pass = Pass(objects: map<Oid, Attrs>, indexes: map<BoxId, MailIndex>, text: string, valid: set<Oid>,
                       mails: Groups)

  /** The objects with valid metadata among those a search has listed. */
  function Mails(objects: map<Oid, Attrs>, list: set<Oid>): set<Oid> {
    set o | o in list && o in objects && Validate(objects[o])
  }

  ghost predicate ValidIn(objects: map<Oid, Attrs>, valid: set<Oid>) {
    forall o :: o in valid ==> o in objects && Validate(objects[o])
  }

  ghost predicate Loaded(p: Pass) {
    && ValidIn(p.objects, p.valid)
    && Grouped(p.objects, p.valid, p.mails)
    && forall g :: g in p.mails ==> NoneRestored(p.mails[g])
  }

  function Group(mails: Groups, g: BoxId): seq<Mail> { if g in mails then mails[g] else [] }

  /** Position of the first mail that cannot be converted, or the length of the list. */
  function FirstBad(conv: (Oid, string) -> bool, ms: seq<Mail>): (n: nat)
    ensures n <= |ms|
    ensures forall i :: 0 <= i < n ==> Converts(conv, ms[i])
    ensures n < |ms| ==> !Converts(conv, ms[n])
  {
    if ms == [] then 0
    else
      var n := FirstBad(conv, ms[..|ms| - 1]);
      if n < |ms| - 1 || !Converts(conv, ms[|ms| - 1]) then n else n + 1
  }

  function FirstUid(index: MailIndex): nat { if index.nextUid != 0 then index.nextUid else 1 }

  function Oids(ms: seq<Mail>): seq<Oid> { seq(|ms|, i requires 0 <= i < |ms| => ms[i].oid) }

  function Max(a: nat, b: nat): nat { if a < b then b else a }

  /** A rebuild keeps the UIDVALIDITY if there is one, and counts itself in 32 bits without ever reaching 0. */
  function Reset(index: MailIndex, entries: seq<Entry>, validity: nat): MailIndex {
    MailIndex(entries, Max(index.nextUid, FirstUid(index) + |entries|),
              if index.uidValidity != 0 then index.uidValidity else validity,
              RebuildCount.Bumped(index.rebuildCount))
  }

  ghost predicate BoxOk(conv: (Oid, string) -> bool, before: MailIndex, after: MailIndex, ms: seq<Mail>) {
    if FirstBad(conv, ms) == |ms| then
      && after.entries == Numbered(FirstUid(before), Oids(ms))
      && after.nextUid == Max(before.nextUid, FirstUid(before) + |ms|)
      && after.uidValidity != 0 && (before.uidValidity != 0 ==> after.uidValidity == before.uidValidity)
      && after.rebuildCount == RebuildCount.Bumped(before.rebuildCount)
    else after == before
  }

  /** What the pass has done to the object of mail `i` of group `g` once the mailboxes `done` are visited. */
  ghost predicate MailOk(conv: (Oid, string) -> bool, p: Pass, now: map<Oid, Attrs>, done: seq<BoxId>, g: BoxId, i: nat)
    requires g in p.mails && i < |p.mails[g]|
  {
    var o := p.mails[g][i].oid;
    && o in p.objects && o in now
    && now[o] == if g in done && g in p.indexes && i < FirstBad(conv, p.mails[g])
                 then p.objects[o][MAIL_UID := Decimal(FirstUid(p.indexes[g]) + i)] else p.objects[o]
  }

  ghost predicate ObjectsOk(conv: (Oid, string) -> bool, p: Pass, now: map<Oid, Attrs>, done: seq<BoxId>) {
    && now.Keys == p.objects.Keys
    && (forall g, i: nat :: g in p.mails && i < |p.mails[g]| ==> MailOk(conv, p, now, done, g, i))
    && (forall o :: o in p.objects && o !in p.valid ==> now[o] == p.objects[o])
  }

  ghost predicate FlagsOk(conv: (Oid, string) -> bool, p: Pass, mails: Groups, done: seq<BoxId>) {
    && mails.Keys == p.mails.Keys
    && forall g :: g in p.mails ==> Flagged(p.mails[g], mails[g], if g in done then FirstBad(conv, p.mails[g]) else 0)
  }

  ghost predicate IndexesOk(conv: (Oid, string) -> bool, p: Pass, indexes: map<BoxId, MailIndex>, done: seq<BoxId>) {
    && indexes.Keys == p.indexes.Keys
    && (forall g :: g in p.indexes && g !in done ==> indexes[g] == p.indexes[g])
    && (forall g :: g in done ==> g in p.indexes && BoxOk(conv, p.indexes[g], indexes[g], Group(p.mails, g)))
  }

  ghost predicate PassOk(conv: (Oid, string) -> bool, p: Pass, now: map<Oid, Attrs>, indexes: map<BoxId, MailIndex>,
                         mails: Groups, done: seq<BoxId>)
  {
    ObjectsOk(conv, p, now, done) && FlagsOk(conv, p, mails, done) && IndexesOk(conv, p, indexes, done)
  }

  lemma PassStarts(conv: (Oid, string) -> bool, p: Pass)
    requires Loaded(p)
    ensures PassOk(conv, p, p.objects, p.indexes, p.mails, [])
  {
    forall g, i: nat | g in p.mails && i < |p.mails[g]|
      ensures MailOk(conv, p, p.objects, [], g, i)
    {
      assert GroupOk(p.objects, g, p.mails[g]);
    }
  }

  lemma FreshTodo(ms: seq<Mail>)
    requires NoneRestored(ms)
    ensures Todo(ms) == Oids(ms)
  {
    if ms != [] {
      var n := |ms| - 1;
      FreshTodo(ms[..n]);
      assert Oids(ms) == Oids(ms[..n]) + [ms[n].oid];
    }
  }

  lemma FirstBadUnique(conv: (Oid, string) -> bool, ms: seq<Mail>, n: nat)
    requires n <= |ms| && (forall i :: 0 <= i < n ==> Converts(conv, ms[i])) && (n < |ms| ==> !Converts(conv, ms[n]))
    ensures n == FirstBad(conv, ms)
  {
  }

  lemma FreshFill(conv: (Oid, string) -> bool, ms: seq<Mail>, n: nat)
    requires n <= |ms| && NoneRestored(ms) && forall i :: 0 <= i < n ==> ms[i].restored || Converts(conv, ms[i])
    requires n < |ms| ==> !ms[n].restored && !Converts(conv, ms[n])
    ensures n == FirstBad(conv, ms) && Todo(ms[..n]) == Oids(ms[..n])
  {
    FirstBadUnique(conv, ms, n);
    FreshTodo(ms[..n]);
  }

  /** Objects of other groups are not touched: the group of an object is its mailbox attribute. */
  lemma NotInGroup(objects: map<Oid, Attrs>, g: BoxId, ms: seq<Mail>, h: BoxId, hs: seq<Mail>, i: nat)
    requires GroupOk(objects, g, ms) && GroupOk(objects, h, hs) && g != h && i < |hs|
    ensures !Holds(ms, hs[i].oid)
  {
  }

  lemma NamedInGroup(first: nat, ms: seq<Mail>, n: nat, o: Oid)
    requires n <= |ms|
    ensures Named(Numbered(first, Oids(ms[..n])), o) <==> exists i :: 0 <= i < n && ms[i].oid == o
  {
    var es := Numbered(first, Oids(ms[..n]));
    assert forall i :: 0 <= i < n ==> es[i].oid == ms[i].oid;
    if exists i :: 0 <= i < n && ms[i].oid == o {
      var i :| 0 <= i < n && ms[i].oid == o;
      assert es[i].oid == o;
    }
  }

  lemma MailVisited(conv: (Oid, string) -> bool, p: Pass, before: map<Oid, Attrs>, now: map<Oid, Attrs>,
                    done: seq<BoxId>, g: BoxId, h: BoxId, i: nat)
    requires Loaded(p) && g in p.indexes && g !in done && h in p.mails && i < |p.mails[h]|
    requires MailOk(conv, p, before, done, h, i)
    requires var ms := Group(p.mails, g);
             UidsSet(before, now, Numbered(FirstUid(p.indexes[g]), Oids(ms[..FirstBad(conv, ms)])))
    ensures MailOk(conv, p, now, done + [g], h, i)
  {
    var ms := Group(p.mails, g);
    var n, first := FirstBad(conv, ms), FirstUid(p.indexes[g]);
    var o := p.mails[h][i].oid;
    var es := Numbered(first, Oids(ms[..n]));
    assert GroupOk(p.objects, h, p.mails[h]);
    NamedInGroup(first, ms, n, o);
    if h == g {
      if i < n {
        assert es[i] == Entry(first + i, o);
      }
    } else if g in p.mails {
      NotInGroup(p.objects, g, ms, h, p.mails[h], i);
    }
  }

  lemma InvalidUntouched(conv: (Oid, string) -> bool, p: Pass, g: BoxId, o: Oid, first: nat)
    requires Loaded(p) && o in p.objects && o !in p.valid
    ensures var ms := Group(p.mails, g); !Named(Numbered(first, Oids(ms[..FirstBad(conv, ms)])), o)
  {
    var ms := Group(p.mails, g);
    NamedInGroup(first, ms, FirstBad(conv, ms), o);
    if g in p.mails { assert GroupOk(p.objects, g, ms); }
  }

  /** Visiting one more mailbox. */
  lemma ObjectsVisited(conv: (Oid, string) -> bool, p: Pass, before: map<Oid, Attrs>, now: map<Oid, Attrs>,
                       done: seq<BoxId>, g: BoxId)
    requires Loaded(p) && ObjectsOk(conv, p, before, done) && g in p.indexes && g !in done
    requires var ms := Group(p.mails, g);
             UidsSet(before, now, Numbered(FirstUid(p.indexes[g]), Oids(ms[..FirstBad(conv, ms)])))
    ensures ObjectsOk(conv, p, now, done + [g])
  {
    forall h, i: nat | h in p.mails && i < |p.mails[h]|
      ensures MailOk(conv, p, now, done + [g], h, i)
    {
      MailVisited(conv, p, before, now, done, g, h, i);
    }
    forall o | o in p.objects && o !in p.valid
      ensures now[o] == p.objects[o]
    {
      InvalidUntouched(conv, p, g, o, FirstUid(p.indexes[g]));
    }
  }

  lemma FlagsVisited(conv: (Oid, string) -> bool, p: Pass, mails: Groups, done: seq<BoxId>, g: BoxId, ms': seq<Mail>)
    requires FlagsOk(conv, p, mails, done) && g !in done
    requires Flagged(Group(p.mails, g), ms', FirstBad(conv, Group(p.mails, g)))
    ensures FlagsOk(conv, p, if g in mails then mails[g := ms'] else mails, done + [g])
  {
  }

  lemma IndexesVisited(conv: (Oid, string) -> bool, p: Pass, indexes: map<BoxId, MailIndex>, done: seq<BoxId>, g: BoxId,
                       index: MailIndex)
    requires IndexesOk(conv, p, indexes, done) && g in indexes && g !in done
    requires BoxOk(conv, p.indexes[g], index, Group(p.mails, g))
    ensures IndexesOk(conv, p, indexes[g := index], done + [g])
  {
  }

  // ----- the mailboxes of the user -----

  /** The mailboxes `repair_namespace` rebuilds: it gives up a namespace at a foreign, virtual or unopenable one. */
  function Visited(ns: seq<Box>): seq<BoxId> {
    if ns == [] then []
    else if !ns[0].selectable then Visited(ns[1..])
    else if ns[0].foreign || ns[0].isVirtual || !ns[0].opens then []
    else [ns[0].guid] + Visited(ns[1..])
  }

  function VisitedAll(nss: seq<seq<Box>>): seq<BoxId> {
    if nss == [] then [] else Visited(nss[0]) + VisitedAll(nss[1..])
  }

  /** A selectable mailbox with nothing foreign, virtual or unopenable up to it. */
  predicate Reached(ns: seq<Box>, i: nat) {
    && i < |ns| && ns[i].selectable
    && forall j :: 0 <= j <= i && ns[j].selectable ==> !ns[j].foreign && !ns[j].isVirtual && ns[j].opens
  }

  lemma ReachedNext(ns: seq<Box>, i: nat)
    requires 0 < i <= |ns| && (ns[0].selectable ==> !ns[0].foreign && !ns[0].isVirtual && ns[0].opens)
    ensures Reached(ns, i) <==> Reached(ns[1..], i - 1)
  {
    var rest := ns[1..];
    if Reached(rest, i - 1) {
      forall j | 0 <= j <= i && ns[j].selectable
        ensures !ns[j].foreign && !ns[j].isVirtual && ns[j].opens
      {
        if j > 0 { assert rest[j - 1] == ns[j]; }
      }
    }
    if Reached(ns, i) {
      forall j | 0 <= j <= i - 1 && rest[j].selectable
        ensures !rest[j].foreign && !rest[j].isVirtual && rest[j].opens
      {
        assert rest[j] == ns[j + 1];
      }
    }
  }

  /** Which mailboxes of a namespace are rebuilt. */
  lemma {:induction false} VisitedIff(ns: seq<Box>, g: BoxId)
    ensures g in Visited(ns) <==> exists i: nat :: Reached(ns, i) && ns[i].guid == g
  {
    if ns != [] {
      VisitedIff(ns[1..], g);
      if ns[0].selectable && (ns[0].foreign || ns[0].isVirtual || !ns[0].opens) {
        assert forall i: nat :: !Reached(ns, i);
      } else {
        forall i: nat | 0 < i <= |ns| ensures Reached(ns, i) <==> Reached(ns[1..], i - 1) { ReachedNext(ns, i); }
        if i: nat :| Reached(ns[1..], i) && ns[1..][i].guid == g { assert Reached(ns, i + 1) && ns[i + 1].guid == g; }
        if i: nat :| Reached(ns, i) && ns[i].guid == g {
          if i > 0 { assert Reached(ns[1..], i - 1) && ns[1..][i - 1].guid == g; }
        }
        if ns[0].selectable { assert Reached(ns, 0); }
      }
    }
  }

  /** A rebuild visits these mailboxes and no others. */
  lemma {:induction false} VisitedAllIff(nss: seq<seq<Box>>, g: BoxId)
    ensures g in VisitedAll(nss) <==> exists k, i: nat :: 0 <= k < |nss| && Reached(nss[k], i) && nss[k][i].guid == g
  {
    if nss != [] {
      VisitedIff(nss[0], g);
      VisitedAllIff(nss[1..], g);
      if k, i: nat :| 0 <= k < |nss[1..]| && Reached(nss[1..][k], i) && nss[1..][k][i].guid == g {
        assert Reached(nss[k + 1], i) && nss[k + 1][i].guid == g;
      }
      if k, i: nat :| 0 <= k < |nss| && Reached(nss[k], i) && nss[k][i].guid == g {
        if k > 0 { assert Reached(nss[1..][k - 1], i) && nss[1..][k - 1][i].guid == g; }
      }
    }
  }

  // ----- the default mailbox -----

  predicate IsInbox(b: Box) { b.selectable && b.name == "INBOX" }

  /** No selectable mailbox of the namespace is virtual or cannot be opened. */
  predicate Readable(ns: seq<Box>) {
    forall i :: 0 <= i < |ns| && ns[i].selectable ==> !ns[i].isVirtual && ns[i].opens
  }

  /** The last INBOX of a namespace. */
  predicate LastInbox(ns: seq<Box>, i: nat) {
    i < |ns| && IsInbox(ns[i]) && forall j :: i < j < |ns| ==> !IsInbox(ns[j])
  }

  predicate HasInbox(ns: seq<Box>) { Readable(ns) && exists i :: 0 <= i < |ns| && IsInbox(ns[i]) }

  /** `find_inbox_mailbox_guid`: the last INBOX of a namespace that can be read to its end. */
  method FindInbox(ns: seq<Box>) returns (guid: Option<BoxId>)
    ensures guid.Some? <==> HasInbox(ns)
    ensures guid.Some? ==> exists i: nat :: LastInbox(ns, i) && ns[i].guid == guid.value
  {
    guid := None;
    ghost var last: nat := 0;
    for n := 0 to |ns|
      invariant Readable(ns[..n])
      invariant guid.None? ==> forall i :: 0 <= i < n ==> !IsInbox(ns[i])
      invariant guid.Some? ==> last < n && LastInbox(ns[..n], last) && ns[last].guid == guid.value
    {
      assert ns[..n + 1] == ns[..n] + [ns[n]];
      if ns[n].selectable {
        if ns[n].isVirtual || !ns[n].opens { return None; }
        if ns[n].name == "INBOX" { guid, last := Some(ns[n].guid), n; }
      }
    }
    assert ns[..|ns|] == ns;
  }

  /** `guid` is that of the last INBOX of the first namespace that has one and can be read to its end. */
  ghost predicate IsDefault(nss: seq<seq<Box>>, guid: BoxId) {
    exists k, i: nat ::
      && 0 <= k < |nss| && (forall j :: 0 <= j < k ==> !HasInbox(nss[j]))
      && Readable(nss[k]) && LastInbox(nss[k], i) && nss[k][i].guid == guid
  }

  /** The default mailbox, if there is one. */
  ghost predicate DefaultIs(nss: seq<seq<Box>>, inbox: Option<BoxId>) {
    match inbox
    case Some(guid) => IsDefault(nss, guid)
    case None => forall k :: 0 <= k < |nss| ==> !HasInbox(nss[k])
  }

  lemma LastIsOne(ns: seq<Box>, i: nat, j: nat)
    requires LastInbox(ns, i) && LastInbox(ns, j)
    ensures i == j
  {
  }

  /** There is one default mailbox at most, and none exactly if no namespace has an INBOX that can be found. */
  lemma DefaultIsOne(nss: seq<seq<Box>>, a: Option<BoxId>, b: Option<BoxId>)
    requires DefaultIs(nss, a) && DefaultIs(nss, b)
    ensures a == b
  {
    if a.Some? && b.Some? {
      var k, i: nat :| && 0 <= k < |nss| && (forall j :: 0 <= j < k ==> !HasInbox(nss[j]))
                       && Readable(nss[k]) && LastInbox(nss[k], i) && nss[k][i].guid == a.value;
      var l, j: nat :| && 0 <= l < |nss| && (forall m :: 0 <= m < l ==> !HasInbox(nss[m]))
                       && Readable(nss[l]) && LastInbox(nss[l], j) && nss[l][j].guid == b.value;
      assert HasInbox(nss[k]) && HasInbox(nss[l]);
      LastIsOne(nss[k], i, j);
    }
  }

  /** The first namespace with an INBOX that can be found, and the last one in it. */
  lemma FirstNamespace(nss: seq<seq<Box>>, n: nat) returns (k: nat)
    requires n < |nss| && HasInbox(nss[n])
    ensures k <= n && HasInbox(nss[k]) && forall j :: 0 <= j < k ==> !HasInbox(nss[j])
  {
    k := 0;
    while !HasInbox(nss[k])
      invariant k <= n && forall j :: 0 <= j < k ==> !HasInbox(nss[j])
      decreases n - k
    {
      k := k + 1;
    }
  }

  lemma LastExists(ns: seq<Box>, i: nat) returns (last: nat)
    requires i < |ns| && IsInbox(ns[i])
    ensures LastInbox(ns, last)
  {
    last := |ns| - 1;
    while !IsInbox(ns[last])
      invariant i <= last < |ns| && forall j :: last < j < |ns| ==> !IsInbox(ns[j])
      decreases last
    {
      last := last - 1;
    }
  }

  lemma DefaultExists(nss: seq<seq<Box>>, n: nat) returns (guid: BoxId)
    requires n < |nss| && HasInbox(nss[n])
    ensures IsDefault(nss, guid)
  {
    var k := FirstNamespace(nss, n);
    var i :| 0 <= i < |nss[k]| && IsInbox(nss[k][i]);
    var last := LastExists(nss[k], i);
    guid := nss[k][last].guid;
  }

  lemma NoDefault(nss: seq<seq<Box>>)
    requires forall guid :: !IsDefault(nss, guid)
    ensures DefaultIs(nss, None)
  {
    forall n | 0 <= n < |nss|
      ensures !HasInbox(nss[n])
    {
      if HasInbox(nss[n]) { var guid := DefaultExists(nss, n); }
    }
  }

  /** The default mailbox of the user. */
  ghost function DefaultInbox(nss: seq<seq<Box>>): (inbox: Option<BoxId>)
    ensures DefaultIs(nss, inbox)
  {
    if guid :| IsDefault(nss, guid) then Some(guid) else NoDefault(nss); None
  }

  /** `find_default_mailbox_guid` */
  method FindDefault(nss: seq<seq<Box>>) returns (inbox: Option<BoxId>)
    ensures DefaultIs(nss, inbox) && inbox == DefaultInbox(nss)
  {
    inbox := None;
    var k := 0;
    while k < |nss| && inbox.None?
      invariant k <= |nss| && if inbox.Some? then IsDefault(nss, inbox.value)
                              else forall j :: 0 <= j < k ==> !HasInbox(nss[j])
    {
      inbox := FindInbox(nss[k]);
      k := k + 1;
    }
    DefaultIsOne(nss, inbox, DefaultInbox(nss));
  }

  /** A pass before its first mailbox has loaded nothing yet. */
  ghost predicate Running(conv: (Oid, string) -> bool, p: Pass, now: map<Oid, Attrs>, indexes: map<BoxId, MailIndex>,
                          mails: Groups, done: seq<BoxId>)
  {
    if done == [] then now == p.objects && indexes == p.indexes && mails == map[]
    else Loaded(p) && PassOk(conv, p, now, indexes, mails, done)
  }

  /** The oids a rebuild looks at: those of the recovery index with search method 2, otherwise a listing. */
  function Search(byIndex: bool, objects: map<Oid, Attrs>, text: string): set<Oid> {
    if byIndex then OidSet(text) else objects.Keys
  }

  /** The text of the recovery index during a pass: once the mails are loaded it lists exactly these, if it is in use
      and can be written. */
  ghost predicate TextOk(byIndex: bool, writable: bool, p: Pass, text: string, loaded: bool) {
    && p.valid == Mails(p.objects, Search(byIndex, p.objects, p.text))
    && if loaded && byIndex && writable then WellFormed(text) && OidSet(text) == p.valid else text == p.text
  }

  /** Every oid that is read from the index can be written to it again. */
  lemma ReadIndexable(text: string, oid: Oid)
    requires oid in OidSet(text)
    ensures Indexable(oid)
  {
    TokensAvoid(CStr(text), ',', ',');
    TokensAvoid(CStr(text), ',', NUL);
  }

  lemma GroupedMails(objects: map<Oid, Attrs>, list: set<Oid>, mails: Groups)
    requires Grouped(objects, list, mails)
    ensures Grouped(objects, Mails(objects, list), mails)
    ensures forall o :: o in Mails(objects, list) <==> InGroups(mails, mails.Keys, o)
  {
    forall o
      ensures o in Mails(objects, list) <==> InGroups(mails, mails.Keys, o)
    {
      if g :| g in mails.Keys && g in mails && Holds(mails[g], o) {
        assert GroupOk(objects, g, mails[g]);
      }
    }
  }

  lemma NothingValid(p: Pass)
    requires Loaded(p) && p.mails == map[]
    ensures p.valid == {}
  {
  }

  lemma NothingFound(conv: (Oid, string) -> bool, p: Pass, now: map<Oid, Attrs>, done: seq<BoxId>, list: set<Oid>,
                     o: Oid)
    requires ObjectsOk(conv, p, now, done) && p.valid == {} && (list == {} || Mails(p.objects, list) == {})
    ensures o !in Mails(now, list)
  {
    if list != {} && o in list && o in p.objects { assert now[o] == p.objects[o] && o !in Mails(p.objects, list); }
  }

  /** Loading again, which the code does while no group is known, finds nothing again. */
  lemma NothingToLoad(conv: (Oid, string) -> bool, p: Pass, now: map<Oid, Attrs>, done: seq<BoxId>, list: set<Oid>,
                      mails: Groups)
    requires Loaded(p) && ObjectsOk(conv, p, now, done) && p.mails == map[] && Grouped(now, list, mails)
    requires list == {} || Mails(p.objects, list) == {}
    ensures mails == map[]
  {
    NothingValid(p);
    forall o ensures o !in Mails(now, list) { NothingFound(conv, p, now, done, list, o); }
    forall g
      ensures g !in mails
    {
      if g in mails {
        FirstMember(now, list, mails, g);
        assert false;
      }
    }
  }

  lemma FirstMember(objects: map<Oid, Attrs>, list: set<Oid>, mails: Groups, g: BoxId)
    requires Grouped(objects, list, mails) && g in mails
    ensures Mails(objects, list) != {}
  {
    assert GroupOk(objects, g, mails[g]);
    assert mails[g][0].oid in Mails(objects, list);
  }

  // ----- the outcome of a whole rebuild -----

  predicate ConvertsAttrs(conv: (Oid, string) -> bool, o: Oid, a: Attrs) {
    MAIL_GUID in a && conv(o, a[MAIL_GUID])
  }

  /** Every valid object can be turned into an index record. */
  ghost predicate AllConvert(conv: (Oid, string) -> bool, objects: map<Oid, Attrs>, valid: set<Oid>) {
    forall o :: o in valid && o in objects ==> ConvertsAttrs(conv, o, objects[o])
  }

  /** Every valid object belongs to one of the mailboxes. */
  ghost predicate AllHome(objects: map<Oid, Attrs>, valid: set<Oid>, boxes: seq<BoxId>) {
    forall o :: o in valid && o in objects && Validate(objects[o]) ==> objects[o][MAILBOX_GUID] in boxes
  }

  ghost predicate AllRestored(mails: Groups) {
    forall g, i :: g in mails && 0 <= i < |mails[g]| ==> mails[g][i].restored
  }

  /** A pass restores every mail exactly when every valid object has a visited mailbox and can be converted. */
  lemma AllRestoredIff(conv: (Oid, string) -> bool, p: Pass, mails: Groups, done: seq<BoxId>)
    requires Loaded(p) && FlagsOk(conv, p, mails, done)
    ensures AllRestored(mails) <==> AllConvert(conv, p.objects, p.valid) && AllHome(p.objects, p.valid, done)
  {
    if AllRestored(mails) {
      forall o | o in p.valid
        ensures ConvertsAttrs(conv, o, p.objects[o]) && p.objects[o][MAILBOX_GUID] in done
      {
        var g := p.objects[o][MAILBOX_GUID];
        var i :| 0 <= i < |p.mails[g]| && p.mails[g][i].oid == o;
        assert GroupOk(p.objects, g, p.mails[g]) && NoneRestored(p.mails[g]);
        assert mails[g][i].restored;
      }
    } else {
      var g, i :| g in mails && 0 <= i < |mails[g]| && !mails[g][i].restored;
      assert GroupOk(p.objects, g, p.mails[g]);
      assert p.mails[g][i].oid in p.valid;
      if g in done {
        var n := FirstBad(conv, p.mails[g]);
        assert n <= i < |p.mails[g]|;
        assert p.mails[g][n].oid in p.valid && !Converts(conv, p.mails[g][n]);
      }
    }
  }

  // ----- counting and reassigning -----

  /** The mails of different groups are different objects. */
  ghost predicate Disjoint(mails: Groups) {
    && (forall g, i, j :: g in mails && 0 <= i < j < |mails[g]| ==> mails[g][i].oid != mails[g][j].oid)
    && (forall g, h, i :: g in mails && h in mails && g != h && 0 <= i < |mails[g]| ==>
        !Holds(mails[h], mails[g][i].oid))
  }

  lemma FlaggedDisjoint(conv: (Oid, string) -> bool, p: Pass, mails: Groups, done: seq<BoxId>)
    requires Loaded(p) && FlagsOk(conv, p, mails, done)
    ensures Disjoint(mails)
    ensures forall g, i :: g in mails && 0 <= i < |mails[g]| ==>
              mails[g][i].oid in p.objects && Validate(p.objects[mails[g][i].oid])
  {
    forall g | g in mails
      ensures GroupOk(p.objects, g, p.mails[g]) && |mails[g]| == |p.mails[g]|
      ensures forall i :: 0 <= i < |mails[g]| ==> mails[g][i].oid == p.mails[g][i].oid
    {
    }
  }

  ghost predicate InGroups(mails: Groups, boxes: set<BoxId>, o: Oid) {
    exists g :: g in boxes && g in mails && Holds(mails[g], o)
  }

  /** All oids of the groups. */
  method CollectOids(mails: Groups) returns (oids: set<Oid>)
    ensures forall o :: o in oids <==> InGroups(mails, mails.Keys, o)
  {
    oids := {};
    var todo := mails.Keys;
    while todo != {}
      invariant todo <= mails.Keys
      invariant forall o :: o in oids <==> InGroups(mails, mails.Keys - todo, o)
    {
      var g :| g in todo;
      var more := OidsOf(mails[g]);
      assert mails.Keys - (todo - {g}) == mails.Keys - todo + {g};
      assert forall o :: InGroups(mails, mails.Keys - todo + {g}, o) <==>
                         InGroups(mails, mails.Keys - todo, o) || Holds(mails[g], o);
      oids := oids + more;
      todo := todo - {g};
    }
    assert mails.Keys - todo == mails.Keys;
  }

  method OidsOf(ms: seq<Mail>) returns (oids: set<Oid>)
    ensures forall o :: o in oids <==> Holds(ms, o)
  {
    oids := {};
    for i := 0 to |ms|
      invariant forall o :: o in oids <==> exists j :: 0 <= j < i && ms[j].oid == o
    {
      oids := oids + {ms[i].oid};
    }
  }

  /** One list: what it adds to the two counters. */
  method CountGroup(ms: seq<Mail>, ghost before: set<Oid>) returns (homed: nat, stray: nat, ghost counted: set<Oid>)
    requires forall i, j :: 0 <= i < j < |ms| ==> ms[i].oid != ms[j].oid
    requires forall i :: 0 <= i < |ms| ==> ms[i].oid !in before
    ensures stray == 0 <==> forall i :: 0 <= i < |ms| ==> ms[i].restored
    ensures |counted| == |before| + homed + stray
    ensures forall o :: o in counted <==> o in before || Holds(ms, o)
  {
    homed, stray, counted := 0, 0, before;
    var i := 0;
    while i < |ms|
      invariant i <= |ms| && |counted| == |before| + homed + stray
      invariant stray == 0 <==> forall j :: 0 <= j < i ==> ms[j].restored
      invariant forall o :: o in counted <==> o in before || exists j :: 0 <= j < i && ms[j].oid == o
    {
      if ms[i].restored { homed := homed + 1; } else { stray := stray + 1; }
      counted := counted + {ms[i].oid};
      i := i + 1;
    }
  }

  /** The two totals: together they count every loaded mail once. */
  method CountMails(mails: Groups) returns (homed: nat, stray: nat, ghost counted: set<Oid>)
    requires Disjoint(mails)
    ensures stray == 0 <==> AllRestored(mails)
    ensures homed + stray == |counted|
    ensures forall o :: o in counted <==> InGroups(mails, mails.Keys, o)
  {
    homed, stray, counted := 0, 0, {};
    var todo := mails.Keys;
    while todo != {}
      invariant todo <= mails.Keys && homed + stray == |counted|
      invariant forall o :: o in counted <==> InGroups(mails, mails.Keys - todo, o)
      invariant stray == 0 <==> forall g, i :: g in mails && g !in todo && 0 <= i < |mails[g]| ==> mails[g][i].restored
    {
      var g :| g in todo;
      var a, u;
      ghost var c;
      forall i | 0 <= i < |mails[g]|
        ensures mails[g][i].oid !in counted
      {
        assert forall h :: h in mails && h != g ==> !Holds(mails[h], mails[g][i].oid);
      }
      a, u, c := CountGroup(mails[g], counted);
      assert mails.Keys - (todo - {g}) == mails.Keys - todo + {g};
      assert forall o :: InGroups(mails, mails.Keys - todo + {g}, o) <==>
          InGroups(mails, mails.Keys - todo, o) || Holds(mails[g], o);
      homed, stray, counted := homed + a, stray + u, c;
      todo := todo - {g};
    }
    assert mails.Keys - todo == mails.Keys;
  }

  /** A mail that was not restored gets the largest UID and the mailbox `inbox`. */
  function Given(a: Attrs, restored: bool, inbox: BoxId): Attrs {
    if restored then a else a[MAIL_UID := "2147483647"][MAILBOX_GUID := inbox]
  }

  ghost predicate GroupGiven(objects: map<Oid, Attrs>, objects': map<Oid, Attrs>, ms: seq<Mail>, inbox: BoxId) {
    forall i :: 0 <= i < |ms| ==>
      ms[i].oid in objects && ms[i].oid in objects'
          && objects'[ms[i].oid] ==
             if ms[i].restored then objects[ms[i].oid] else objects[ms[i].oid]['U' := "2147483647"]['M' := inbox]
  }

  ghost predicate Untouched(objects: map<Oid, Attrs>, objects': map<Oid, Attrs>, o: Oid) {
    o in objects ==> o in objects' && objects'[o] == objects[o]
  }

  predicate HeldBefore(ms: seq<Mail>, n: nat, o: Oid)
    requires n <= |ms|
  {
    exists i :: 0 <= i < n && ms[i].oid == o
  }

  ghost predicate GivenSoFar(objects: map<Oid, Attrs>, now: map<Oid, Attrs>, ms: seq<Mail>, n: nat, inbox: BoxId)
    requires n <= |ms|
  {
    && now.Keys == objects.Keys
    && (forall i :: 0 <= i < n ==> ms[i].oid in objects && ms[i].oid in now
                                   && now[ms[i].oid] == Given(objects[ms[i].oid], ms[i].restored, inbox))
    && (forall o :: o in objects && !HeldBefore(ms, n, o) ==> now[o] == objects[o])
  }

  lemma GiveStep(objects: map<Oid, Attrs>, now: map<Oid, Attrs>, ms: seq<Mail>, n: nat, inbox: BoxId)
    requires n < |ms| && GivenSoFar(objects, now, ms, n, inbox) && ms[n].oid in objects
    requires forall i, j :: 0 <= i < j < |ms| ==> ms[i].oid != ms[j].oid
    ensures GivenSoFar(objects, if ms[n].restored then now
              else now[ms[n].oid := now[ms[n].oid][MAIL_UID := "2147483647"][MAILBOX_GUID := inbox]],
                       ms, n + 1, inbox)
  {
    assert !HeldBefore(ms, n, ms[n].oid);
    assert now[ms[n].oid] == objects[ms[n].oid];
    forall o | o in objects && !HeldBefore(ms, n + 1, o)
      ensures !HeldBefore(ms, n, o) && o != ms[n].oid
    {
    }
  }

  lemma GiveEnds(objects: map<Oid, Attrs>, now: map<Oid, Attrs>, ms: seq<Mail>, inbox: BoxId)
    requires GivenSoFar(objects, now, ms, |ms|, inbox)
    ensures GroupGiven(objects, now, ms, inbox)
    ensures forall o :: !Holds(ms, o) ==> Untouched(objects, now, o)
  {
    forall o | !Holds(ms, o)
      ensures Untouched(objects, now, o)
    {
      assert !HeldBefore(ms, |ms|, o);
    }
  }

  /** `objects'` after the mails that were not restored have been given to `inbox`. */
  ghost predicate GivenToInbox(objects: map<Oid, Attrs>, objects': map<Oid, Attrs>, mails: Groups, inbox: BoxId) {
    && objects'.Keys == objects.Keys
    && (forall g :: g in mails ==> GroupGiven(objects, objects', mails[g], inbox))
    && (forall o :: o in objects && !InGroups(mails, mails.Keys, o) ==> Untouched(objects, objects', o))
  }

  /** The namespace, the indexes and the recovery index. `conv` says which oid and GUID Dovecot can convert to a record,
      `byIndex` that search method 2 is configured, `writable` that the recovery index can be overwritten. */
  class Storage {
    var objects: map<Oid, Attrs>
    var indexes: map<BoxId, MailIndex>
    var text: string
    const conv: (Oid, string) -> bool
    const byIndex: bool
    const writable: bool

    constructor (objects: map<Oid, Attrs>, indexes: map<BoxId, MailIndex>, text: string, conv: (Oid, string) -> bool,
                 byIndex: bool, writable: bool)
      ensures this.objects == objects && this.indexes == indexes && this.text == text
      ensures this.conv == conv && this.byIndex == byIndex && this.writable == writable
    {
      this.objects, this.indexes, this.text := objects, indexes, text;
      this.conv, this.byIndex, this.writable := conv, byIndex, writable;
    }

    /** The state in the middle of a pass that has visited `done`. */
    ghost predicate During(p: Pass, mails: Groups, done: seq<BoxId>)
      reads this
    {
      Running(conv, p, objects, indexes, mails, done) && TextOk(byIndex, writable, p, text, done != [])
    }

    /** `rbox_sync_add_object`: the U attribute is rewritten once the record can be built. */
    method AddObject(m: Mail, uid: nat) returns (ret: int)
      requires m.oid in objects
      modifies this`objects
      ensures ret == if Converts(conv, m) then 0 else -1
      ensures objects == if ret == 0 then old(objects)[m.oid := old(objects)[m.oid][MAIL_UID := Decimal(uid)]]
                else old(objects)
    {
      if MAIL_GUID !in m.attrs || !conv(m.oid, m.attrs[MAIL_GUID]) { return -1; }
      objects := objects[m.oid := objects[m.oid][MAIL_UID := Decimal(uid)]];
      return 0;
    }

    /** `rbox_sync_rebuild_entry`: re-adds the mails of one mailbox and stops at the first that cannot be converted. */
    method RebuildEntry(g: BoxId, ms: seq<Mail>, first: nat)
      returns (ms': seq<Mail>, entries: seq<Entry>, next: nat, ret: int, ghost n: nat)
      requires forall i :: 0 <= i < |ms| ==> ms[i].oid in objects
      requires forall i, j :: 0 <= i < j < |ms| ==> ms[i].oid != ms[j].oid
      modifies this`objects
      ensures Flagged(ms, ms', n)
      ensures entries == Numbered(first, Todo(ms[..n])) && next == first + |entries|
      ensures UidsSet(old(objects), objects, entries)
      ensures ret == (if n == |ms| then 0 else -1)
      ensures forall i :: 0 <= i < n ==> ms[i].restored || Converts(conv, ms[i])
      ensures n < |ms| ==> !ms[n].restored && !Converts(conv, ms[n])
    {
      ms', entries, next, ret, n := ms, [], first, 0, 0;
      var i := 0;
      while i < |ms|
        invariant n == i <= |ms| && ret == 0
        invariant EntrySoFar(old(objects), objects, ms, ms', first, entries, i)
        invariant next == first + |entries|
        invariant forall j :: 0 <= j < i ==> ms[j].restored || Converts(conv, ms[j])
      {
        if ms[i].restored {
          EntrySkips(old(objects), objects, ms, ms', first, entries, i);
        } else {
          EntryAdds(old(objects), objects, ms, ms', first, entries, i);
          ret := AddObject(ms[i], next);
          if ret < 0 { return; }
          entries := entries + [Entry(next, ms[i].oid)];
          ms' := ms'[i := ms[i].(restored := true)];
          next := next + 1;
        }
        i := i + 1;
        n := i;
      }
    }

    /** The list of one mailbox, if it has one, is added to the reset index. */
    method Refill(g: BoxId, mails: Groups, first: nat, ghost p: Pass, ghost done: seq<BoxId>)
      returns (ms': seq<Mail>, entries: seq<Entry>, ret: int)
      requires Loaded(p) && ObjectsOk(conv, p, objects, done) && FlagsOk(conv, p, mails, done) && g !in done
      modifies this`objects
      ensures var ms := Group(p.mails, g);
              var n := FirstBad(conv, ms);
              && entries == Numbered(first, Oids(ms[..n])) && |entries| == n
              && UidsSet(old(objects), objects, entries)
              && Flagged(ms, ms', n)
              && ret == if n == |ms| then 0 else -1
    {
      ms', entries, ret := [], [], 0;
      if g in mails {
        ghost var n;
        var next;
        MembersExist(conv, p, objects, mails, done, g);
        ms', entries, next, ret, n := RebuildEntry(g, mails[g], first);
        FreshFill(conv, p.mails[g], n);
      }
    }

    /** `rbox_sync_index_rebuild` with force: the index is reset, refilled and committed, or left alone. */
    method RebuildIndex(g: BoxId, mails: Groups, validity: nat, ghost p: Pass, ghost done: seq<BoxId>)
      returns (mails': Groups, ret: int)
      requires Loaded(p) && PassOk(conv, p, objects, indexes, mails, done)
      requires g in indexes && g !in done && validity != 0
      modifies this`objects, this`indexes
      ensures PassOk(conv, p, objects, indexes, mails', done + [g])
      ensures ret == if FirstBad(conv, Group(p.mails, g)) == |Group(p.mails, g)| then 0 else -1
    {
      ghost var before, ms := objects, Group(p.mails, g);
      var index := indexes[g];
      var first := FirstUid(index);
      var ms', entries;
      ms', entries, ret := Refill(g, mails, first, p, done);
      mails' := if g in mails then mails[g := ms'] else mails;
      ObjectsVisited(conv, p, before, objects, done, g);
      FlagsVisited(conv, p, mails, done, g, ms');
      BoxFilled(conv, index, ms, entries, validity);
      if ret >= 0 { index := Reset(index, entries, validity); }
      IndexesVisited(conv, p, indexes, done, g, index);
      indexes := indexes[g := index];
    }

    /** `repair_namespace`: loads the mails at the first mailbox and rebuilds every mailbox it reaches. */
    method RepairNamespace(ns: seq<Box>, mails: Groups, validity: nat, ghost p: Pass, ghost done: seq<BoxId>)
      returns (mails': Groups, ghost p': Pass, ghost done': seq<BoxId>)
      requires During(p, mails, done) && validity != 0
      requires Distinct(done + Visited(ns)) && forall g :: g in done + Visited(ns) ==> g in indexes
      modifies this
      ensures done' == done + Visited(ns)
      ensures p'.(mails := p.mails) == p
      ensures During(p', mails', done')
      ensures indexes.Keys == old(indexes.Keys)
    {
      mails', p', done' := mails, p, done;
      ghost var all := done + Visited(ns);
      var i := 0;
      while i < |ns|
        invariant i <= |ns| && done' + Visited(ns[i..]) == all
        invariant p'.(mails := p.mails) == p
        invariant During(p', mails', done')
        invariant indexes.Keys == old(indexes.Keys)
      {
        VisitedFrom(ns, i);
        if ns[i].selectable {
          if ns[i].foreign || ns[i].isVirtual || !ns[i].opens { break; }
          mails', p', done' := VisitNext(ns[i].guid, mails', validity, p', done', Visited(ns[i + 1..]), all);
        }
        i := i + 1;
      }
    }

    /** The next mailbox of those that are visited in all. */
    method VisitNext(g: BoxId, mails: Groups, validity: nat, ghost p: Pass, ghost done: seq<BoxId>,
                     ghost rest: seq<BoxId>, ghost all: seq<BoxId>)
      returns (mails': Groups, ghost p': Pass, ghost done': seq<BoxId>)
      requires During(p, mails, done) && validity != 0
      requires done + ([g] + rest) == all && Distinct(all) && forall h :: h in all ==> h in indexes
      modifies this
      ensures done' == done + [g] && done' + rest == all
      ensures p'.(mails := p.mails) == p
      ensures During(p', mails', done')
      ensures indexes.Keys == old(indexes.Keys)
    {
      ToVisit(done, g, rest, all);
      mails', p' := VisitBox(g, mails, validity, p, done);
      done' := done + [g];
    }

    method VisitBox(g: BoxId, mails: Groups, validity: nat, ghost p: Pass, ghost done: seq<BoxId>)
      returns (mails': Groups, ghost p': Pass)
      requires During(p, mails, done) && validity != 0 && g !in done && g in indexes
      modifies this
      ensures p'.(mails := p.mails) == p
      ensures During(p', mails', done + [g])
      ensures indexes.Keys == old(indexes.Keys)
    {
      mails', p' := LoadOnce(mails, p, done);
      var ret;
      mails', ret := RebuildIndex(g, mails', validity, p', done);
    }

    /** The mails are loaded while none are known; with search method 2 the recovery index is then overwritten. */
    method LoadOnce(mails: Groups, ghost p: Pass, ghost done: seq<BoxId>) returns (mails': Groups, ghost p': Pass)
      requires During(p, mails, done)
      modifies this`text
      ensures p'.(mails := p.mails) == p
      ensures Loaded(p') && PassOk(conv, p', objects, indexes, mails', done)
      ensures TextOk(byIndex, writable, p', text, true)
    {
      mails', p' := mails, p;
      if |mails| == 0 {
        ghost var list := Search(byIndex, objects, text);
        mails' := LoadListed();
        if done == [] {
          p' := p.(mails := mails');
          FirstLoad(p', list);
          PassStarts(conv, p');
        } else {
          SearchAgain(conv, p, objects, done, byIndex, writable, old(text));
          NothingToLoad(conv, p, objects, done, list, mails');
        }
        Overwrite(mails', list, p');
      }
    }

    method LoadListed() returns (mails: Groups)
      ensures Grouped(objects, Search(byIndex, objects, text), mails)
      ensures forall g :: g in mails ==> NoneRestored(mails[g])
    {
      var list;
      if byIndex {
        list := IndexToSet(CStr(text));
      } else {
        list := objects.Keys;
      }
      mails := LoadMetadata(objects, list);
    }

    /** The recovery index is overwritten with the mails that were loaded. */
    method Overwrite(mails: Groups, ghost list: set<Oid>, ghost p: Pass)
      requires list == Search(byIndex, objects, text) && Grouped(objects, list, mails)
      requires p.valid == Mails(objects, list) == Mails(p.objects, Search(byIndex, p.objects, p.text))
      requires (byIndex && writable) || text == p.text
      modifies this`text
      ensures TextOk(byIndex, writable, p, text, true)
    {
      if byIndex {
        GroupedMails(objects, list, mails);
        var valid := CollectOids(mails);
        assert valid == p.valid;
        forall o | o in valid ensures Indexable(o) { ReadIndexable(text, o); }
        if writable { text := ConvertSet(valid); }
      }
    }

    method GiveGroup(ms: seq<Mail>, inbox: BoxId) returns (count: nat)
      requires forall i :: 0 <= i < |ms| ==> ms[i].oid in objects
      requires forall i, j :: 0 <= i < j < |ms| ==> ms[i].oid != ms[j].oid
      modifies this`objects
      ensures objects.Keys == old(objects.Keys) && GroupGiven(old(objects), objects, ms, inbox)
      ensures forall o :: !Holds(ms, o) ==> Untouched(old(objects), objects, o)
      ensures count == 0 <==> forall i :: 0 <= i < |ms| ==> ms[i].restored
    {
      count := 0;
      var i := 0;
      while i < |ms|
        invariant i <= |ms| && GivenSoFar(old(objects), objects, ms, i, inbox)
        invariant count == 0 <==> forall j :: 0 <= j < i ==> ms[j].restored
      {
        GiveStep(old(objects), objects, ms, i, inbox);
        if !ms[i].restored {
          objects := objects[ms[i].oid := objects[ms[i].oid][MAIL_UID := "2147483647"][MAILBOX_GUID := inbox]];
          count := count + 1;
        }
        i := i + 1;
      }
      GiveEnds(old(objects), objects, ms, inbox);
    }

    /** The lost mails are written to the store one by one. */
    method GiveToInbox(mails: Groups, inbox: BoxId) returns (count: nat)
      requires Disjoint(mails)
      requires forall g, i :: g in mails && 0 <= i < |mails[g]| ==> mails[g][i].oid in objects
      modifies this`objects
      ensures GivenToInbox(old(objects), objects, mails, inbox)
      ensures count == 0 <==> AllRestored(mails)
    {
      count := 0;
      var todo := mails.Keys;
      while todo != {}
        invariant todo <= mails.Keys && objects.Keys == old(objects.Keys)
        invariant forall g :: g in mails && g !in todo ==> GroupGiven(old(objects), objects, mails[g], inbox)
        invariant forall o :: !InGroups(mails, mails.Keys - todo, o) ==> Untouched(old(objects), objects, o)
        invariant count == 0 <==> forall g, i :: g in mails && g !in todo && 0 <= i < |mails[g]| ==>
                    mails[g][i].restored
      {
        var g :| g in todo;
        ghost var before := objects;
        var n := GiveGroup(mails[g], inbox);
        GroupsGivenSoFar(old(objects), before, objects, mails, todo, g, inbox);
        count := count + n;
        todo := todo - {g};
      }
      assert mails.Keys - todo == mails.Keys;
    }
  }

  lemma FirstLoad(p: Pass, list: set<Oid>)
    requires Grouped(p.objects, list, p.mails) && p.valid == Mails(p.objects, list)
    requires forall g :: g in p.mails ==> NoneRestored(p.mails[g])
    ensures Loaded(p)
  {
    GroupedMails(p.objects, list, p.mails);
  }

  /** A second search in the same pass, after a first one that found nothing. */
  lemma SearchAgain(conv: (Oid, string) -> bool, p: Pass, now: map<Oid, Attrs>, done: seq<BoxId>, byIndex: bool,
                    writable: bool, text: string)
    requires Loaded(p) && p.mails == map[] && ObjectsOk(conv, p, now, done) && TextOk(byIndex, writable, p, text, true)
    ensures var list := Search(byIndex, now, text);
            (list == {} || Mails(p.objects, list) == {}) && p.valid == {} == Mails(now, list)
            && ((byIndex && writable) || text == p.text)
  {
    NothingValid(p);
    var list := Search(byIndex, now, text);
    forall o ensures o !in Mails(now, list) { NothingFound(conv, p, now, done, list, o); }
  }

  lemma BoxFilled(conv: (Oid, string) -> bool, before: MailIndex, ms: seq<Mail>, entries: seq<Entry>, validity: nat)
    requires validity != 0 && entries == Numbered(FirstUid(before), Oids(ms[..FirstBad(conv, ms)]))
    ensures BoxOk(conv, before, if FirstBad(conv, ms) == |ms| then Reset(before, entries, validity) else before, ms)
  {
    if FirstBad(conv, ms) == |ms| {
      assert ms[..|ms|] == ms;
      BoxFull(conv, before, ms, validity);
    }
  }

  lemma BoxFull(conv: (Oid, string) -> bool, before: MailIndex, ms: seq<Mail>, validity: nat)
    requires validity != 0 && FirstBad(conv, ms) == |ms|
    ensures BoxOk(conv, before, Reset(before, Numbered(FirstUid(before), Oids(ms)), validity), ms)
  {
    NumberedSize(FirstUid(before), ms);
  }

  lemma NumberedSize(first: nat, ms: seq<Mail>)
    ensures |Numbered(first, Oids(ms))| == |ms|
  {
  }

  lemma MembersExist(conv: (Oid, string) -> bool, p: Pass, now: map<Oid, Attrs>, mails: Groups, done: seq<BoxId>,
                     g: BoxId)
    requires Loaded(p) && ObjectsOk(conv, p, now, done) && FlagsOk(conv, p, mails, done) && g in mails && g !in done
    ensures mails[g] == p.mails[g] && NoneRestored(mails[g])
    ensures forall i :: 0 <= i < |mails[g]| ==> mails[g][i].oid in now
    ensures forall i, j :: 0 <= i < j < |mails[g]| ==> mails[g][i].oid != mails[g][j].oid
  {
    assert Flagged(p.mails[g], mails[g], 0) && GroupOk(p.objects, g, p.mails[g]);
    forall i: nat | i < |p.mails[g]|
      ensures p.mails[g][i].oid in now
    {
      assert MailOk(conv, p, now, done, g, i);
    }
  }

  lemma VisitedFrom(ns: seq<Box>, i: nat)
    requires i < |ns|
    ensures Visited(ns[i..]) ==
            if !ns[i].selectable then Visited(ns[i + 1..])
            else if ns[i].foreign || ns[i].isVirtual || !ns[i].opens then []
            else [ns[i].guid] + Visited(ns[i + 1..])
  {
    assert ns[i..][1..] == ns[i + 1..];
  }

  lemma ToVisit(done: seq<BoxId>, g: BoxId, rest: seq<BoxId>, all: seq<BoxId>)
    requires done + ([g] + rest) == all && Distinct(all)
    ensures g !in done && g in all && done + [g] + rest == all
  {
    assert all[|done|] == g;
    assert forall i :: 0 <= i < |done| ==> all[i] == done[i];
  }

  lemma GroupsGivenSoFar(o0: map<Oid, Attrs>, before: map<Oid, Attrs>, now: map<Oid, Attrs>, mails: Groups,
                         todo: set<BoxId>,
                         g: BoxId, inbox: BoxId)
    requires Disjoint(mails) && g in todo && todo <= mails.Keys && before.Keys == o0.Keys && now.Keys == o0.Keys
    requires forall h :: h in mails && h !in todo ==> GroupGiven(o0, before, mails[h], inbox)
    requires forall o :: !InGroups(mails, mails.Keys - todo, o) ==> Untouched(o0, before, o)
    requires GroupGiven(before, now, mails[g], inbox)
    requires forall o :: !Holds(mails[g], o) ==> Untouched(before, now, o)
    ensures forall h :: h in mails && h !in todo - {g} ==> GroupGiven(o0, now, mails[h], inbox)
    ensures forall o :: !InGroups(mails, mails.Keys - (todo - {g}), o) ==> Untouched(o0, now, o)
  {
    forall h | h in mails && h !in todo - {g}
      ensures GroupGiven(o0, now, mails[h], inbox)
    {
      forall i | 0 <= i < |mails[h]|
        ensures mails[h][i].oid in o0 && mails[h][i].oid in now
        ensures now[mails[h][i].oid] == Given(o0[mails[h][i].oid], mails[h][i].restored, inbox)
      {
        var o := mails[h][i].oid;
        if h == g {
          assert !InGroups(mails, mails.Keys - todo, o) by { assert Holds(mails[g], o); }
          assert Untouched(o0, before, o);
        } else {
          assert !Holds(mails[g], o);
          assert Untouched(before, now, o);
        }
      }
    }
    forall o | !InGroups(mails, mails.Keys - (todo - {g}), o)
      ensures Untouched(o0, now, o)
    {
      assert g in mails.Keys - (todo - {g});
      assert !Holds(mails[g], o);
      assert !InGroups(mails, mails.Keys - todo, o);
      assert Untouched(o0, before, o) && Untouched(before, now, o);
    }
  }
}
