/** Records and objects after a successful rebuild, over the visited mailboxes and over all mailboxes. */
module RebuildRecords {
  import opened Rados
  import opened Rebuild
  import opened RebuildPasses

  // ----- the visited mailboxes -----

  /** An object is named by at most one record of all visited mailboxes. */
  lemma ExactlyOneRecord(objects: map<Oid, Attrs>, valid: set<Oid>, indexes: map<BoxId, MailIndex>, boxes: seq<BoxId>,
                         g: BoxId, i: nat, h: BoxId, j: nat)
    requires Complete(objects, valid, indexes, boxes) && g in boxes && h in boxes
    requires i < |indexes[g].entries| && j < |indexes[h].entries|
    requires indexes[g].entries[i].oid == indexes[h].entries[j].oid
    ensures g == h && i == j
  {
    assert IndexComplete(objects, valid, g, indexes[g].entries) && IndexComplete(objects, valid, h, indexes[h].entries);
    assert RecordOk(objects, g, indexes[g].entries[i]) && RecordOk(objects, h, indexes[h].entries[j]);
  }

  // ----- all mailboxes -----

  predicate SameOid(indexes: map<BoxId, MailIndex>, boxes: set<BoxId>, g: BoxId, i: nat, h: BoxId, j: nat) {
    && g in boxes && g in indexes && i < |indexes[g].entries|
    && h in boxes && h in indexes && j < |indexes[h].entries|
    && indexes[g].entries[i].oid == indexes[h].entries[j].oid
  }

  /** No two records of the mailboxes `boxes` name the same object. */
  ghost predicate NamedOnce(indexes: map<BoxId, MailIndex>, boxes: set<BoxId>) {
    forall g, i: nat, h, j: nat :: SameOid(indexes, boxes, g, i, h, j) ==> g == h && i == j
  }

  /** No record of a mailbox outside `boxes` names an object of `valid`. */
  ghost predicate NoneStale(indexes: map<BoxId, MailIndex>, valid: set<Oid>, boxes: seq<BoxId>) {
    forall g, i :: g in indexes && g !in boxes && 0 <= i < |indexes[g].entries| ==> indexes[g].entries[i].oid !in valid
  }

  function Unvisited(indexes: map<BoxId, MailIndex>, boxes: seq<BoxId>): set<BoxId> {
    set g | g in indexes && g !in boxes
  }

  /**
   A rebuild that restores every mail leaves each object named once over all mailboxes iff no record of an unvisited
   mailbox named a valid object before: such a mail is restored elsewhere and keeps its old record too.
   */
  lemma NamedOnceIff(objects: map<Oid, Attrs>, objects': map<Oid, Attrs>, valid: set<Oid>,
                     indexes: map<BoxId, MailIndex>, indexes': map<BoxId, MailIndex>, boxes: seq<BoxId>,
                     inbox: Option<BoxId>)
    requires Rebuilt(objects, objects', valid, indexes, indexes', boxes, inbox)
    requires NamedOnce(indexes, Unvisited(indexes, boxes))
    ensures NamedOnce(indexes', indexes'.Keys) <==> NoneStale(indexes, valid, boxes)
  {
    if NamedOnce(indexes', indexes'.Keys) {
      forall g, i | g in indexes && g !in boxes && 0 <= i < |indexes[g].entries|
        ensures indexes[g].entries[i].oid !in valid
      {
        if indexes[g].entries[i].oid in valid { NamedTwice(objects', valid, indexes, indexes', boxes, g, i); }
      }
    }
    if NoneStale(indexes, valid, boxes) {
      forall g, i: nat, h, j: nat | SameOid(indexes', indexes'.Keys, g, i, h, j)
        ensures g == h && i == j
      {
        OnlyRecord(objects', valid, indexes, indexes', boxes, g, i, h, j);
      }
    }
  }

  lemma OnlyRecord(objects: map<Oid, Attrs>, valid: set<Oid>, indexes: map<BoxId, MailIndex>,
                   indexes': map<BoxId, MailIndex>, boxes: seq<BoxId>, g: BoxId, i: nat, h: BoxId, j: nat)
    requires Complete(objects, valid, indexes', boxes) && AllUidsOk(indexes, indexes', boxes)
    requires NamedOnce(indexes, Unvisited(indexes, boxes)) && NoneStale(indexes, valid, boxes)
    requires SameOid(indexes', indexes'.Keys, g, i, h, j)
    ensures g == h && i == j
  {
    if g in boxes { VisitedNamesValid(objects, valid, indexes', boxes, g, i); }
    if h in boxes { VisitedNamesValid(objects, valid, indexes', boxes, h, j); }
    if g in boxes && h in boxes {
      ExactlyOneRecord(objects, valid, indexes', boxes, g, i, h, j);
    } else {
      assert SameOid(indexes, Unvisited(indexes, boxes), g, i, h, j);
    }
  }

  lemma VisitedNamesValid(objects: map<Oid, Attrs>, valid: set<Oid>, indexes: map<BoxId, MailIndex>,
                          boxes: seq<BoxId>, g: BoxId, i: nat)
    requires Complete(objects, valid, indexes, boxes) && g in boxes && i < |indexes[g].entries|
    ensures indexes[g].entries[i].oid in valid
  {
    assert IndexComplete(objects, valid, g, indexes[g].entries);
  }

  lemma NamedTwice(objects: map<Oid, Attrs>, valid: set<Oid>, indexes: map<BoxId, MailIndex>,
                   indexes': map<BoxId, MailIndex>, boxes: seq<BoxId>, g: BoxId, i: nat)
    requires Complete(objects, valid, indexes', boxes) && AllUidsOk(indexes, indexes', boxes)
    requires g in indexes && g !in boxes && i < |indexes[g].entries| && indexes[g].entries[i].oid in valid
    ensures !NamedOnce(indexes', indexes'.Keys)
  {
    var o := indexes[g].entries[i].oid;
    assert HasRecord(objects, indexes', boxes, o);
    var h := objects[o][MAILBOX_GUID];
    var j :| 0 <= j < |indexes'[h].entries| && indexes'[h].entries[j].oid == o;
    assert SameOid(indexes', indexes'.Keys, g, i, h, j) && g != h;
  }

  // ----- a mailbox behind one that cannot be opened -----

  const MAIL: Attrs := map[MAIL_UID := "5", RECEIVED_TIME := "1", PHYSICAL_SIZE := "1", VIRTUAL_SIZE := "1",
                           MAILBOX_GUID := "b", MAIL_GUID := "g"]

  const NAMESPACES: seq<seq<Box>> :=
    [[Box("INBOX", "i", true, false, false, true)],
     [Box("X", "x", true, false, false, false), Box("B", "b", true, false, false, true)]]

  const INDEXES: map<BoxId, MailIndex> := map["i" := MailIndex([], 1, 7, 0), "b" := MailIndex([Entry(5, "o")], 6, 7, 0)]

  function Always(o: Oid, g: string): bool { true }

  /**
   INBOX is visited and X cannot be opened, so B behind it is not visited. Its mail is restored in INBOX, the rebuild
   returns 0, and both records name the object.
   */
  method MailRestoredTwice() returns (ret: int, indexes: map<BoxId, MailIndex>)
    ensures ret == 0 && "i" in indexes && "b" in indexes
    ensures Named(indexes["i"].entries, "o") && indexes["b"].entries == [Entry(5, "o")]
    ensures !NamedOnce(indexes, indexes.Keys)
  {
    var s := new Storage(map["o" := MAIL], INDEXES, "", Always, false, true);
    ThatVisits();
    ThatFinds();
    ret := RebuildInContext(s, NAMESPACES, 7, true);
    indexes := s.indexes;
    BothName(s.objects, indexes);
  }

  lemma ThatFinds()
    ensures FoundBy(false, map["o" := MAIL], "") == {"o"}
    ensures Succeeds(Always, map["o" := MAIL], {"o"}, ["i"], Some("i"), true)
  {
  }

  lemma BothName(objects: map<Oid, Attrs>, indexes: map<BoxId, MailIndex>)
    requires Rebuilt(map["o" := MAIL], objects, {"o"}, INDEXES, indexes, ["i"], Some("i"))
    ensures "i" in indexes && "b" in indexes
    ensures Named(indexes["i"].entries, "o") && indexes["b"].entries == [Entry(5, "o")]
    ensures !NamedOnce(indexes, indexes.Keys)
  {
    assert HasRecord(objects, indexes, ["i"], "o");
    assert "b" in INDEXES && "b" !in ["i"];
    NamedTwice(objects, {"o"}, INDEXES, indexes, ["i"], "b", 0);
  }

  lemma ThatVisits()
    ensures VisitedAll(NAMESPACES) == ["i"] && DefaultInbox(NAMESPACES) == Some("i")
  {
    var inbox, rest := NAMESPACES[0], NAMESPACES[1..];
    assert inbox[1..] == [] && rest[1..] == [];
    assert Visited(inbox) == ["i"] && Visited(rest[0]) == [];
    assert VisitedAll(rest) == [];
    FirstIsDefault(NAMESPACES);
  }

  /** A first namespace of one mailbox called INBOX. */
  lemma FirstIsDefault(nss: seq<seq<Box>>)
    requires nss != [] && nss[0] == [Box("INBOX", "i", true, false, false, true)]
    ensures DefaultInbox(nss) == Some("i")
  {
    assert Readable(nss[0]) && LastInbox(nss[0], 0);
    DefaultIsOne(nss, DefaultInbox(nss), Some("i"));
  }

  // ----- a mail that cannot be converted -----

  const INBOX_ONLY: seq<seq<Box>> := [[Box("INBOX", "i", true, false, false, true)]]

  function Never(o: Oid, g: string): bool { false }

  /** One valid mail of INBOX cannot be converted: the rebuild fails. */
  method UnconvertibleMailFails() returns (ret: int)
    ensures ret == -1
  {
    var objects := map["o" := MAIL[MAILBOX_GUID := "i"]];
    var s := new Storage(objects, map["i" := MailIndex([], 1, 7, 0)], "", Never, false, true);
    InboxVisited();
    assert "o" in FoundBy(false, objects, "") && Validate(objects["o"]);
    assert !ConvertsAttrs(Never, "o", objects["o"]);
    ret := RebuildInContext(s, INBOX_ONLY, 7, true);
  }

  lemma InboxVisited()
    ensures VisitedAll(INBOX_ONLY) == ["i"] && DefaultInbox(INBOX_ONLY) == Some("i")
  {
    assert INBOX_ONLY[0][1..] == [] && INBOX_ONLY[1..] == [];
    assert Visited(INBOX_ONLY[0]) == ["i"];
    FirstIsDefault(INBOX_ONLY);
  }

  // ----- no default mailbox -----

  const NO_INBOX: seq<seq<Box>> := [[Box("X", "x", true, false, false, true)]]

  /** There is no INBOX to take the mail of a mailbox that does not exist: the rebuild returns 0 and the mail has no
      record. */
  method LeftoverWithoutInbox() returns (ret: int, indexes: map<BoxId, MailIndex>)
    ensures ret == 0 && indexes.Keys == {"x"} && !Named(indexes["x"].entries, "o")
  {
    var s := new Storage(map["o" := MAIL], map["x" := MailIndex([], 1, 7, 0)], "", Always, false, true);
    OnlyXVisited();
    ret := RebuildInContext(s, NO_INBOX, 7, true);
    indexes := s.indexes;
    NotInX(s.objects, indexes);
  }

  /** The mail belongs to another mailbox, before and after. */
  lemma NotInX(objects: map<Oid, Attrs>, indexes: map<BoxId, MailIndex>)
    requires var o, i := map["o" := MAIL], map["x" := MailIndex([], 1, 7, 0)];
             Outcome(Always, FoundBy(false, o, ""), Stores(o, i, ""), Stores(objects, indexes, ""), ["x"], None, true,
                     0)
    ensures indexes.Keys == {"x"} && !Named(indexes["x"].entries, "o")
  {
    assert "x" in ["x"];
    assert RecordsFit(objects, "x", MailIndex([], 1, 7, 0), indexes["x"]);
  }

  lemma OnlyXVisited()
    ensures VisitedAll(NO_INBOX) == ["x"] && DefaultInbox(NO_INBOX) == None
  {
    assert NO_INBOX[0][1..] == [] && NO_INBOX[1..] == [];
    assert Visited(NO_INBOX[0]) == ["x"] && !HasInbox(NO_INBOX[0]);
    DefaultIsOne(NO_INBOX, DefaultInbox(NO_INBOX), None);
  }
}
