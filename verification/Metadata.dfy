/** The metadata modules: `Ima` packs attributes into one JSON attribute, `Default` stores each on its own. */
module Metadata {
  import opened Rados
  import opened Text

  const STORAGE_ATTRIBUTE := "ima"

  /** Names of attributes and keywords other than the storage attribute itself. */
  type Key = s: string | NUL !in s && s != STORAGE_ATTRIBUTE witness ""

  const KEYWORDS: Key := "K"

  type Attrs = map<Key, string>

  /** A value of the JSON object; texts in it end at the first NUL. */
  datatype Json = Str(s: string) | Obj(m: map<Key, string>)

  /** A mail object under `Ima`: the value of the storage attribute, the other attributes, the omap. */
  datatype Stored = Stored(json: Option<map<Key, Json>>, xattrs: Attrs, omap: Attrs)

  /** Attributes and keywords; also the mail object under `Default`. */
  datatype Mail = Mail(attrs: Attrs, ext: Attrs)

  datatype Cfg = Cfg(updateable: set<char>, update: bool)

  predicate Updateable(cfg: Cfg, k: Key) { k != "" && k[0] in cfg.updateable }

  predicate InJson(cfg: Cfg, k: Key) { !Updateable(cfg, k) || !cfg.update }

  // ----- Ima -----

  function Texts(a: Attrs): map<Key, string> { map k | k in a :: CStr(a[k]) }

  function PackedAttrs(cfg: Cfg, a: Attrs): map<Key, Json> { map k | k in a && InJson(cfg, k) :: Str(CStr(a[k])) }

  function PackedKeywords(cfg: Cfg, ext: Attrs): map<Key, Json> {
    if ext != map[] && InJson(cfg, KEYWORDS) then map[KEYWORDS := Obj(Texts(ext))] else map[]
  }

  function Packed(cfg: Cfg, m: Mail): map<Key, Json> { PackedAttrs(cfg, m.attrs) + PackedKeywords(cfg, m.ext) }

  function Apart(cfg: Cfg, a: Attrs): Attrs { map k | k in a && !InJson(cfg, k) :: a[k] }

  function Saved(cfg: Cfg, o: Stored, m: Mail): Stored {
    Stored(Some(Packed(cfg, m)), o.xattrs + Apart(cfg, m.attrs),
           if InJson(cfg, KEYWORDS) then o.omap else o.omap + m.ext)
  }

  function UnpackedAttrs(json: map<Key, Json>): Attrs {
    map k | k in json && k != KEYWORDS && json[k].Str? :: json[k].s
  }

  function UnpackedKeywords(json: map<Key, Json>): Attrs {
    if KEYWORDS in json && json[KEYWORDS].Obj? then json[KEYWORDS].m else map[]
  }

  function Unpacked(json: Option<map<Key, Json>>): Mail {
    if json.None? then Mail(map[], map[]) else Mail(UnpackedAttrs(json.value), UnpackedKeywords(json.value))
  }

  /** A fresh load: attributes on their own override the packed ones; an omap that is read replaces the packed
      keywords. */
  function Loaded(cfg: Cfg, o: Stored): Mail {
    Mail(Unpacked(o.json).attrs + o.xattrs, if Updateable(cfg, KEYWORDS) then o.omap else Unpacked(o.json).ext)
  }

  /** `set_metadata` with the attributes of `m` in memory. */
  function Changed(cfg: Cfg, o: Stored, m: Mail, k: Key, v: string): Stored {
    if Updateable(cfg, k) then o.(xattrs := o.xattrs[k := v]) else Saved(cfg, o, m.(attrs := m.attrs[k := v]))
  }

  // ----- Default -----

  function DefaultSaved(o: Mail, m: Mail): Mail { Mail(o.attrs + m.attrs, o.ext + m.ext) }

  function DefaultChanged(o: Mail, k: Key, v: string): Mail { o.(attrs := o.attrs[k := v]) }

  // ----- equality of values as C strings -----

  function Look(a: Attrs, k: Key): Option<string> { if k in a then Some(CStr(a[k])) else None }

  ghost predicate Same(a: Attrs, b: Attrs) { forall k :: Look(a, k) == Look(b, k) }

  const EMPTY: Stored := Stored(None, map[], map[])
  const NO_MAIL: Mail := Mail(map[], map[])

  predicate KeywordsKept(cfg: Cfg) { !Updateable(cfg, KEYWORDS) || cfg.update }

  lemma LookTexts(a: Attrs, k: Key)
    ensures Look(Texts(a), k) == Look(a, k)
  {
  }

  /** What a fresh load finds under `j` after a save. */
  lemma LookSaved(cfg: Cfg, o: Stored, m: Mail, j: Key)
    requires j != KEYWORDS
    ensures Look(Loaded(cfg, Saved(cfg, o, m)).attrs, j) ==
            if j in m.attrs && !InJson(cfg, j) then Look(m.attrs, j)
            else if j in o.xattrs then Look(o.xattrs, j)
            else Look(m.attrs, j)
  {
    var p := Packed(cfg, m);
    assert j in p <==> j in PackedAttrs(cfg, m.attrs);
    assert j in UnpackedAttrs(p) <==> j in m.attrs && InJson(cfg, j);
  }

  /** Keywords in the JSON object are unpacked as the texts they were. */
  lemma KeywordsUnpacked(cfg: Cfg, m: Mail)
    requires InJson(cfg, KEYWORDS)
    ensures UnpackedKeywords(Packed(cfg, m)) == Texts(m.ext)
  {
    if m.ext == map[] && KEYWORDS in m.attrs {
      assert Packed(cfg, m)[KEYWORDS] == PackedAttrs(cfg, m.attrs)[KEYWORDS];
    }
  }

  lemma KeywordsSaved(cfg: Cfg, o: Stored, m: Mail)
    ensures Same(Loaded(cfg, Saved(cfg, o, m)).ext,
                 if !Updateable(cfg, KEYWORDS) then m.ext else if cfg.update then o.omap + m.ext else o.omap)
  {
    if !Updateable(cfg, KEYWORDS) {
      KeywordsUnpacked(cfg, m);
      forall k ensures Look(Texts(m.ext), k) == Look(m.ext, k) { LookTexts(m.ext, k); }
    }
  }

  /** Where a save puts an attribute: on its own if its letter is updateable and updates are on, else into the JSON
      object as a C string. */
  lemma SavedLayout(cfg: Cfg, o: Stored, m: Mail, k: Key)
    requires k in m.attrs && k != "K"
    ensures var s := Saved(cfg, o, m);
            if k != "" && k[0] in cfg.updateable && cfg.update
            then k in s.xattrs && s.xattrs[k] == m.attrs[k] && k !in s.json.value
            else k in s.json.value && s.json.value[k] == Str(CStr(m.attrs[k]))
                 && (k in s.xattrs <==> k in o.xattrs) && (k in o.xattrs ==> s.xattrs[k] == o.xattrs[k])
  {
    assert k in Packed(cfg, m) <==> k in PackedAttrs(cfg, m.attrs);
  }

  /** The keywords go to the omap or, as C strings, into the JSON object under K. */
  lemma KeywordsLayout(cfg: Cfg, o: Stored, m: Mail)
    requires m.ext != map[]
    ensures var s := Saved(cfg, o, m);
            if 'K' in cfg.updateable && cfg.update then s.omap == o.omap + m.ext
            else s.omap == o.omap && "K" in s.json.value && s.json.value["K"] == Obj(Texts(m.ext))
  {
  }

  // ----- one step -----

  /** The two modules hold the same mail, and only updateable attributes are stored on their own. */
  ghost predicate Agree(cfg: Cfg, o: Stored, d: Mail) {
    && (forall k :: k in o.xattrs ==> Updateable(cfg, k) && k != KEYWORDS)
    && KEYWORDS !in d.attrs
    && Same(Loaded(cfg, o).attrs, d.attrs) && Same(Loaded(cfg, o).ext, d.ext)
  }

  lemma NoKeywordAttr(cfg: Cfg, o: Stored)
    requires KEYWORDS !in o.xattrs
    ensures KEYWORDS !in Loaded(cfg, o).attrs
  {
  }

  /** Saving a new mail: everything agrees, except that keywords are lost when they are updateable and updates are
      off. */
  lemma SaveAgreesIff(cfg: Cfg, m: Mail)
    requires KEYWORDS !in m.attrs
    ensures Agree(cfg, Saved(cfg, EMPTY, m), DefaultSaved(NO_MAIL, m)) <==> KeywordsKept(cfg) || m.ext == map[]
    ensures Same(Loaded(cfg, Saved(cfg, EMPTY, m)).attrs, m.attrs)
  {
    DefaultSavedNew(m);
    SaveAttrs(cfg, m);
    SaveKeywordsIff(cfg, m);
  }

  lemma DefaultSavedNew(m: Mail)
    ensures DefaultSaved(NO_MAIL, m) == m
  {
    Nothing(m.ext);
    Nothing(m.attrs);
  }

  lemma SaveAttrs(cfg: Cfg, m: Mail)
    requires KEYWORDS !in m.attrs
    ensures var o := Saved(cfg, EMPTY, m);
            Same(Loaded(cfg, o).attrs, m.attrs) && forall k :: k in o.xattrs ==> Updateable(cfg, k) && k != KEYWORDS
  {
    forall j ensures Look(Loaded(cfg, Saved(cfg, EMPTY, m)).attrs, j) == Look(m.attrs, j) { SavedAt(cfg, m, j); }
  }

  lemma SaveKeywordsIff(cfg: Cfg, m: Mail)
    ensures Same(Loaded(cfg, Saved(cfg, EMPTY, m)).ext, m.ext) <==> KeywordsKept(cfg) || m.ext == map[]
  {
    KeywordsSaved(cfg, EMPTY, m);
    Nothing(m.ext);
    if !KeywordsKept(cfg) && m.ext != map[] {
      var k :| k in m.ext;
      assert Look(m.ext, k) != Look(map[], k);
    }
  }

  lemma SavedAt(cfg: Cfg, m: Mail, j: Key)
    requires KEYWORDS !in m.attrs
    ensures Look(Loaded(cfg, Saved(cfg, EMPTY, m)).attrs, j) == Look(m.attrs, j)
  {
    if j == KEYWORDS { NoKeywordAttr(cfg, Saved(cfg, EMPTY, m)); } else { LookSaved(cfg, EMPTY, m, j); }
  }

  /** Stored on its own and not rewritten, or the same in memory. */
  ghost predicate Preserved(cfg: Cfg, o: Stored, m: Mail, j: Key) {
    || (j in o.xattrs && (InJson(cfg, j) || j !in m.attrs))
    || Look(m.attrs, j) == Look(Loaded(cfg, o).attrs, j)
  }

  /**
   * One `set_metadata` with any attributes in memory. Setting an updateable attribute always agrees. Setting another
   * one agrees iff no older value stored on its own hides it, and the attributes in memory that are written back
   * are not stale.
   */
  lemma ChangeAgreesIff(cfg: Cfg, o: Stored, d: Mail, m: Mail, k: Key, v: string)
    requires Same(Loaded(cfg, o).attrs, d.attrs) && KEYWORDS !in o.xattrs && KEYWORDS !in m.attrs && k != KEYWORDS
    ensures Same(Loaded(cfg, Changed(cfg, o, m, k, v)).attrs, DefaultChanged(d, k, v).attrs) <==>
            || Updateable(cfg, k)
            || ((k in o.xattrs ==> CStr(o.xattrs[k]) == CStr(v)) && forall j :: j != k ==> Preserved(cfg, o, m, j))
  {
    var a, b := Loaded(cfg, Changed(cfg, o, m, k, v)).attrs, DefaultChanged(d, k, v).attrs;
    if Updateable(cfg, k) {
      forall j ensures Look(a, j) == Look(b, j) { UpdatedAt(cfg, o, d, m, k, v, j); }
    } else if Same(a, b) {
      ChangedAt(cfg, o, d, m, k, v, k);
      forall j | j != k ensures Preserved(cfg, o, m, j) { ChangedAt(cfg, o, d, m, k, v, j); }
    } else {
      var j :| Look(a, j) != Look(b, j);
      ChangedAt(cfg, o, d, m, k, v, j);
    }
  }

  lemma UpdatedAt(cfg: Cfg, o: Stored, d: Mail, m: Mail, k: Key, v: string, j: Key)
    requires Look(Loaded(cfg, o).attrs, j) == Look(d.attrs, j) && Updateable(cfg, k)
    ensures Look(Loaded(cfg, Changed(cfg, o, m, k, v)).attrs, j) == Look(DefaultChanged(d, k, v).attrs, j)
  {
    MergeStep(Unpacked(o.json).attrs, o.xattrs, k, v);
  }

  lemma ChangedAt(cfg: Cfg, o: Stored, d: Mail, m: Mail, k: Key, v: string, j: Key)
    requires Look(Loaded(cfg, o).attrs, j) == Look(d.attrs, j) && !Updateable(cfg, k)
    requires KEYWORDS !in o.xattrs && KEYWORDS !in m.attrs && k != KEYWORDS
    ensures Look(Loaded(cfg, Changed(cfg, o, m, k, v)).attrs, j) == Look(DefaultChanged(d, k, v).attrs, j) <==>
            if j == k then k in o.xattrs ==> CStr(o.xattrs[k]) == CStr(v) else Preserved(cfg, o, m, j)
  {
    if j == KEYWORDS {
      NoKeywordAttr(cfg, o);
      NoKeywordAttr(cfg, Changed(cfg, o, m, k, v));
    } else {
      LookSaved(cfg, o, m.(attrs := m.attrs[k := v]), j);
    }
  }

  /** With a mail that was just loaded, only a value hidden by an older one can go wrong. */
  lemma FreshChangeAgreesIff(cfg: Cfg, o: Stored, d: Mail, k: Key, v: string)
    requires Same(Loaded(cfg, o).attrs, d.attrs) && KEYWORDS !in o.xattrs && k != KEYWORDS
    ensures Same(Loaded(cfg, Changed(cfg, o, Loaded(cfg, o), k, v)).attrs, DefaultChanged(d, k, v).attrs) <==>
            Updateable(cfg, k) || k !in o.xattrs || CStr(o.xattrs[k]) == CStr(v)
  {
    NoKeywordAttr(cfg, o);
    ChangeAgreesIff(cfg, o, d, Loaded(cfg, o), k, v);
    assert forall j :: Preserved(cfg, o, Loaded(cfg, o), j);
  }

  lemma FreshChangeAgrees(cfg: Cfg, o: Stored, d: Mail, k: Key, v: string)
    requires Agree(cfg, o, d) && k != KEYWORDS
    ensures Agree(cfg, Changed(cfg, o, Loaded(cfg, o), k, v), DefaultChanged(d, k, v))
  {
    var o' := Changed(cfg, o, Loaded(cfg, o), k, v);
    FreshChangeAgreesIff(cfg, o, d, k, v);
    KeywordsUntouched(cfg, o, k, v);
    forall j ensures Look(Loaded(cfg, o').ext, j) == Look(d.ext, j) {
      assert Look(Loaded(cfg, o').ext, j) == Look(Loaded(cfg, o).ext, j);
    }
  }

  /** Changing an attribute of a mail just loaded keeps its keywords. */
  lemma KeywordsUntouched(cfg: Cfg, o: Stored, k: Key, v: string)
    ensures Same(Loaded(cfg, Changed(cfg, o, Loaded(cfg, o), k, v)).ext, Loaded(cfg, o).ext)
  {
    if !Updateable(cfg, k) {
      var m := Loaded(cfg, o);
      KeywordsSaved(cfg, o, m.(attrs := m.attrs[k := v]));
      if Updateable(cfg, KEYWORDS) { assert o.omap + m.ext == o.omap; }
    }
  }

  /** A configuration with more updateable attributes. */
  predicate Grows(cfg: Cfg, cfg': Cfg) {
    && cfg.updateable <= cfg'.updateable && cfg.update == cfg'.update
    && (Updateable(cfg, KEYWORDS) <==> Updateable(cfg', KEYWORDS))
  }

  lemma GrowthAgrees(cfg: Cfg, cfg': Cfg, o: Stored, d: Mail)
    requires Agree(cfg, o, d) && Grows(cfg, cfg')
    ensures Agree(cfg', o, d)
  {
    assert Loaded(cfg', o) == Loaded(cfg, o);
  }

  // ----- runs -----

  datatype Change = Change(cfg: Cfg, key: Key, value: string)

  function ImaRun(o: Stored, cs: seq<Change>): Stored {
    if cs == [] then o
    else
      var before, c := ImaRun(o, cs[..|cs| - 1]), cs[|cs| - 1];
      Changed(c.cfg, before, Loaded(c.cfg, before), c.key, c.value)
  }

  function DefaultRun(d: Mail, cs: seq<Change>): Mail {
    if cs == [] then d else DefaultChanged(DefaultRun(d, cs[..|cs| - 1]), cs[|cs| - 1].key, cs[|cs| - 1].value)
  }

  /** The value a key was last set to, or the one it had. */
  function LastSet(cs: seq<Change>, k: Key, before: Option<string>): Option<string> {
    if cs == [] then before
    else if cs[|cs| - 1].key == k then Some(CStr(cs[|cs| - 1].value))
    else LastSet(cs[..|cs| - 1], k, before)
  }

  /** After any changes the Default module holds, for every key, the value it was last set to, and the keywords as
      saved. */
  lemma {:induction false} DefaultHoldsLastSet(d: Mail, cs: seq<Change>, k: Key)
    ensures Look(DefaultRun(d, cs).attrs, k) == LastSet(cs, k, Look(d.attrs, k))
    ensures DefaultRun(d, cs).ext == d.ext
  {
    if cs != [] { DefaultHoldsLastSet(d, cs[..|cs| - 1], k); }
  }

  predicate Growing(cfg: Cfg, cs: seq<Change>) {
    && (forall i :: 0 <= i < |cs| ==> cs[i].key != KEYWORDS)
    && (cs != [] ==> Grows(cfg, cs[0].cfg))
    && (forall i :: 0 < i < |cs| ==> Grows(cs[i - 1].cfg, cs[i].cfg))
  }

  function LastCfg(cfg: Cfg, cs: seq<Change>): Cfg { if cs == [] then cfg else cs[|cs| - 1].cfg }

  lemma {:induction false} RunAgrees(cfg: Cfg, o: Stored, d: Mail, cs: seq<Change>)
    requires Agree(cfg, o, d) && Growing(cfg, cs)
    ensures Agree(LastCfg(cfg, cs), ImaRun(o, cs), DefaultRun(d, cs))
  {
    if cs != [] {
      var n := |cs| - 1;
      RunAgrees(cfg, o, d, cs[..n]);
      GrowthAgrees(LastCfg(cfg, cs[..n]), cs[n].cfg, ImaRun(o, cs[..n]), DefaultRun(d, cs[..n]));
      FreshChangeAgrees(cs[n].cfg, ImaRun(o, cs[..n]), DefaultRun(d, cs[..n]), cs[n].key, cs[n].value);
    }
  }

  /** `Ima` refines `Default`: a save and any changes, while attributes may become updateable, then a fresh load. */
  lemma ImaRefinesDefault(cfg: Cfg, m: Mail, cs: seq<Change>)
    requires KEYWORDS !in m.attrs && Growing(cfg, cs) && (KeywordsKept(cfg) || m.ext == map[])
    ensures var mail := Loaded(LastCfg(cfg, cs), ImaRun(Saved(cfg, EMPTY, m), cs));
            var reference := DefaultRun(DefaultSaved(NO_MAIL, m), cs);
            && Same(mail.attrs, reference.attrs) && Same(mail.ext, reference.ext)
            && forall k :: Look(mail.attrs, k) == LastSet(cs, k, Look(m.attrs, k))
  {
    DefaultSavedNew(m);
    forall k ensures Look(DefaultRun(m, cs).attrs, k) == LastSet(cs, k, Look(m.attrs, k)) {
      DefaultHoldsLastSet(m, cs, k);
    }
    SaveAgreesIff(cfg, m);
    RunAgrees(cfg, Saved(cfg, EMPTY, m), DefaultSaved(NO_MAIL, m), cs);
  }

  /** Keywords that are updateable while updates are off are saved and cannot be loaded again. */
  lemma KeywordsLost()
    ensures var cfg, m := Cfg({'K'}, false), Mail(map[], map["0" := "seen"]);
            Look(Loaded(cfg, Saved(cfg, EMPTY, m)).ext, "0") == None && Look(m.ext, "0") == Some("seen")
  {
  }

  /** An attribute that stops being updateable keeps its old value for every reader. */
  lemma ShrinkingHidesChange(k: Key, v: string, w: string)
    requires k != "" && k[0] != 'K' && CStr(v) != CStr(w)
    ensures var before, after := Cfg({k[0]}, true), Cfg({}, true);
            var o := Saved(before, EMPTY, Mail(map[k := v], map[]));
            Look(Loaded(after, Changed(after, o, Loaded(after, o), k, w)).attrs, k) == Some(CStr(v))
  {
    var before, after := Cfg({k[0]}, true), Cfg({}, true);
    var o := Saved(before, EMPTY, Mail(map[k := v], map[]));
    assert o.xattrs[k] == v;
    LookSaved(after, o, Loaded(after, o).(attrs := Loaded(after, o).attrs[k := w]), k);
  }

  /** A mail kept in memory undoes the change of an updateable attribute when another attribute is set. */
  lemma StaleMailUndoesChange(k: Key, j: Key, v: string, w: string, x: string)
    requires k != "" && j != "" && k[0] != j[0] && j[0] != 'K' && k[0] != 'K'
    ensures var cfg, m := Cfg({j[0]}, true), Mail(map[j := v], map[]);
            var o := Changed(cfg, Saved(cfg, EMPTY, m), m, j, w);
            Look(Loaded(cfg, o).attrs, j) == Some(CStr(w))
                && Look(Loaded(cfg, Changed(cfg, o, m, k, x)).attrs, j) == Some(CStr(v))
  {
    var cfg, m := Cfg({j[0]}, true), Mail(map[j := v], map[]);
    var o := Changed(cfg, Saved(cfg, EMPTY, m), m, j, w);
    LookUpdated(cfg, Saved(cfg, EMPTY, m), m, j, w);
    LookSaved(cfg, o, m.(attrs := m.attrs[k := x]), j);
  }

  lemma LookUpdated(cfg: Cfg, o: Stored, m: Mail, j: Key, w: string)
    requires Updateable(cfg, j)
    ensures Look(Loaded(cfg, Changed(cfg, o, m, j, w)).attrs, j) == Some(CStr(w))
  {
  }

  // ----- the modules as they run -----

  class RadosMail {
    var attrs: Attrs
    var ext: Attrs
    constructor () ensures attrs == map[] && ext == map[] { attrs, ext := map[], map[]; }
    function Value(): Mail reads this { Mail(attrs, ext) }
  }

  datatype WriteOp = WriteOp(json: map<Key, Json>, xattrs: Attrs, omap: Attrs)

  function Operate(o: Stored, op: WriteOp): Stored { Stored(Some(op.json), o.xattrs + op.xattrs, o.omap + op.omap) }

  // Walking over a map: what is still to do shrinks key by key.

  lemma Restore<V>(m: map<Key, V>, todo: set<Key>, key: Key)
    requires key in todo && todo <= m.Keys
    ensures m - (todo - {key}) == (m - todo)[key := m[key]]
  {
  }

  lemma MergeStep<V>(base: map<Key, V>, m: map<Key, V>, key: Key, v: V)
    ensures base + m[key := v] == (base + m)[key := v]
  {
  }

  lemma PackStep(cfg: Cfg, a: Attrs, key: Key, v: string)
    ensures PackedAttrs(cfg, a[key := v]) == if InJson(cfg, key) then PackedAttrs(cfg, a)[key := Str(CStr(v))]
              else PackedAttrs(cfg, a)
    ensures Apart(cfg, a[key := v]) == if InJson(cfg, key) then Apart(cfg, a) else Apart(cfg, a)[key := v]
  {
  }

  lemma UnpackStep(root: map<Key, Json>, key: Key, v: Json)
    requires key !in root
    ensures UnpackedAttrs(root[key := v]) == if key != KEYWORDS && v.Str? then UnpackedAttrs(root)[key := v.s]
              else UnpackedAttrs(root)
    ensures UnpackedKeywords(root[key := v]) == if key == KEYWORDS && v.Obj? then v.m else UnpackedKeywords(root)
  {
  }

  lemma Nothing<V>(m: map<Key, V>)
    ensures m - {} == m && m - m.Keys == map[] && m + map[] == m && map[] + m == m
  {
  }

  method Merge(base: Attrs, more: Attrs) returns (merged: Attrs)
    ensures merged == base + more
  {
    merged := base;
    var todo := more.Keys;
    Nothing(more);
    Nothing(base);
    while todo != {}
      invariant todo <= more.Keys && merged == base + (more - todo)
    {
      var key :| key in todo;
      Restore(more, todo, key);
      MergeStep(base, more - todo, key, more[key]);
      merged := merged[key := more[key]];
      todo := todo - {key};
    }
  }

  class Ima {
    var cfg: Cfg
    var stored: Stored

    /** `parse_attribute` for a mail without keywords */
    method ParseAttribute(mail: RadosMail, root: map<Key, Json>)
      modifies mail
      ensures mail.attrs == old(mail.attrs) + UnpackedAttrs(root)
      ensures old(mail.ext) == map[] ==> mail.ext == UnpackedKeywords(root)
    {
      var attrs, ext := mail.attrs, mail.ext;
      var todo := root.Keys;
      Nothing(root);
      Nothing(attrs);
      while todo != {}
        invariant todo <= root.Keys
        invariant attrs == old(mail.attrs) + UnpackedAttrs(root - todo)
        invariant old(mail.ext) == map[] ==> ext == UnpackedKeywords(root - todo)
      {
        var key :| key in todo;
        Restore(root, todo, key);
        UnpackStep(root - todo, key, root[key]);
        if key == KEYWORDS {
          if root[key].Obj? { ext := Merge(ext, root[key].m); Nothing(root[key].m); }
        } else if root[key].Str? {
          MergeStep(old(mail.attrs), UnpackedAttrs(root - todo), key, root[key].s);
          attrs := attrs[key := root[key].s];
        }
        todo := todo - {key};
      }
      mail.attrs, mail.ext := attrs, ext;
    }

    /** `load_metadata`: a mail that has attributes is taken as loaded. */
    method LoadMetadata(mail: RadosMail)
      modifies mail
      ensures old(mail.attrs) != map[] ==> mail.Value() == old(mail.Value())
      ensures old(mail.attrs) == map[] && old(mail.ext) == map[] ==> mail.Value() == Loaded(cfg, stored)
    {
      if |mail.attrs| > 0 { return; }
      if stored.json.Some? {
        ParseAttribute(mail, stored.json.value);
        Nothing(UnpackedAttrs(stored.json.value));
      }
      mail.attrs := Merge(mail.attrs, stored.xattrs);
      if Updateable(cfg, KEYWORDS) { mail.ext := stored.omap; }
    }

    /** `save_metadata` */
    method SaveMetadata(mail: RadosMail) returns (op: WriteOp)
      ensures forall o :: Operate(o, op) == Saved(cfg, o, mail.Value())
    {
      var root, xattrs := PackAttrs(mail.attrs);
      Nothing(root);
      var omap: Attrs := map[];
      if |mail.ext| > 0 {
        if !Updateable(cfg, KEYWORDS) || !cfg.update {
          var keyword := PackKeywords(mail.ext);
          MergeStep(root, map[], KEYWORDS, Obj(keyword));
          root := root[KEYWORDS := Obj(keyword)];
        } else {
          omap := mail.ext;
        }
      }
      op := WriteOp(root, xattrs, omap);
      forall o ensures Operate(o, op) == Saved(cfg, o, mail.Value()) { Nothing(o.omap); }
    }

    method PackAttrs(a: Attrs) returns (root: map<Key, Json>, xattrs: Attrs)
      ensures root == PackedAttrs(cfg, a) && xattrs == Apart(cfg, a)
    {
      root, xattrs := map[], map[];
      var todo := a.Keys;
      Nothing(a);
      while todo != {}
        invariant todo <= a.Keys && root == PackedAttrs(cfg, a - todo) && xattrs == Apart(cfg, a - todo)
      {
        var key :| key in todo;
        Restore(a, todo, key);
        PackStep(cfg, a - todo, key, a[key]);
        if !Updateable(cfg, key) || !cfg.update {
          root := root[key := Str(CStr(a[key]))];
        } else {
          xattrs := xattrs[key := a[key]];
        }
        todo := todo - {key};
      }
    }

    method PackKeywords(ext: Attrs) returns (keyword: map<Key, string>)
      ensures keyword == Texts(ext)
    {
      keyword := map[];
      var todo := ext.Keys;
      Nothing(ext);
      while todo != {}
        invariant todo <= ext.Keys && keyword == Texts(ext - todo)
      {
        var key :| key in todo;
        Restore(ext, todo, key);
        keyword := keyword[key := CStr(ext[key])];
        todo := todo - {key};
      }
    }

    /** `set_metadata` */
    method SetMetadata(mail: RadosMail, key: Key, value: string)
      modifies this`stored, mail
      ensures stored == Changed(cfg, old(stored), old(mail.Value()), key, value)
      ensures mail.ext == old(mail.ext)
      ensures mail.attrs == if Updateable(cfg, key) then old(mail.attrs) else old(mail.attrs)[key := value]
    {
      if !Updateable(cfg, key) {
        mail.attrs := mail.attrs[key := value];
        var op := SaveMetadata(mail);
        stored := Operate(stored, op);
      } else {
        stored := stored.(xattrs := stored.xattrs[key := value]);
      }
    }
  }

  class Default {
    var stored: Mail

    method LoadMetadata(mail: RadosMail)
      modifies mail
      ensures mail.Value() == stored
    {
      mail.attrs := stored.attrs;
      mail.ext := stored.ext;
    }

    method SaveMetadata(mail: RadosMail)
      modifies this
      ensures stored == DefaultSaved(old(stored), mail.Value())
    {
      var attrs := Merge(stored.attrs, mail.attrs);
      Nothing(stored.ext);
      stored := Mail(attrs, if |mail.ext| > 0 then stored.ext + mail.ext else stored.ext);
    }

    method SetMetadata(mail: RadosMail, key: Key, value: string)
      modifies this, mail
      ensures stored == DefaultChanged(old(stored), key, value)
      ensures mail.Value() == old(mail.Value()).(attrs := old(mail.attrs)[key := value])
    {
      mail.attrs := mail.attrs[key := value];
      stored := stored.(attrs := stored.attrs[key := value]);
    }
  }
}
