/** The save log: one printed line per operation, read back to undo it. */
module SaveLog {
  import opened Rados
  import opened Text

  /** An attribute and its stored bytes, which end with a NUL. */
  datatype Meta = Meta(key: string, bl: string)

  /** An attribute and its value. */
  datatype Attr = Attr(key: string, value: string)

  /** `convert`: the value is stored with its terminating NUL. */
  function Stored(a: Attr): Meta { Meta(a.key, a.value + [NUL]) }

  function AllStored(attrs: seq<Attr>): seq<Meta> { seq(|attrs|, i requires 0 <= i < |attrs| => Stored(attrs[i])) }

  datatype LogEntry = LogEntry(oid: string, ns: string, pool: string, op: string,
                               srcOid: string, srcNs: string, srcUser: string, metadata: seq<Meta>)

  const FRESH := LogEntry("", "", "", "", "", "", "", [])

  // ----- printing -----

  /** The stored bytes without the last one. */
  function Chopped(bl: string): string { if bl == "" then "" else bl[..|bl| - 1] }

  /** `to_string` of an attribute. */
  function MetaText(m: Meta): string { Join([m.key, Chopped(m.bl)], '=') }

  function MetaTexts(ms: seq<Meta>): seq<string> { seq(|ms|, i requires 0 <= i < |ms| => MetaText(ms[i])) }

  function Left(ns: string, oid: string, user: string): string { Join(["mv", ns, oid, user], ':') }

  /** `op_mv` */
  function OpMv(ns: string, oid: string, user: string, ms: seq<Meta>): string {
    Left(ns, oid, user) + [';'] + Join(MetaTexts(ms), ':')
  }

  function Line(e: LogEntry): string { Join([e.op, e.pool, e.ns, e.oid], ',') }

  function PrintAll(es: seq<LogEntry>): string {
    if es == [] then "" else Line(es[0]) + ['\n'] + PrintAll(es[1..])
  }

  /** An attribute is printed with all of its stored bytes but the last. */
  lemma MetaTextIs(key: string, value: string, last: char)
    ensures MetaText(Meta(key, value + [last])) == key + "=" + value
    ensures MetaText(Meta(key, "")) == key + "="
  {
    assert (value + [last])[..|value|] == value;
    JoinTwo(key, value, '=');
    JoinTwo(key, "", '=');
    assert key + ['='] + "" == key + "=";
  }

  lemma JoinTwo(a: string, b: string, sep: char)
    ensures Join([a, b], sep) == a + [sep] + b
  {
    assert [a, b][1..] == [b];
  }

  /** A printed line and a printed move. */
  lemma PrintedForms(e: LogEntry, ns: string, oid: string, user: string, ms: seq<Meta>)
    ensures Line(e) == e.op + "," + e.pool + "," + e.ns + "," + e.oid
    ensures OpMv(ns, oid, user, ms) == "mv:" + ns + ":" + oid + ":" + user + ";" + Join(MetaTexts(ms), ':')
  {
    JoinFour(e.op, e.pool, e.ns, e.oid, ',');
    JoinFour("mv", ns, oid, user, ':');
  }

  lemma JoinFour(a: string, b: string, c: string, d: string, sep: char)
    ensures Join([a, b, c, d], sep) == a + [sep] + b + [sep] + c + [sep] + d
  {
    assert [a, b, c, d][1..] == [b, c, d] && [b, c, d][1..] == [c, d];
    JoinTwo(c, d, sep);
    assert Join([b, c, d], sep) == b + [sep] + (c + [sep] + d);
    assert a + [sep] + (b + [sep] + (c + [sep] + d)) == a + [sep] + b + [sep] + c + [sep] + d;
  }

  // ----- reading -----

  /** `from_string` of an attribute. */
  function FromString(s: string): Option<Meta> {
    var ts := Tokens(s, '=');
    if |ts| != 2 then None else Some(Meta(ts[0], ts[1]))
  }

  /** The attributes up to the first malformed one, and whether there was none. */
  function ParseMetas(ts: seq<string>): (seq<Meta>, bool) {
    if ts == [] then ([], true)
    else
      var m := FromString(ts[0]);
      if m.None? then ([], false)
      else
        var rest := ParseMetas(ts[1..]);
        ([m.value] + rest.0, rest.1)
  }

  /** They are the parsed items before the first that cannot be parsed. */
  lemma {:induction false} ParsedPrefix(ts: seq<string>)
    ensures var (ms, ok) := ParseMetas(ts);
            && |ms| <= |ts| && (ok <==> |ms| == |ts|) && (!ok ==> FromString(ts[|ms|]).None?)
            && forall i :: 0 <= i < |ms| ==> FromString(ts[i]) == Some(ms[i])
  {
    if ts != [] { ParsedPrefix(ts[1..]); }
  }

  /** `parse_mv_op` on an entry that was just created. */
  function ParseMv(e: LogEntry): (LogEntry, bool) {
    var pos := Find(e.op, ';');
    if pos == |e.op| || pos == 0 then (e, false)
    else
      var ts := Tokens(e.op[..pos], ':');
      if |ts| < 4 then (e, false)
      else if ts[0] != "mv" then (e, true)
      else
        var ms := ParseMetas(Tokens(e.op[pos + 1..], ':'));
        (e.(srcNs := ts[1], srcOid := ts[2], srcUser := ts[3], metadata := e.metadata + ms.0), ms.1)
  }

  function ParseLine(line: string): Option<LogEntry> {
    var ts := Tokens(line, ',');
    if |ts| != 4 then None
    else Some(ParseMv(FRESH.(op := ts[0], pool := ts[1], ns := ts[2], oid := ts[3])).0)
  }

  /** The entries a reader gets before the end of the file or the first malformed line. */
  function ReadAll(s: string): seq<LogEntry>
    decreases |s|
  {
    var i := Find(s, '\n');
    if i == |s| then []
    else
      var e := ParseLine(s[..i]);
      if e.None? then [] else [e.value] + ReadAll(s[i + 1..])
  }

  // ----- items with separators -----

  /** Items survive printing and reading iff none holds the separator and the last is not empty. */
  lemma JoinedTokensIff(ts: seq<string>, sep: char)
    requires ts != []
    ensures Tokens(Join(ts, sep), sep) == ts <==> Free(ts, sep) && ts[|ts| - 1] != ""
  {
    if Tokens(Join(ts, sep), sep) == ts {
      TokensAvoid(Join(ts, sep), sep, sep);
      assert forall i :: 0 <= i < |ts| ==> ts[i] in ts;
      JoinedTokens(ts, sep);
    } else if Free(ts, sep) {
      JoinedTokens(ts, sep);
    }
  }

  lemma {:induction false} JoinAvoids(ts: seq<string>, sep: char, c: char)
    requires c != sep
    ensures c in Join(ts, sep) <==> exists i :: 0 <= i < |ts| && c in ts[i]
  {
    if |ts| > 1 {
      JoinAvoids(ts[1..], sep, c);
      if exists i :: 0 <= i < |ts| && c in ts[i] {
        var i :| 0 <= i < |ts| && c in ts[i];
        if i > 0 { assert c in ts[1..][i - 1]; }
      }
    }
  }

  // ----- attributes -----

  /** What a reader gets: the values without a NUL. */
  function AllRead(attrs: seq<Attr>): seq<Meta> {
    seq(|attrs|, i requires 0 <= i < |attrs| => Meta(attrs[i].key, attrs[i].value))
  }

  predicate CleanAttr(a: Attr) {
    '=' !in a.key && ':' !in a.key && '=' !in a.value && ':' !in a.value && a.value != ""
  }

  predicate CleanAttrs(attrs: seq<Attr>) { forall i :: 0 <= i < |attrs| ==> CleanAttr(attrs[i]) }

  /** An attribute is read back without its NUL iff neither key nor value holds a '=' and the value is not empty. */
  lemma MetaRoundTripIff(key: string, value: string)
    ensures FromString(MetaText(Meta(key, value + [NUL]))) == Some(Meta(key, value)) <==>
            '=' !in key && '=' !in value && value != ""
  {
    var ts := [key, value];
    MetaTextIs(key, value, NUL);
    JoinTwo(key, value, '=');
    JoinedTokensIff(ts, '=');
    var back := Tokens(Join(ts, '='), '=');
    if |back| == 2 { assert back == [back[0], back[1]]; }
    assert Free(ts, '=') <==> '=' !in ts[0] && '=' !in ts[1];
  }

  lemma {:induction false} ParseTexts(attrs: seq<Attr>)
    requires CleanAttrs(attrs)
    ensures ParseMetas(MetaTexts(AllStored(attrs))) == (AllRead(attrs), true)
  {
    if attrs != [] {
      ParseTexts(attrs[1..]);
      MetaRoundTripIff(attrs[0].key, attrs[0].value);
      TextsCons(attrs);
    } else {
      assert MetaTexts(AllStored(attrs)) == [] && AllRead(attrs) == [];
    }
  }

  lemma TextsCons(attrs: seq<Attr>)
    requires attrs != []
    ensures MetaTexts(AllStored(attrs)) == [MetaText(Stored(attrs[0]))] + MetaTexts(AllStored(attrs[1..]))
    ensures MetaTexts(AllStored(attrs))[1..] == MetaTexts(AllStored(attrs[1..]))
    ensures AllRead(attrs) == [Meta(attrs[0].key, attrs[0].value)] + AllRead(attrs[1..])
  {
  }

  lemma MetaTextAvoids(a: Attr)
    ensures ':' in MetaText(Stored(a)) <==> ':' in a.key || ':' in a.value
    ensures MetaText(Stored(a)) != ""
  {
    MetaTextIs(a.key, a.value, NUL);
    assert ':' in a.key + "=" + a.value <==> ':' in a.key || ':' in a.value;
  }

  lemma TextsTokens(attrs: seq<Attr>)
    requires forall i :: 0 <= i < |attrs| ==> ':' !in attrs[i].key && ':' !in attrs[i].value
    ensures Tokens(Join(MetaTexts(AllStored(attrs)), ':'), ':') == MetaTexts(AllStored(attrs))
  {
    var ts := MetaTexts(AllStored(attrs));
    forall i | 0 <= i < |attrs| ensures ':' !in ts[i] && ts[i] != "" { MetaTextAvoids(attrs[i]); }
    if attrs != [] { JoinedTokens(ts, ':'); }
  }

  predicate NoSeparators(m: Meta) { '=' !in m.key && ':' !in m.key && '=' !in m.bl && ':' !in m.bl }

  lemma ParsedOne(t: string)
    requires ':' !in t && FromString(t).Some?
    ensures NoSeparators(FromString(t).value)
  {
    TokensAvoid(t, '=', '=');
    TokensAvoid(t, '=', ':');
    var ts := Tokens(t, '=');
    assert ts[0] in ts && ts[1] in ts;
  }

  /** Whatever is parsed holds no separators. */
  lemma {:induction false} ParsedClean(ts: seq<string>)
    requires Free(ts, ':')
    ensures forall m :: m in ParseMetas(ts).0 ==> NoSeparators(m)
  {
    if ts != [] {
      ParsedClean(ts[1..]);
      if FromString(ts[0]).Some? { ParsedOne(ts[0]); }
    }
  }

  /** If parsing the texts of attributes succeeds, each of them could be parsed. */
  lemma {:induction false} ParsedEach(attrs: seq<Attr>)
    requires ParseMetas(MetaTexts(AllStored(attrs))) == (AllRead(attrs), true)
    ensures forall i :: 0 <= i < |attrs| ==>
              FromString(MetaText(Stored(attrs[i]))) == Some(Meta(attrs[i].key, attrs[i].value))
  {
    if attrs != [] {
      TextsCons(attrs);
      var rest := ParseMetas(MetaTexts(AllStored(attrs[1..])));
      var first := FromString(MetaText(Stored(attrs[0]))).value;
      assert ([first] + rest.0)[0] == AllRead(attrs)[0] && ([first] + rest.0)[1..] == AllRead(attrs)[1..];
      assert AllRead(attrs)[1..] == AllRead(attrs[1..]);
      ParsedEach(attrs[1..]);
      forall i | 0 <= i < |attrs|
        ensures FromString(MetaText(Stored(attrs[i]))) == Some(Meta(attrs[i].key, attrs[i].value))
      {
        if i > 0 { assert attrs[1..][i - 1] == attrs[i]; }
      }
    }
  }

  lemma MetasRoundTripIff(attrs: seq<Attr>)
    ensures ParseMetas(Tokens(Join(MetaTexts(AllStored(attrs)), ':'), ':')) == (AllRead(attrs), true) <==>
            CleanAttrs(attrs)
  {
    var text := Join(MetaTexts(AllStored(attrs)), ':');
    var ts := Tokens(text, ':');
    if ParseMetas(ts) == (AllRead(attrs), true) {
      TokensAvoid(text, ':', ':');
      assert forall i :: 0 <= i < |ts| ==> ts[i] in ts;
      ParsedClean(ts);
      forall i | 0 <= i < |attrs| ensures ':' !in attrs[i].key && ':' !in attrs[i].value {
        assert AllRead(attrs)[i] in ParseMetas(ts).0 && NoSeparators(AllRead(attrs)[i]);
      }
      TextsTokens(attrs);
      ParsedEach(attrs);
      forall i | 0 <= i < |attrs| ensures CleanAttr(attrs[i]) { MetaRoundTripIff(attrs[i].key, attrs[i].value); }
    } else if CleanAttrs(attrs) {
      TextsTokens(attrs);
      ParseTexts(attrs);
    }
  }

  // ----- a move -----

  predicate CleanName(s: string) { ':' !in s && ';' !in s }

  predicate CleanMove(ns: string, oid: string, user: string, attrs: seq<Attr>) {
    CleanName(ns) && CleanName(oid) && CleanName(user) && user != "" && CleanAttrs(attrs)
  }

  /** The entry has got where the mail came from and its attributes. */
  predicate Undoes(e: LogEntry, e': LogEntry, ns: string, oid: string, user: string, attrs: seq<Attr>) {
    && e' == e.(srcNs := ns, srcOid := oid, srcUser := user, metadata := e'.metadata)
    && |e'.metadata| == |attrs|
    && forall i :: 0 <= i < |attrs| ==> e'.metadata[i] == Meta(attrs[i].key, attrs[i].value)
  }

  lemma LeftAvoids(ns: string, oid: string, user: string)
    requires ';' !in ns && ';' !in oid && ';' !in user
    ensures ';' !in Left(ns, oid, user) && Left(ns, oid, user) != ""
  {
    var ts := ["mv", ns, oid, user];
    JoinAvoids(ts, ':', ';');
    assert forall i :: 0 <= i < |ts| ==> ';' !in ts[i];
  }

  lemma FindsSemicolon(ns: string, oid: string, user: string, ms: seq<Meta>)
    requires ';' !in ns && ';' !in oid && ';' !in user
    ensures var op := OpMv(ns, oid, user, ms);
            var pos := Find(op, ';');
            0 < pos < |op| && op[..pos] == Left(ns, oid, user) && op[pos + 1..] == Join(MetaTexts(ms), ':')
  {
    LeftAvoids(ns, oid, user);
    var op, left := OpMv(ns, oid, user, ms), Left(ns, oid, user);
    assert op[|left|] == ';';
    assert forall i :: 0 <= i < |left| ==> op[i] == left[i];
    assert Find(op, ';') == |left|;
  }

  lemma LeftTokens(ns: string, oid: string, user: string)
    requires ':' !in ns && ':' !in oid && ':' !in user
    ensures Tokens(Left(ns, oid, user), ':') == if user == "" then ["mv", ns, oid] else ["mv", ns, oid, user]
  {
    var ts := ["mv", ns, oid, user];
    assert forall i :: 0 <= i < |ts| ==> ':' !in ts[i];
    JoinedTokens(ts, ':');
  }

  /** The part before the first ';' still starts with the name of the operation. */
  lemma StartsWithMv(ns: string, oid: string, user: string, ms: seq<Meta>)
    ensures var op := OpMv(ns, oid, user, ms);
            var ts := Tokens(op[..Find(op, ';')], ':');
            Find(op, ';') > 0 && ts != [] && ts[0] == "mv"
  {
    var op := OpMv(ns, oid, user, ms);
    var tail := Join([ns, oid, user], ':') + [';'] + Join(MetaTexts(ms), ':');
    assert ["mv", ns, oid, user][1..] == [ns, oid, user];
    assert op == "mv:" + tail;
    assert op[0] == 'm' && op[1] == 'v' && op[2] == ':';
    var pos := Find(op, ';');
    TokensCons("mv", ':', op[3..pos]);
    assert op[..pos] == "mv" + [':'] + op[3..pos];
  }

  lemma ParsedNames(e: LogEntry, ns: string, oid: string, user: string, ms: seq<Meta>)
    requires e.op == OpMv(ns, oid, user, ms) && ParseMv(e).1
    ensures var r := ParseMv(e).0; CleanName(r.srcNs) && CleanName(r.srcOid) && CleanName(r.srcUser)
  {
    StartsWithMv(ns, oid, user, ms);
    var left := e.op[..Find(e.op, ';')];
    TokensAvoid(left, ':', ':');
    TokensAvoid(left, ':', ';');
    var ts := Tokens(left, ':');
    assert forall i :: 0 <= i < |ts| ==> ts[i] in ts;
  }

  /** The source of a move and its attributes are read back iff no name or value holds a separator of its level. */
  lemma MoveRoundTripIff(e: LogEntry, ns: string, oid: string, user: string, attrs: seq<Attr>)
    requires e.op == OpMv(ns, oid, user, AllStored(attrs)) && e.metadata == []
    ensures ParseMv(e).1 && Undoes(e, ParseMv(e).0, ns, oid, user, attrs) <==> CleanMove(ns, oid, user, attrs)
  {
    var ms := AllStored(attrs);
    if ParseMv(e).1 && Undoes(e, ParseMv(e).0, ns, oid, user, attrs) {
      ParsedNames(e, ns, oid, user, ms);
      assert CleanName(ns) && CleanName(oid) && CleanName(user);
      FindsSemicolon(ns, oid, user, ms);
      LeftTokens(ns, oid, user);
      MoveParses(e, ns, oid, user, attrs);
    } else if CleanMove(ns, oid, user, attrs) {
      MoveParses(e, ns, oid, user, attrs);
    }
  }

  lemma MoveParses(e: LogEntry, ns: string, oid: string, user: string, attrs: seq<Attr>)
    requires e.op == OpMv(ns, oid, user, AllStored(attrs)) && e.metadata == []
    requires CleanName(ns) && CleanName(oid) && CleanName(user) && user != ""
    ensures ParseMv(e).1 && Undoes(e, ParseMv(e).0, ns, oid, user, attrs) <==> CleanAttrs(attrs)
  {
    var ms := AllStored(attrs);
    FindsSemicolon(ns, oid, user, ms);
    LeftTokens(ns, oid, user);
    MetasRoundTripIff(attrs);
    ParseMvAt(e, ns, oid, user, Join(MetaTexts(ms), ':'));
    UndoesIff(e, ParseMetas(Tokens(Join(MetaTexts(ms), ':'), ':')).0, ns, oid, user, attrs);
  }

  lemma UndoesIff(e: LogEntry, ms: seq<Meta>, ns: string, oid: string, user: string, attrs: seq<Attr>)
    ensures Undoes(e, e.(srcNs := ns, srcOid := oid, srcUser := user, metadata := ms), ns, oid, user, attrs) <==>
            ms == AllRead(attrs)
  {
  }

  lemma ParseMvAt(e: LogEntry, ns: string, oid: string, user: string, right: string)
    requires var pos := Find(e.op, ';');
             0 < pos < |e.op| && Tokens(e.op[..pos], ':') == ["mv", ns, oid, user] && e.op[pos + 1..] == right
    requires e.metadata == []
    ensures var ms := ParseMetas(Tokens(right, ':'));
            ParseMv(e) == (e.(srcNs := ns, srcOid := oid, srcUser := user, metadata := ms.0), ms.1)
  {
    var ms := ParseMetas(Tokens(right, ':'));
    assert [] + ms.0 == ms.0;
  }

  /** An operation that is not a move leaves the entry as it is. */
  lemma NotAMove(e: LogEntry)
    requires ';' !in e.op || !("mv" <= e.op)
    ensures ParseMv(e).0 == e
  {
    var pos := Find(e.op, ';');
    if 0 < pos < |e.op| {
      var ts := Tokens(e.op[..pos], ':');
      FirstToken(e.op[..pos], ':');
      assert ts[0] <= e.op;
    }
  }

  lemma FirstToken(s: string, sep: char)
    requires s != ""
    ensures Tokens(s, sep) != [] && Tokens(s, sep)[0] <= s
  {
  }

  // ----- the log -----

  predicate CleanField(s: string) { ',' !in s && '\n' !in s }

  predicate CleanEntry(e: LogEntry) {
    CleanField(e.op) && CleanField(e.pool) && CleanField(e.ns) && CleanField(e.oid) && e.oid != ""
  }

  function Reread(e: LogEntry): LogEntry { ParseMv(FRESH.(op := e.op, pool := e.pool, ns := e.ns, oid := e.oid)).0 }

  function RereadAll(es: seq<LogEntry>): seq<LogEntry> { seq(|es|, i requires 0 <= i < |es| => Reread(es[i])) }

  lemma RereadFields(e: LogEntry)
    ensures var r := Reread(e); r.op == e.op && r.pool == e.pool && r.ns == e.ns && r.oid == e.oid
  {
  }

  lemma LineRoundTrip(e: LogEntry)
    requires CleanField(e.op) && CleanField(e.pool) && CleanField(e.ns) && CleanField(e.oid)
    ensures ParseLine(Line(e)) == if e.oid == "" then None else Some(Reread(e))
    ensures '\n' !in Line(e)
  {
    var ts := [e.op, e.pool, e.ns, e.oid];
    assert forall i :: 0 <= i < |ts| ==> ',' !in ts[i] && '\n' !in ts[i];
    JoinedTokens(ts, ',');
    JoinAvoids(ts, ',', '\n');
  }

  lemma ReadFirst(line: string, rest: string)
    requires '\n' !in line
    ensures ReadAll(line + ['\n'] + rest) == var e := ParseLine(line); if e.None? then [] else [e.value] + ReadAll(rest)
  {
    var s := line + ['\n'] + rest;
    assert s[|line|] == '\n';
    assert Find(s, '\n') == |line|;
    assert s[..|line|] == line && s[|line| + 1..] == rest;
  }

  /** Every entry a reader gets has clean fields. */
  lemma {:induction false} ReadClean(s: string)
    ensures forall e :: e in ReadAll(s) ==>
              CleanField(e.op) && CleanField(e.pool) && CleanField(e.ns) && CleanField(e.oid)
    decreases |s|
  {
    var i := Find(s, '\n');
    if i < |s| && ParseLine(s[..i]).Some? {
      ReadClean(s[i + 1..]);
      LineClean(s[..i]);
    }
  }

  lemma LineClean(line: string)
    requires '\n' !in line && ParseLine(line).Some?
    ensures var e := ParseLine(line).value;
            CleanField(e.op) && CleanField(e.pool) && CleanField(e.ns) && CleanField(e.oid)
  {
    TokensAvoid(line, ',', ',');
    TokensAvoid(line, ',', '\n');
    var ts := Tokens(line, ',');
    assert forall i :: 0 <= i < |ts| ==> ts[i] in ts;
    RereadFields(FRESH.(op := ts[0], pool := ts[1], ns := ts[2], oid := ts[3]));
  }

  lemma {:induction false} CleanLogRoundTrip(es: seq<LogEntry>)
    requires forall i :: 0 <= i < |es| ==>
               CleanField(es[i].op) && CleanField(es[i].pool) && CleanField(es[i].ns) && CleanField(es[i].oid)
    ensures ReadAll(PrintAll(es)) == RereadAll(es) <==> forall i :: 0 <= i < |es| ==> es[i].oid != ""
  {
    if es != [] {
      LineRoundTrip(es[0]);
      ReadFirst(Line(es[0]), PrintAll(es[1..]));
      CleanLogRoundTrip(es[1..]);
      RereadCons(es);
      ConsEqual(Reread(es[0]), ReadAll(PrintAll(es[1..])), RereadAll(es[1..]));
      OidsCons(es);
    }
  }

  lemma RereadCons(es: seq<LogEntry>)
    requires es != []
    ensures RereadAll(es) == [Reread(es[0])] + RereadAll(es[1..])
  {
  }

  lemma OidsCons(es: seq<LogEntry>)
    requires es != []
    ensures (forall i :: 0 <= i < |es| ==> es[i].oid != "") <==>
            es[0].oid != "" && forall i :: 0 <= i < |es[1..]| ==> es[1..][i].oid != ""
  {
    if es[0].oid != "" && forall i :: 0 <= i < |es[1..]| ==> es[1..][i].oid != "" {
      forall i | 0 <= i < |es| ensures es[i].oid != "" { if i > 0 { assert es[1..][i - 1] == es[i]; } }
    }
  }

  lemma ConsEqual<T>(x: T, a: seq<T>, b: seq<T>)
    ensures [x] + a == [x] + b <==> a == b
  {
    assert ([x] + a)[1..] == a && ([x] + b)[1..] == b;
  }

  /** A printed log is read back entry by entry iff no field holds a comma or a line end and no oid is empty. */
  lemma LogRoundTripIff(es: seq<LogEntry>)
    ensures ReadAll(PrintAll(es)) == RereadAll(es) <==> forall i :: 0 <= i < |es| ==> CleanEntry(es[i])
  {
    if ReadAll(PrintAll(es)) == RereadAll(es) {
      ReadClean(PrintAll(es));
      forall i | 0 <= i < |es|
        ensures CleanField(es[i].op) && CleanField(es[i].pool) && CleanField(es[i].ns) && CleanField(es[i].oid)
      {
        assert RereadAll(es)[i] in ReadAll(PrintAll(es));
        RereadFields(es[i]);
      }
      CleanLogRoundTrip(es);
    } else if forall i :: 0 <= i < |es| ==> CleanEntry(es[i]) {
      CleanLogRoundTrip(es);
    }
  }

  /** A log of clean entries gives back, for each move in it, where the mail came from and its attributes. */
  lemma MovesInLog(es: seq<LogEntry>, i: nat, ns: string, oid: string, user: string, attrs: seq<Attr>)
    requires (forall j :: 0 <= j < |es| ==> CleanEntry(es[j])) && i < |es|
    requires es[i].op == OpMv(ns, oid, user, AllStored(attrs)) && CleanMove(ns, oid, user, attrs)
    ensures |ReadAll(PrintAll(es))| == |es|
    ensures var e := ReadAll(PrintAll(es))[i];
            && e == LogEntry(es[i].oid, es[i].ns, es[i].pool, es[i].op, oid, ns, user, e.metadata)
            && |e.metadata| == |attrs|
            && forall j :: 0 <= j < |attrs| ==> e.metadata[j] == Meta(attrs[j].key, attrs[j].value)
  {
    LogRoundTripIff(es);
    var e := FRESH.(op := es[i].op, pool := es[i].pool, ns := es[i].ns, oid := es[i].oid);
    MoveRoundTripIff(e, ns, oid, user, attrs);
  }

  // ----- as the code does it -----

  /** `convert_metadata` */
  method ConvertMetadata(ms: seq<Meta>) returns (s: string)
    ensures s == Join(MetaTexts(ms), ':')
  {
    s := "";
    var i := 0;
    if i < |ms| {
      s := MetaText(ms[0]);
      i := 1;
      JoinOne(ms);
    }
    while i < |ms|
      invariant i <= |ms| && (i == 0 <==> ms == []) && s == Join(MetaTexts(ms)[..i], ':')
    {
      assert MetaTexts(ms)[..i + 1] == MetaTexts(ms)[..i] + [MetaText(ms[i])];
      JoinMore(MetaTexts(ms)[..i], MetaText(ms[i]), ':');
      s := s + [':'] + MetaText(ms[i]);
      i := i + 1;
    }
    assert MetaTexts(ms)[..i] == MetaTexts(ms);
  }

  lemma JoinOne(ms: seq<Meta>)
    requires ms != []
    ensures Join(MetaTexts(ms)[..1], ':') == MetaText(ms[0])
  {
    assert MetaTexts(ms)[..1] == [MetaText(ms[0])];
  }

  lemma {:induction false} JoinMore(ts: seq<string>, t: string, sep: char)
    requires ts != []
    ensures Join(ts + [t], sep) == Join(ts, sep) + [sep] + t
  {
    if |ts| > 1 {
      assert (ts + [t])[1..] == ts[1..] + [t];
      JoinMore(ts[1..], t, sep);
    } else {
      assert (ts + [t])[1..] == [t];
    }
  }

  /** The attributes of a move, up to the first malformed one. */
  method ParseAttributes(text: string) returns (ms: seq<Meta>, ok: bool)
    ensures (ms, ok) == ParseMetas(Tokens(text, ':'))
  {
    ms := [];
    var right := Tokens(text, ':');
    ghost var all := ParseMetas(right);
    assert ms + all.0 == all.0;
    while right != []
      invariant (ms + ParseMetas(right).0, ParseMetas(right).1) == all
      decreases |right|
    {
      var m := FromString(right[0]);
      if m.None? {
        assert ms + [] == ms;
        return ms, false;
      }
      Assoc(ms, [m.value], ParseMetas(right[1..]).0);
      ms := ms + [m.value];
      right := right[1..];
    }
    assert ms + [] == ms;
    return ms, true;
  }

  class Entry {
    var fields: LogEntry

    constructor () ensures fields == FRESH { fields := FRESH; }

    /** `parse_mv_op` */
    method ParseMvOp() returns (ok: bool)
      modifies this
      ensures (fields, ok) == ParseMv(old(fields))
    {
      var op := fields.op;
      var pos := Find(op, ';');
      if pos == |op| || pos <= 0 { return false; }
      var left := Tokens(op[..pos], ':');
      if |left| < 4 { return false; }
      if left[0] != "mv" { return true; }
      fields := fields.(srcNs := left[1], srcOid := left[2], srcUser := left[3]);
      var ms;
      ms, ok := ParseAttributes(op[pos + 1..]);
      fields := fields.(metadata := fields.metadata + ms);
    }

    /** The input operator. */
    method Read(line: string) returns (ok: bool)
      requires fields == FRESH
      modifies this
      ensures ok <==> ParseLine(line).Some?
      ensures ok ==> fields == ParseLine(line).value
    {
      var items := Tokens(line, ',');
      if |items| == 4 {
        fields := fields.(op := items[0], pool := items[1], ns := items[2], oid := items[3]);
        var _ := ParseMvOp();
        return true;
      }
      return false;
    }
  }

  /** The loop of a reader of the log. */
  method ReadLog(s: string) returns (es: seq<LogEntry>)
    ensures es == ReadAll(s)
  {
    es := [];
    var rest := s;
    while true
      invariant es + ReadAll(rest) == ReadAll(s)
      decreases |rest|
    {
      var i := Find(rest, '\n');
      if i == |rest| { return; }
      var e := new Entry();
      var ok := e.Read(rest[..i]);
      if !ok { return; }
      es := es + [e.fields];
      rest := rest[i + 1..];
    }
  }
}
