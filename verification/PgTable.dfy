/** The table of placement groups, parsed into one list of PGs per primary OSD. */
module PgTable {
  import opened Text
  import opened Rados

  predicate IsSpace(c: char) { c == ' ' || '\t' <= c <= '\r' }

  function Trimmed(t: string): (r: string)
    ensures forall i :: 0 <= i < |r| ==> !IsSpace(r[i])
  {
    if t == "" then "" else (if IsSpace(t[0]) then "" else [t[0]]) + Trimmed(t[1..])
  }

  /** White space goes, everything else stays in its order: each part is trimmed by itself. */
  lemma {:induction false} TrimmedAppends(a: string, b: string)
    ensures Trimmed(a + b) == Trimmed(a) + Trimmed(b)
  {
    if a == "" {
      assert a + b == b;
    } else {
      TrimmedAppends(a[1..], b);
      assert (a + b)[1..] == a[1..] + b;
      Assoc(if IsSpace(a[0]) then "" else [a[0]], Trimmed(a[1..]), Trimmed(b));
    }
  }

  lemma TrimmedOne(c: char)
    ensures Trimmed([c]) == if c in " \t\n\U{0b}\U{0c}\r" then "" else [c]
  {
    SpacesAre(c);
    assert [c][1..] == "" && Trimmed("") == "";
  }

  lemma SpacesAre(c: char)
    ensures IsSpace(c) <==> c in " \t\n\U{0b}\U{0c}\r"
  {
    var s := " \t\n\U{0b}\U{0c}\r";
    assert s[0] == ' ' && s[1] == '\t' && s[2] == '\n' && s[3] == '\U{0b}' && s[4] == '\U{0c}' && s[5] == '\r';
  }

  predicate NoSpace(t: string) { forall i :: 0 <= i < |t| ==> !IsSpace(t[i]) }

  lemma {:induction false} AlreadyTrimmed(t: string)
    requires NoSpace(t)
    ensures Trimmed(t) == t
  {
    if t != "" { AlreadyTrimmed(t[1..]); }
  }

  /** The columns of a text: white space is removed and empty columns do not count. */
  function Columns(ts: seq<string>): (cs: seq<string>)
    ensures forall i :: 0 <= i < |cs| ==> cs[i] != ""
  {
    if ts == [] then []
    else
      var t := Trimmed(ts[|ts| - 1]);
      Columns(ts[..|ts| - 1]) + if t == "" then [] else [t]
  }

  function Fields(s: string, sep: char): seq<string> { Columns(Tokens(s, sep)) }

  /** `split` */
  method Split(s: string, sep: char) returns (cs: seq<string>)
    ensures cs == Fields(s, sep)
  {
    cs := [];
    var ts := Tokens(s, sep);
    var i := 0;
    while i < |ts|
      invariant i <= |ts| && cs == Columns(ts[..i])
    {
      assert ts[..i + 1][..i] == ts[..i];
      var t := Trimmed(ts[i]);
      if |t| > 0 { cs := cs + [t]; }
      i := i + 1;
    }
    assert ts[..i] == ts;
  }

  /** A row of the table has at least fourteen columns. */
  predicate Accepted(line: string) { |Fields(line, ' ')| >= 14 }

  /** The last of these columns starts with the primary OSD. */
  predicate NamesOsd(line: string) { Accepted(line) ==> Fields(Fields(line, ' ')[13], ',') != [] }

  function OsdOf(line: string): string
    requires Accepted(line) && NamesOsd(line)
  {
    Fields(Fields(line, ' ')[13], ',')[0][1..]
  }

  function PgOf(line: string): string
    requires Accepted(line)
  {
    Fields(line, ' ')[0]
  }

  // ----- a row as it is printed -----

  /** The items that are not empty. */
  function NonEmpty(ts: seq<string>): seq<string> {
    if ts == [] then []
    else NonEmpty(ts[..|ts| - 1]) + if ts[|ts| - 1] == "" then [] else [ts[|ts| - 1]]
  }

  lemma {:induction false} ColumnsOf(ts: seq<string>)
    requires forall i :: 0 <= i < |ts| ==> NoSpace(ts[i])
    ensures Columns(ts) == NonEmpty(ts)
  {
    if ts != [] {
      ColumnsOf(ts[..|ts| - 1]);
      AlreadyTrimmed(ts[|ts| - 1]);
    }
  }

  /** Columns that hold no white space, printed with any number of separators between them, are split again. */
  lemma FieldsOf(ts: seq<string>, sep: char)
    requires ts != [] && forall i :: 0 <= i < |ts| ==> NoSpace(ts[i]) && sep !in ts[i]
    ensures Fields(Join(ts, sep), sep) == NonEmpty(ts)
  {
    JoinedTokens(ts, sep);
    ColumnsOf(Kept(ts));
    if ts[|ts| - 1] == "" { assert NonEmpty(ts) == NonEmpty(ts[..|ts| - 1]) + []; }
  }

  /**
   A row with at least fourteen columns, of which the last of these is a list that begins with the primary OSD: the
   first column is the PG, and the OSD is the text between the opening bracket and the first comma.
   */
  lemma RowGives(ts: seq<string>, osd: string, others: seq<string>)
    requires ts != [] && forall i :: 0 <= i < |ts| ==> NoSpace(ts[i])
    requires var cols := NonEmpty(ts); |cols| >= 14 && cols[13] == Join(["[" + osd] + others, ',')
    requires NoSpace(osd) && ',' !in osd && forall i :: 0 <= i < |others| ==> NoSpace(others[i]) && ',' !in others[i]
    ensures var line := Join(ts, ' ');
            Accepted(line) && NamesOsd(line) && PgOf(line) == NonEmpty(ts)[0] && OsdOf(line) == osd
  {
    forall i | 0 <= i < |ts|
      ensures ' ' !in ts[i]
    {
      assert IsSpace(' ');
    }
    FieldsOf(ts, ' ');
    var items := ["[" + osd] + others;
    assert items[0] == "[" + osd && forall i :: 0 < i < |items| ==> items[i] == others[i - 1];
    FieldsOf(items, ',');
    FirstNonEmpty(items);
    assert ("[" + osd)[1..] == osd;
  }

  lemma {:induction false} FirstNonEmpty(ts: seq<string>)
    requires ts != [] && ts[0] != ""
    ensures NonEmpty(ts) != [] && NonEmpty(ts)[0] == ts[0]
  {
    if |ts| > 1 { FirstNonEmpty(ts[..|ts| - 1]); } else { assert ts[..0] == []; }
  }

  predicate Readable(lines: seq<string>) { forall i :: 0 <= i < |lines| ==> NamesOsd(lines[i]) }

  /** The PGs of the accepted rows for one OSD, in order. */
  function RowsOf(lines: seq<string>, osd: string): seq<string>
    requires Readable(lines)
  {
    if lines == [] then []
    else
      var line := lines[|lines| - 1];
      RowsOf(lines[..|lines| - 1], osd) + if Accepted(line) && OsdOf(line) == osd then [PgOf(line)] else []
  }

  function Rows(text: string): seq<string> { if Tokens(text, '\n') == [] then [] else Tokens(text, '\n')[1..] }

  ghost predicate Filed(lines: seq<string>, lists: map<string, seq<string>>)
    requires Readable(lines)
  {
    forall osd :: RowsOf(lines, osd) == if osd in lists then lists[osd] else []
  }

  /** The first `n` rows are filed, and every list has an entry. */
  ghost predicate FiledUpTo(rows: seq<string>, n: nat, lists: map<string, seq<string>>) {
    && n <= |rows| && Readable(rows) && (forall osd :: osd in lists ==> lists[osd] != [])
    && Readable(rows[..n]) && Filed(rows[..n], lists)
  }

  /** `extractPgAndPrimaryOsd`: the first line is skipped. */
  method ExtractPgAndPrimaryOsd(text: string) returns (lists: map<string, seq<string>>)
    requires Readable(Rows(text))
    ensures Filed(Rows(text), lists)
    ensures forall osd :: osd in lists ==> lists[osd] != []
  {
    FiledStart(Rows(text));
    lists := FileLines(Tokens(text, '\n'), Rows(text));
    FiledEnd(Rows(text), lists);
  }

  method FileLines(lines: seq<string>, ghost rows: seq<string>) returns (lists: map<string, seq<string>>)
    requires |rows| == (if lines == [] then 0 else |lines| - 1) && FiledUpTo(rows, 0, map[])
    requires forall i :: 0 < i < |lines| ==> lines[i] == rows[i - 1]
    ensures FiledUpTo(rows, |rows|, lists)
  {
    lists := map[];
    var i := 0;
    var firstLine := true;
    while i < |lines|
      invariant i <= |lines| && firstLine == (i == 0)
      invariant FiledUpTo(rows, if i == 0 then 0 else i - 1, lists)
    {
      if firstLine {
        firstLine := false;
      } else {
        lists := FileRow(lines[i], lists, rows, i - 1);
      }
      i := i + 1;
    }
  }

  lemma FiledStart(rows: seq<string>)
    requires Readable(rows)
    ensures FiledUpTo(rows, 0, map[])
  {
  }

  lemma FiledEnd(rows: seq<string>, lists: map<string, seq<string>>)
    requires FiledUpTo(rows, |rows|, lists)
    ensures Filed(rows, lists)
  {
    assert rows[..|rows|] == rows;
  }

  /** The next line of the table. */
  method FileRow(text: string, lists: map<string, seq<string>>, ghost rows: seq<string>, ghost n: nat)
    returns (lists': map<string, seq<string>>)
    requires FiledUpTo(rows, n, lists) && n < |rows| && rows[n] == text
    ensures FiledUpTo(rows, n + 1, lists')
  {
    FiledNext(rows, n, lists);
    lists' := AddRow(text, lists);
  }

  /** The lists with one more row. */
  function WithRow(lists: map<string, seq<string>>, line: string): map<string, seq<string>>
    requires NamesOsd(line)
  {
    if !Accepted(line) then lists
    else lists[OsdOf(line) := (if OsdOf(line) in lists then lists[OsdOf(line)] else []) + [PgOf(line)]]
  }

  /** One line of the table. */
  method AddRow(text: string, lists: map<string, seq<string>>) returns (lists': map<string, seq<string>>)
    requires NamesOsd(text)
    ensures lists' == WithRow(lists, text)
  {
    lists' := lists;
    var line := Split(text, ' ');
    if |line| >= 14 {
      var osds := Split(line[13], ',');
      var osd := osds[0][1..];
      var pgs := if osd in lists then lists[osd] else [];
      lists' := lists[osd := pgs + [line[0]]];
    }
  }

  lemma RowsStep(rows: seq<string>, line: string, osd: string)
    requires Readable(rows) && NamesOsd(line)
    ensures Readable(rows + [line])
    ensures RowsOf(rows + [line], osd) ==
            RowsOf(rows, osd) + if Accepted(line) && OsdOf(line) == osd then [PgOf(line)] else []
  {
    assert (rows + [line])[..|rows|] == rows;
  }

  lemma FiledMore(rows: seq<string>, line: string, lists: map<string, seq<string>>)
    requires Readable(rows) && NamesOsd(line) && Filed(rows, lists)
    ensures Readable(rows + [line]) && Filed(rows + [line], WithRow(lists, line))
  {
    RowsStep(rows, line, "");
    forall osd
      ensures RowsOf(rows + [line], osd) == if osd in WithRow(lists, line) then WithRow(lists, line)[osd] else []
    {
      FiledOne(rows, line, lists, osd);
    }
  }

  lemma FiledOne(rows: seq<string>, line: string, lists: map<string, seq<string>>, osd: string)
    requires Readable(rows) && NamesOsd(line) && Readable(rows + [line])
    requires RowsOf(rows, osd) == if osd in lists then lists[osd] else []
    ensures RowsOf(rows + [line], osd) == if osd in WithRow(lists, line) then WithRow(lists, line)[osd] else []
  {
    RowsStep(rows, line, osd);
  }

  lemma FiledNext(rows: seq<string>, n: nat, lists: map<string, seq<string>>)
    requires FiledUpTo(rows, n, lists) && n < |rows|
    ensures NamesOsd(rows[n]) && FiledUpTo(rows, n + 1, WithRow(lists, rows[n]))
  {
    assert rows[..n + 1] == rows[..n] + [rows[n]];
    FiledMore(rows[..n], rows[n], lists);
  }

  // ----- each row is in exactly one list -----

  function AcceptedCount(lines: seq<string>): nat {
    if lines == [] then 0 else AcceptedCount(lines[..|lines| - 1]) + if Accepted(lines[|lines| - 1]) then 1 else 0
  }

  function ListedCount(lines: seq<string>, osds: seq<string>): nat
    requires Readable(lines)
  {
    if osds == [] then 0 else |RowsOf(lines, osds[0])| + ListedCount(lines, osds[1..])
  }

  lemma {:induction false} CountStep(lines: seq<string>, line: string, osds: seq<string>)
    requires Readable(lines) && NamesOsd(line) && Distinct(osds)
    ensures Readable(lines + [line])
    ensures ListedCount(lines + [line], osds) ==
            ListedCount(lines, osds) + if Accepted(line) && OsdOf(line) in osds then 1 else 0
  {
    RowsStep(lines, line, "");
    if osds != [] {
      CountStep(lines, line, osds[1..]);
      RowsStep(lines, line, osds[0]);
      assert osds == [osds[0]] + osds[1..];
      assert osds[0] !in osds[1..];
    }
  }

  lemma {:induction false} NoRows(osds: seq<string>)
    ensures ListedCount([], osds) == 0
  {
    if osds != [] { NoRows(osds[1..]); }
  }

  /** Together the lists hold as many PGs as there are accepted rows. */
  lemma {:induction false} RowsAreConserved(lines: seq<string>, osds: seq<string>)
    requires Readable(lines) && Distinct(osds) && forall i :: 0 <= i < |lines| && Accepted(lines[i]) ==>
               OsdOf(lines[i]) in osds
    ensures ListedCount(lines, osds) == AcceptedCount(lines)
  {
    if lines == [] {
      NoRows(osds);
    } else {
      var front, line := lines[..|lines| - 1], lines[|lines| - 1];
      assert lines == front + [line];
      RowsAreConserved(front, osds);
      CountStep(front, line, osds);
    }
  }

  lemma {:induction false} RowIsFiled(lines: seq<string>, i: nat)
    requires Readable(lines) && i < |lines| && Accepted(lines[i])
    ensures PgOf(lines[i]) in RowsOf(lines, OsdOf(lines[i]))
  {
    if i < |lines| - 1 { RowIsFiled(lines[..|lines| - 1], i); }
  }
}
