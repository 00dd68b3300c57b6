/** The error report of an import, as CSV text, and a reader for section 2 of RFC 4180. */
module ErrorCsv {
  import opened Options
  import opened ImportModel
  import opened Ordering
  import opened ImportMapping
  import opened ImportCommit

  type Record = seq<string>

  // ----- Printing -----

  predicate Special(c: char) {
    c == '"' || c == ',' || c == '\r' || c == '\n'
  }

  predicate HasSpecial(s: string) {
    exists i :: 0 <= i < |s| && Special(s[i])
  }

  /** Every quote written twice. */
  function Doubled(s: string): string {
    if s == "" then "" else (if s[0] == '"' then "\"\"" else [s[0]]) + Doubled(s[1..])
  }

  /** escapeCsv on a text. */
  function Escape(s: string): string {
    if HasSpecial(s) then "\"" + Doubled(s) + "\"" else s
  }

  function PrintRecord(r: Record): string {
    if r == [] then ""
    else if |r| == 1 then Escape(r[0])
    else Escape(r[0]) + "," + PrintRecord(r[1..])
  }

  const Crlf: string := "\r\n"

  function PrintTable(t: seq<Record>): string {
    if t == [] then ""
    else if |t| == 1 then PrintRecord(t[0])
    else PrintRecord(t[0]) + Crlf + PrintTable(t[1..])
  }

  // ----- Reading -----

  /** Where the reader stands: before a field, in a plain one, inside quotes, or behind a closing quote. */
  datatype Mode = Closed | Quoted | Plain | Before

  function Rank(m: Mode): nat {
    match m
    case Closed => 1
    case Quoted => 1
    case Plain => 1
    case Before => 2
  }

  function Prepend(r: Record, t: Option<seq<Record>>): Option<seq<Record>> {
    if t.Some? then Some([r] + t.value) else None
  }

  /** What follows a complete field: the end, a comma, or a line break, which may also end the file. */
  function AfterField(text: string, field: string, record: Record): Option<seq<Record>>
    decreases |text|, 0
  {
    if text == "" then Some([record + [field]])
    else if text[0] == ',' then Read(text[1..], Before, "", record + [field])
    else if Crlf <= text then
      if |text| == 2 then Some([record + [field]]) else Prepend(record + [field], Read(text[2..], Before, "", []))
    else None
  }

  /** The records of a text, from the given mode, field and record onwards; None where the text is not CSV. */
  function Read(text: string, mode: Mode, field: string, record: Record): Option<seq<Record>>
    decreases |text|, Rank(mode)
  {
    match mode
    case Before =>
      if text != "" && text[0] == '"' then Read(text[1..], Quoted, "", record) else Read(text, Plain, "", record)
    case Plain =>
      if text == "" || text[0] == ',' || text[0] == '\r' then AfterField(text, field, record)
      else if Special(text[0]) then None
      else Read(text[1..], Plain, field + [text[0]], record)
    case Quoted =>
      if text == "" then None
      else if text[0] == '"' then Read(text[1..], Closed, field, record)
      else Read(text[1..], Quoted, field + [text[0]], record)
    case Closed =>
      if text != "" && text[0] == '"' then Read(text[1..], Quoted, field + "\"", record)
      else AfterField(text, field, record)
  }

  function ReadTable(text: string): Option<seq<Record>> {
    Read(text, Before, "", [])
  }

  // ----- Reading what was printed -----

  /** A field ends here. */
  predicate Delimited(rest: string) {
    rest == "" || rest[0] == ',' || Crlf <= rest
  }

  lemma {:induction false} PlainFieldRead(f: string, rest: string, field: string, record: Record)
    requires !HasSpecial(f)
    ensures Read(f + rest, Plain, field, record) == Read(rest, Plain, field + f, record)
  {
    if f == "" {
      assert f + rest == rest && field + f == field;
    } else {
      assert !Special(f[0]);
      assert (f + rest)[1..] == f[1..] + rest && (f + rest)[0] == f[0];
      assert forall i :: 0 <= i < |f[1..]| ==> !Special(f[1..][i]);
      PlainFieldRead(f[1..], rest, field + [f[0]], record);
      assert field + [f[0]] + f[1..] == field + f;
    }
  }

  lemma {:induction false} QuotedFieldRead(f: string, rest: string, field: string, record: Record)
    ensures Read(Doubled(f) + "\"" + rest, Quoted, field, record) == Read(rest, Closed, field + f, record)
  {
    var text := Doubled(f) + "\"" + rest;
    if f == "" {
      assert text[1..] == rest && field + f == field;
    } else {
      var tail := Doubled(f[1..]) + "\"" + rest;
      QuotedFieldRead(f[1..], rest, field + [f[0]], record);
      assert field + [f[0]] + f[1..] == field + f;
      if f[0] == '"' {
        assert text[1..][0] == '"' && text[1..][1..] == tail;
        assert field + "\"" == field + [f[0]];
      } else {
        assert text[0] == f[0] && text[1..] == tail;
      }
    }
  }

  lemma QuotedRead(f: string, rest: string, record: Record)
    requires Delimited(rest)
    ensures Read("\"" + Doubled(f) + "\"" + rest, Before, "", record) == AfterField(rest, f, record)
  {
    var text := "\"" + Doubled(f) + "\"" + rest;
    assert text[0] == '"' && text[1..] == Doubled(f) + "\"" + rest;
    QuotedFieldRead(f, rest, "", record);
    assert "" + f == f;
  }

  lemma PlainRead(f: string, rest: string, record: Record)
    requires Delimited(rest) && !HasSpecial(f)
    ensures Read(f + rest, Before, "", record) == AfterField(rest, f, record)
  {
    PlainFieldRead(f, rest, "", record);
    assert "" + f == f;
    if f == "" {
      assert f + rest == rest;
    } else {
      assert !Special(f[0]) && (f + rest)[0] == f[0];
    }
  }

  /** A printed field is read back whole, whatever it holds. */
  lemma FieldRead(f: string, rest: string, record: Record)
    requires Delimited(rest)
    ensures Read(Escape(f) + rest, Before, "", record) == AfterField(rest, f, record)
  {
    if HasSpecial(f) {
      QuotedRead(f, rest, record);
    } else {
      PlainRead(f, rest, record);
    }
  }

  lemma FrontMoves(r: Record, record: Record)
    requires |r| > 1
    ensures record + [r[0]] + r[1..][..|r[1..]| - 1] == record + r[..|r| - 1] && r[1..][|r[1..]| - 1] == r[|r| - 1]
  {
  }

  lemma Whole(r: Record)
    requires r != []
    ensures [] + r[..|r| - 1] + [r[|r| - 1]] == r
  {
  }

  lemma {:induction false} RecordRead(r: Record, rest: string, record: Record)
    requires r != [] && (rest == "" || Crlf <= rest)
    ensures Read(PrintRecord(r) + rest, Before, "", record) == AfterField(rest, r[|r| - 1], record + r[..|r| - 1])
  {
    if |r| == 1 {
      FieldRead(r[0], rest, record);
      assert record + r[..0] == record;
    } else {
      var next := "," + (PrintRecord(r[1..]) + rest);
      assert PrintRecord(r) + rest == Escape(r[0]) + next;
      FieldRead(r[0], next, record);
      assert next[1..] == PrintRecord(r[1..]) + rest;
      RecordRead(r[1..], rest, record + [r[0]]);
      FrontMoves(r, record);
    }
  }

  predicate AllFilled(t: seq<Record>) {
    forall i :: 0 <= i < |t| ==> t[i] != []
  }

  /** Only a last record of one empty field, after others, is taken for the line break at the end of a file. */
  predicate LooksEnded(t: seq<Record>) {
    |t| > 1 && t[|t| - 1] == [""]
  }

  lemma {:induction false} PrintsEmpty(r: Record)
    requires r != []
    ensures PrintRecord(r) == "" <==> r == [""]
  {
  }

  lemma {:induction false} TableRead(t: seq<Record>)
    requires t != [] && AllFilled(t)
    ensures ReadTable(PrintTable(t)) == Some(if LooksEnded(t) then t[..|t| - 1] else t)
    decreases |t|, 1
  {
    var r := t[0];
    if |t| == 1 {
      RecordRead(r, "", []);
      assert PrintRecord(r) + "" == PrintRecord(r);
      Whole(r);
      assert t == [r];
    } else {
      var rest := Crlf + PrintTable(t[1..]);
      assert PrintTable(t) == PrintRecord(r) + rest;
      RecordRead(r, rest, []);
      Whole(r);
      assert rest[2..] == PrintTable(t[1..]);
      TailRead(t);
    }
  }

  lemma {:induction false} TailRead(t: seq<Record>)
    requires |t| > 1 && AllFilled(t)
    ensures PrintTable(t[1..]) == "" <==> t[1..] == [[""]]
    ensures PrintTable(t[1..]) != "" ==>
      Prepend(t[0], ReadTable(PrintTable(t[1..]))) == Some(if LooksEnded(t) then t[..|t| - 1] else t)
    ensures t[1..] == [[""]] ==> LooksEnded(t) && t[..|t| - 1] == [t[0]]
    decreases |t|, 0
  {
    var tail := t[1..];
    assert AllFilled(tail);
    PrintsEmpty(tail[0]);
    assert |tail| == 1 ==> tail == [tail[0]];
    if |tail| > 1 { assert |PrintTable(tail)| >= |Crlf|; }
    TableRead(tail);
    assert [t[0]] + tail == t;
    assert |tail| > 0 ==> [t[0]] + tail[..|tail| - 1] == t[..|t| - 1];
  }

  /**
   Printing and reading gives a table back exactly when it does not end in a record of one empty field after others.
  */
  lemma RoundTripIff(t: seq<Record>)
    requires t != [] && AllFilled(t)
    ensures ReadTable(PrintTable(t)) == Some(t) <==> !LooksEnded(t)
  {
    TableRead(t);
    if LooksEnded(t) { assert |t[..|t| - 1]| < |t|; }
  }

  // ----- The report -----

  const Bom: string := "\U{FEFF}"

  const Header: Record := ["row", "status", "errors", "raw"]

  /** The four texts of a row: its number, its status, its errors and its raw cells as JSON. */
  datatype Shown = Shown(number: string, status: string, errors: string, raw: string)

  function Fields(x: Shown): Record {
    [x.number, x.status, x.errors, x.raw]
  }

  function Rejected(rows: Rows): set<nat> {
    set id | id in rows && (rows[id].status == Invalid || rows[id].status == RowStatus.Failed)
  }

  /** INVALID and FAILED rows in the order of their numbers. */
  function Listed(rows: Rows): seq<nat>
    requires WellNumbered(rows)
  {
    OrderBy(Rejected(rows), Numbers(rows))
  }

  lemma ListedInRows(rows: Rows)
    requires WellNumbered(rows)
    ensures AllIn(Listed(rows), rows) && ListsRejected(rows, Listed(rows))
  {
    var ids := Listed(rows);
    OrderIsOrdered(Rejected(rows), Numbers(rows));
    forall i, j | 0 <= i < j < |ids|
      ensures ids[i] in rows && ids[j] in rows && rows[ids[i]].number < rows[ids[j]].number
    {
      assert Numbers(rows)[ids[i]] < Numbers(rows)[ids[j]];
    }
  }

  /** The rows whose status is INVALID or FAILED, and no others, each once, in the order of their numbers. */
  ghost predicate ListsRejected(rows: Rows, ids: seq<nat>) {
    && (forall id: nat :: id in ids <==> id in rows && rows[id].status in {Invalid, RowStatus.Failed})
    && (forall i, j :: 0 <= i < j < |ids| ==>
          ids[i] in rows && ids[j] in rows && rows[ids[i]].number < rows[ids[j]].number)
  }

  function Table(rows: Rows, ids: seq<nat>, show: ImportRow -> Shown): seq<Record>
    requires AllIn(ids, rows)
  {
    [Header] + seq(|ids|, i requires 0 <= i < |ids| => Fields(show(rows[ids[i]])))
  }

  /** A line of column names, and then for each row its four texts. */
  ghost predicate Reports(t: seq<Record>, rows: Rows, ids: seq<nat>, show: ImportRow -> Shown) {
    && |t| == |ids| + 1 && t[0] == ["row", "status", "errors", "raw"]
    && forall i :: 0 <= i < |ids| ==>
         && ids[i] in rows && |t[i + 1]| == 4
         && t[i + 1][0] == show(rows[ids[i]]).number && t[i + 1][1] == show(rows[ids[i]]).status
         && t[i + 1][2] == show(rows[ids[i]]).errors && t[i + 1][3] == show(rows[ids[i]]).raw
  }

  lemma TableReports(rows: Rows, ids: seq<nat>, show: ImportRow -> Shown)
    requires AllIn(ids, rows)
    ensures Reports(Table(rows, ids, show), rows, ids, show)
  {
  }

  lemma PrintTableCons(r: Record, t: seq<Record>)
    requires t != []
    ensures PrintTable([r] + t) == PrintRecord(r) + Crlf + PrintTable(t)
  {
    assert ([r] + t)[1..] == t;
  }

  lemma TailAndLast(t: seq<Record>, r: Record)
    requires t != []
    ensures t == [t[0]] + t[1..] && t + [r] == [t[0]] + (t[1..] + [r])
  {
  }

  lemma {:induction false} PrintTableSnoc(t: seq<Record>, r: Record)
    requires t != []
    ensures PrintTable(t + [r]) == PrintTable(t) + Crlf + PrintRecord(r)
  {
    var tail := t[1..];
    TailAndLast(t, r);
    PrintTableCons(t[0], tail + [r]);
    if tail == [] {
      assert tail + [r] == [r];
    } else {
      PrintTableCons(t[0], tail);
      PrintTableSnoc(tail, r);
    }
  }

  lemma PrintFour(x: Record)
    requires |x| == 4
    ensures PrintRecord(x) == Escape(x[0]) + "," + Escape(x[1]) + "," + Escape(x[2]) + "," + Escape(x[3])
  {
    assert x[1..][1..] == x[2..] && x[2..][1..] == x[3..];
    assert PrintRecord(x[3..]) == Escape(x[3]);
    assert PrintRecord(x[2..]) == Escape(x[2]) + "," + PrintRecord(x[3..]);
    assert PrintRecord(x[1..]) == Escape(x[1]) + "," + PrintRecord(x[2..]);
  }

  const HeaderLine: string := "row,status,errors,raw"

  lemma HeaderJoined()
    ensures "row" + "," + "status" + "," + "errors" + "," + "raw" == HeaderLine
  {
  }

  lemma HeaderPlain()
    ensures !HasSpecial("row") && !HasSpecial("status") && !HasSpecial("errors") && !HasSpecial("raw")
  {
  }

  lemma HeaderPrints()
    ensures PrintTable([Header]) == HeaderLine
  {
    HeaderPlain();
    HeaderJoined();
    PrintFour(Header);
  }

  function Line(x: Shown): string {
    Escape(x.number) + "," + Escape(x.status) + "," + Escape(x.errors) + "," + Escape(x.raw)
  }

  lemma NextLine(table: seq<Record>, i: nat, x: Shown)
    requires i + 1 < |table| && table[i + 1] == Fields(x)
    ensures PrintTable(table[..i + 2]) == PrintTable(table[..i + 1]) + Crlf + Line(x)
  {
    PrintFour(Fields(x));
    assert table[..i + 2] == table[..i + 1] + [Fields(x)];
    PrintTableSnoc(table[..i + 1], Fields(x));
  }

  /** The lines of the report, for the rows listed. */
  method WriteLines(rows: Rows, ids: seq<nat>, show: ImportRow -> Shown) returns (output: string)
    requires AllIn(ids, rows)
    ensures output == PrintTable(Table(rows, ids, show))
  {
    ghost var table := Table(rows, ids, show);
    output := HeaderLine;
    HeaderPrints();
    assert table[..1] == [Header];
    for i := 0 to |ids|
      invariant output == PrintTable(table[..i + 1])
    {
      var x := show(rows[ids[i]]);
      NextLine(table, i, x);
      output := output + Crlf + Line(x);
    }
    assert table[..|ids| + 1] == table;
  }

  /** errorCsv: after its byte-order mark, the text reads back as the header and every rejected row in order. */
  method WriteReport(rows: Rows, show: ImportRow -> Shown) returns (text: string)
    requires WellNumbered(rows)
    ensures AllIn(Listed(rows), rows) && ListsRejected(rows, Listed(rows))
    ensures |text| > 0 && text[0] == '\U{FEFF}' && ReadTable(text[1..]) == Some(Table(rows, Listed(rows), show))
    ensures Reports(Table(rows, Listed(rows), show), rows, Listed(rows), show)
  {
    ListedInRows(rows);
    TableReports(rows, Listed(rows), show);
    var output := WriteLines(rows, Listed(rows), show);
    TableRoundTrips(rows, Listed(rows), show);
    text := Bom + output;
    assert text[1..] == output;
  }

  lemma TableRoundTrips(rows: Rows, ids: seq<nat>, show: ImportRow -> Shown)
    requires AllIn(ids, rows)
    ensures ReadTable(PrintTable(Table(rows, ids, show))) == Some(Table(rows, ids, show))
  {
    var table := Table(rows, ids, show);
    assert |table[|table| - 1]| == 4;
    RoundTripIff(table);
  }
}
