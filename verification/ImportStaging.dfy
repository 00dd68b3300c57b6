/** Staging a file: its rows are numbered from 1 and written to the row table in batches. */
module ImportStaging {
  import opened Options
  import opened Text
  import opened ImportModel
  import opened ImportMapping
  import opened ImportBatching
  import opened ImportCommit
  import opened ImportPreview

  /** A row as the reader of its format yields it: the names of its cells in order, and the cells. */
  datatype RawRow = RawRow(names: seq<string>, cells: map<string, string>)

  function Clip(text: string): string {
    if |text| <= MaxCell then text else text[..MaxCell]
  }

  function StagedRow(number: nat, raw: RawRow, columns: seq<string>): ImportRow {
    ImportRow(number, map c | c in columns :: Clip(Cell(raw.cells, c)), None, Pending, [], None, None)
  }

  // ----- The columns of a file -----

  function NonEmptyOnes(names: seq<string>): seq<string> {
    if names == [] then [] else (if names[0] == "" then [] else [names[0]]) + NonEmptyOnes(names[1..])
  }

  const MaxColumns: nat := 200

  function FirstNames(names: seq<string>): seq<string> {
    NonEmptyOnes(names)[..Min(MaxColumns, |NonEmptyOnes(names)|)]
  }

  /** The columns once `n` rows have been read: a row is asked for them only while there are none. */
  function ColumnsAfter(raws: seq<RawRow>, n: nat): seq<string>
    requires n <= |raws|
  {
    if n == 0 then []
    else
      var columns := ColumnsAfter(raws, n - 1);
      if columns == [] then FirstNames(raws[n - 1].names) else columns
  }

  /** They are the names that are not empty, in their order, as far as the first 200 go. */
  lemma FirstNamesAre(names: seq<string>)
    ensures FirstNames(names) <= NonEmptyOnes(names) && |FirstNames(names)| == Min(200, |NonEmptyOnes(names)|)
    ensures forall c: string :: c in NonEmptyOnes(names) <==> c in names && c != ""
  {
    NonEmptyOnesAre(names);
  }

  lemma {:induction false} NonEmptyOnesInOrder(a: seq<string>, b: seq<string>)
    ensures NonEmptyOnes(a + b) == NonEmptyOnes(a) + NonEmptyOnes(b)
  {
    if a == [] {
      assert a + b == b;
    } else {
      assert (a + b)[0] == a[0] && (a + b)[1..] == a[1..] + b;
      NonEmptyOnesInOrder(a[1..], b);
    }
  }

  predicate Nameless(names: seq<string>) {
    forall name <- names :: name == ""
  }

  lemma {:induction false} NonEmptyOnesAre(names: seq<string>)
    ensures forall c: string :: c in NonEmptyOnes(names) <==> c in names && c != ""
  {
    if names != [] {
      NonEmptyOnesAre(names[1..]);
      assert names == [names[0]] + names[1..];
    }
  }

  lemma NamelessHasNone(names: seq<string>)
    ensures FirstNames(names) == [] <==> Nameless(names)
  {
    NonEmptyOnesAre(names);
    var named := NonEmptyOnes(names);
    if named == [] {
      forall c <- names ensures c == "" { assert c != "" ==> c in named; }
    } else {
      assert named[0] in named;
    }
  }

  lemma {:induction false} NoColumnsYet(raws: seq<RawRow>, n: nat)
    requires n <= |raws|
    ensures ColumnsAfter(raws, n) == [] <==> forall i :: 0 <= i < n ==> Nameless(raws[i].names)
  {
    if n > 0 {
      NoColumnsYet(raws, n - 1);
      NamelessHasNone(raws[n - 1].names);
    }
  }

  /** Once known, the columns do not change. */
  lemma {:induction false} ColumnsStay(raws: seq<RawRow>, n: nat, m: nat)
    requires n <= m <= |raws| && ColumnsAfter(raws, n) != []
    ensures ColumnsAfter(raws, m) == ColumnsAfter(raws, n)
    decreases m
  {
    if n < m { ColumnsStay(raws, n, m - 1); }
  }

  /** The columns of a file are the first 200 names of its first row with a name; other names are dropped. */
  lemma ColumnsOfFile(raws: seq<RawRow>, i: nat)
    requires i < |raws| && !Nameless(raws[i].names) && forall j :: 0 <= j < i ==> Nameless(raws[j].names)
    ensures forall n :: 0 <= n <= |raws| ==>
      ColumnsAfter(raws, n) == if n <= i then [] else FirstNames(raws[i].names)
  {
    forall n | 0 <= n <= |raws| ensures ColumnsAfter(raws, n) == if n <= i then [] else FirstNames(raws[i].names) {
      NoColumnsYet(raws, i);
      NamelessHasNone(raws[i].names);
      if n <= i { NoColumnsYet(raws, n); } else { ColumnsStay(raws, i + 1, n); }
    }
  }

  // ----- The staged rows -----

  /** Row identifiers are drawn at random and never collide; they need not follow the row numbers. */
  ghost predicate NeverCollide(idOf: nat -> nat) {
    forall i, j: nat :: idOf(i) == idOf(j) ==> i == j
  }

  /** Row `i` of the file as it is to be stored. */
  function Line(raws: seq<RawRow>, i: nat): ImportRow
    requires i < |raws|
  {
    StagedRow(i + 1, raws[i], ColumnsAfter(raws, i + 1))
  }

  ghost predicate AreLines(raws: seq<RawRow>, lines: seq<ImportRow>) {
    |lines| == |raws| && forall i {:trigger Line(raws, i)} :: 0 <= i < |raws| ==> lines[i] == Line(raws, i)
  }

  function Lines(raws: seq<RawRow>): (lines: seq<ImportRow>)
    ensures AreLines(raws, lines)
  {
    seq(|raws|, i requires 0 <= i < |raws| => Line(raws, i))
  }

  /** The table once the first `n` of these are written. */
  function Put(lines: seq<ImportRow>, idOf: nat -> nat, n: nat): Rows
    requires n <= |lines|
  {
    if n == 0 then map[] else Put(lines, idOf, n - 1)[idOf(n - 1) := lines[n - 1]]
  }

  function Staged(raws: seq<RawRow>, idOf: nat -> nat, n: nat): Rows
    requires n <= |raws|
  {
    Put(Lines(raws), idOf, n)
  }

  lemma {:induction false} PutAt(lines: seq<ImportRow>, idOf: nat -> nat, n: nat, i: nat)
    requires i < n <= |lines| && NeverCollide(idOf)
    ensures idOf(i) in Put(lines, idOf, n) && Put(lines, idOf, n)[idOf(i)] == lines[i]
  {
    if i < n - 1 {
      PutAt(lines, idOf, n - 1, i);
      assert idOf(i) != idOf(n - 1);
    }
  }

  lemma {:induction false} PutOnly(lines: seq<ImportRow>, idOf: nat -> nat, n: nat, id: nat) returns (i: nat)
    requires n <= |lines| && id in Put(lines, idOf, n)
    ensures i < n && idOf(i) == id
  {
    i := n - 1;
    if id != idOf(n - 1) { i := PutOnly(lines, idOf, n - 1, id); }
  }

  lemma {:induction false} PutCount(lines: seq<ImportRow>, idOf: nat -> nat, n: nat)
    requires n <= |lines| && NeverCollide(idOf)
    ensures |Put(lines, idOf, n)| == n
  {
    if n > 0 {
      PutCount(lines, idOf, n - 1);
      if idOf(n - 1) in Put(lines, idOf, n - 1) {
        var i := PutOnly(lines, idOf, n - 1, idOf(n - 1));
        assert false;
      }
    }
  }

  /** The rows written are those of the file, numbered from 1, each under an identifier of its own. */
  lemma StagedAt(raws: seq<RawRow>, idOf: nat -> nat, n: nat, i: nat)
    requires i < n <= |raws| && NeverCollide(idOf)
    ensures var rows := Staged(raws, idOf, n);
      idOf(i) in rows && rows[idOf(i)] == StagedRow(i + 1, raws[i], ColumnsAfter(raws, i + 1))
  {
    PutAt(Lines(raws), idOf, n, i);
    assert Lines(raws)[i] == Line(raws, i);
  }

  /**
   The stored row is unjudged and has a cell for every column: the file's cell, trimmed, or its first 10,000
   characters if it is longer, and the empty text where the file has none.
  */
  lemma StagedCells(raws: seq<RawRow>, idOf: nat -> nat, n: nat, i: nat)
    requires i < n <= |raws| && NeverCollide(idOf) && idOf(i) in Staged(raws, idOf, n)
    ensures var row := Staged(raws, idOf, n)[idOf(i)];
      && row.number == i + 1 && row.status == Pending && row.notes == []
      && row.normalized == None && row.dedupeKey == None && row.contactId == None
      && (forall c :: c in row.raw <==> c in ColumnsAfter(raws, i + 1))
      && forall c :: c in row.raw ==>
           var cell := if c in raws[i].cells then Trim(raws[i].cells[c]) else "";
           row.raw[c] <= cell && |row.raw[c]| == Min(|cell|, 10_000)
  {
    StagedAt(raws, idOf, n, i);
    TrimCleans("");
  }

  /** No other row is written. */
  lemma StagedOnly(raws: seq<RawRow>, idOf: nat -> nat, n: nat, id: nat) returns (i: nat)
    requires n <= |raws| && id in Staged(raws, idOf, n)
    ensures i < n && idOf(i) == id
  {
    i := PutOnly(Lines(raws), idOf, n, id);
  }

  /** There are as many as the file has. */
  lemma StagedCount(raws: seq<RawRow>, idOf: nat -> nat, n: nat)
    requires n <= |raws| && NeverCollide(idOf)
    ensures |Staged(raws, idOf, n)| == n
  {
    PutCount(Lines(raws), idOf, n);
  }

  lemma NumberNamesRow(raws: seq<RawRow>, idOf: nat -> nat, n: nat, id: nat)
    requires n <= |raws| && NeverCollide(idOf) && id in Staged(raws, idOf, n)
    ensures var number := Staged(raws, idOf, n)[id].number; number > 0 && idOf(number - 1) == id
  {
    var i := StagedOnly(raws, idOf, n, id);
    StagedAt(raws, idOf, n, i);
  }

  lemma StagedIsWellNumbered(raws: seq<RawRow>, idOf: nat -> nat, n: nat)
    requires n <= |raws| && NeverCollide(idOf)
    ensures WellNumbered(Staged(raws, idOf, n))
  {
    var rows := Staged(raws, idOf, n);
    forall id | id in rows ensures rows[id].number > 0 { NumberNamesRow(raws, idOf, n, id); }
    forall a, b | a in rows && b in rows && rows[a].number == rows[b].number ensures a == b {
      NumberNamesRow(raws, idOf, n, a);
      NumberNamesRow(raws, idOf, n, b);
    }
  }

  /** Staged cells are short, so mapping a staged file is covered by the comparison with the simple rule. */
  lemma StagedIsStageable(raws: seq<RawRow>, idOf: nat -> nat, n: nat)
    requires n <= |raws| && NeverCollide(idOf)
    ensures Stageable(Staged(raws, idOf, n))
  {
    var rows := Staged(raws, idOf, n);
    forall id | id in rows ensures ShortCells(rows[id].raw) {
      var i := StagedOnly(raws, idOf, n, id);
      StagedAt(raws, idOf, n, i);
    }
  }

  /** How many of `total` rows wait in the batch that is not full yet. */
  function Waiting(total: nat, take: nat): (r: nat)
    requires take > 0
    ensures r <= total
  {
    if total == 0 then 0
    else
      var before := Waiting(total - 1, take);
      if before + 1 >= take then 0 else before + 1
  }

  /** What is written is always a number of full batches, and less than one batch waits. */
  lemma {:induction false} WaitingIsRemainder(total: nat, take: nat) returns (full: nat)
    requires take > 0
    ensures total == full * take + Waiting(total, take) && Waiting(total, take) < take
  {
    full := 0;
    if total > 0 {
      full := WaitingIsRemainder(total - 1, take);
      if Waiting(total, take) == 0 {
        assert (full + 1) * take == full * take + take;
        full := full + 1;
      }
    }
  }

  /** How many rows reach the table: all of them, or the full batches before the row limit is noticed. */
  function Written(total: nat, limit: nat, take: nat): (n: nat)
    requires take > 0
    ensures n <= total
  {
    if total <= limit then total else limit + 1 - Waiting(limit + 1, take)
  }

  lemma SliceGrows(lines: seq<ImportRow>, from: nat, to: nat)
    requires from <= to < |lines|
    ensures lines[from..to + 1] == lines[from..to] + [lines[to]]
  {
  }

  class StagingTable {
    var rows: Rows

    constructor ()
      ensures rows == map[]
    {
      rows := map[];
    }

    /** One insert of a whole batch, which starts with row `from` of the file. */
    method CreateMany(batch: seq<ImportRow>, idOf: nat -> nat, from: nat, ghost lines: seq<ImportRow>)
      requires from + |batch| <= |lines| && batch == lines[from..from + |batch|]
      requires rows == Put(lines, idOf, from)
      modifies this
      ensures rows == Put(lines, idOf, from + |batch|)
    {
      for i := 0 to |batch|
        invariant rows == Put(lines, idOf, from + i)
      {
        assert batch[i] == lines[from + i];
        rows := rows[idOf(from + i) := batch[i]];
      }
    }

    /** One row goes into the batch, which is written when it is full. */
    method AddRow(line: ImportRow, idOf: nat -> nat, total: nat, waiting: seq<ImportRow>, take: nat,
                  ghost lines: seq<ImportRow>)
      returns (batch: seq<ImportRow>)
      requires take > 0 && total < |lines| && lines[total] == line
      requires |waiting| == Waiting(total, take) && waiting == lines[total - |waiting|..total]
      requires rows == Put(lines, idOf, total - |waiting|)
      modifies this
      ensures |batch| == Waiting(total + 1, take) && batch == lines[total + 1 - |batch|..total + 1]
      ensures rows == Put(lines, idOf, total + 1 - |batch|)
    {
      SliceGrows(lines, total - |waiting|, total);
      batch := waiting + [line];
      if |batch| >= take {
        CreateMany(batch, idOf, total + 1 - |batch|, lines);
        batch := [];
      }
    }

    /** One turn of the loop: the columns are looked up while there are none, and the row is added. */
    method ReadRow(raws: seq<RawRow>, columns0: seq<string>, idOf: nat -> nat, total: nat, waiting: seq<ImportRow>,
                   take: nat, ghost lines: seq<ImportRow>)
      returns (columns: seq<string>, batch: seq<ImportRow>)
      requires take > 0 && total < |raws| == |lines| && lines[total] == Line(raws, total)
      requires columns0 == ColumnsAfter(raws, total)
      requires |waiting| == Waiting(total, take) && waiting == lines[total - |waiting|..total]
      requires rows == Put(lines, idOf, total - |waiting|)
      modifies this
      ensures columns == ColumnsAfter(raws, total + 1)
      ensures |batch| == Waiting(total + 1, take) && batch == lines[total + 1 - |batch|..total + 1]
      ensures rows == Put(lines, idOf, total + 1 - |batch|)
    {
      columns := columns0;
      if columns == [] { columns := FirstNames(raws[total].names); }
      batch := AddRow(StagedRow(total + 1, raws[total], columns), idOf, total, waiting, take, lines);
    }

    /** The loop over the file, up to its end or the row limit. */
    method ReadRows(raws: seq<RawRow>, idOf: nat -> nat, limit: nat, take: nat, ghost lines: seq<ImportRow>)
      returns (columns: seq<string>, total: nat, batch: seq<ImportRow>)
      requires take > 0 && rows == map[] && AreLines(raws, lines)
      modifies this
      ensures total == (if |raws| > limit then limit + 1 else |raws|) && columns == ColumnsAfter(raws, total)
      ensures |batch| == Waiting(total, take) && batch == lines[total - |batch|..total]
      ensures rows == Put(lines, idOf, total - |batch|)
    {
      columns, total, batch := [], 0, [];
      assert lines[0..0] == [];
      while total < |raws| && total <= limit
        invariant total <= |raws| && total <= limit + 1 && columns == ColumnsAfter(raws, total)
        invariant |batch| == Waiting(total, take) && batch == lines[total - |batch|..total]
        invariant rows == Put(lines, idOf, total - |batch|)
      {
        columns, batch := ReadRow(raws, columns, idOf, total, batch, take, lines);
        total := total + 1;
      }
    }

    method StageLines(raws: seq<RawRow>, idOf: nat -> nat, limit: nat, take: nat, ghost lines: seq<ImportRow>)
      returns (columns: seq<string>, total: nat, tooMany: bool)
      requires take > 0 && rows == map[] && AreLines(raws, lines)
      modifies this
      ensures tooMany == (|raws| > limit) && total == if tooMany then limit + 1 else |raws|
      ensures columns == ColumnsAfter(raws, total)
      ensures rows == Put(lines, idOf, Written(|raws|, limit, take))
    {
      var batch;
      columns, total, batch := ReadRows(raws, idOf, limit, take, lines);
      tooMany := total > limit;
      if !tooMany { CreateMany(batch, idOf, total - |batch|, lines); }
    }

    /** The source writes 500 rows at a time; `tooMany` is its exception, which leaves the last batch unwritten. */
    method StageFile(raws: seq<RawRow>, idOf: nat -> nat, limit: nat, take: nat)
      returns (columns: seq<string>, total: nat, tooMany: bool)
      requires take > 0 && rows == map[]
      modifies this
      ensures tooMany == (|raws| > limit) && total == if tooMany then limit + 1 else |raws|
      ensures columns == ColumnsAfter(raws, total)
      ensures rows == Staged(raws, idOf, Written(|raws|, limit, take))
    {
      columns, total, tooMany := StageLines(raws, idOf, limit, take, Lines(raws));
    }
  }

  /** From the file to the end of the import: staged, mapped with any page size, committed undisturbed. */
  lemma StagedFileImportsAsPreviewed(raws: seq<RawRow>, idOf: nat -> nat, m: Setup, before: Rows,
                                     skipped: nat, limit: nat, es: seq<Event>)
    requires m.take > 0 && NeverCollide(idOf) && before == Staged(raws, idOf, |raws|)
    requires WithinQuota(QueuedImport(m, before, skipped), limit) && AllSmooth(es)
    requires Run(FirstStep(QueuedImport(m, before, skipped), limit), es).attempt.None?
    ensures var s0 := QueuedImport(m, before, skipped);
      var s := Run(FirstStep(s0, limit), es);
      (AsPreviewed(s0, s) && s.job.importedRows == MappingCounters(m, before).valid) <==> NoClash(s0.rows, s0.contacts)
  {
    StagedIsWellNumbered(raws, idOf, |raws|);
    MappedFileImportsAsPreviewed(m, before, skipped, limit, es);
  }
}
