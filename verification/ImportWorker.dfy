/** The worker's import handler, run without interruption: a loop of pages, and a loop of rows in each. */
module ImportWorker {
  import opened Options
  import opened ImportModel
  import opened ImportMapping
  import opened ImportCommit
  import opened ImportPreview

  /** A run nobody cuts and nobody disturbs. */
  ghost predicate Undisturbed(es: seq<Event>) {
    forall i :: 0 <= i < |es| ==> !es[i].Cut? && !es[i].Outside?
  }

  /** Which VALID rows of a run were hit by a failing statement. */
  ghost predicate FaultsOnlyIf(es: seq<Event>, faulty: bool) {
    forall i :: 0 <= i < |es| ==> (es[i].Decide? && es[i].fault ==> faulty)
  }

  lemma RunOne(s: State, es: seq<Event>, e: Event)
    ensures Run(s, es + [e]) == Step(Run(s, es), e)
  {
    assert (es + [e])[..|es|] == es;
  }

  lemma SplitLast(es: seq<Event>)
    requires es != []
    ensures es == es[..|es| - 1] + [es[|es| - 1]]
  {
  }

  lemma AppendIsAssociative(a: seq<Event>, b: seq<Event>, c: seq<Event>)
    ensures a + (b + c) == (a + b) + c
  {
  }

  lemma OneMoreAfterFirst(s: State, e: Event, front: seq<Event>, last: Event)
    requires Run(s, [e] + front) == Run(Step(s, e), front)
    ensures Run(s, [e] + (front + [last])) == Run(Step(s, e), front + [last])
  {
    AppendIsAssociative([e], front, [last]);
    RunOne(s, [e] + front, last);
    RunOne(Step(s, e), front, last);
  }

  lemma {:induction false} RunAfterFirst(s: State, e: Event, es: seq<Event>)
    ensures Run(s, [e] + es) == Run(Step(s, e), es)
  {
    if es == [] {
      assert [e] + es == [] + [e];
      RunOne(s, [], e);
    } else {
      SplitLast(es);
      RunAfterFirst(s, e, es[..|es| - 1]);
      OneMoreAfterFirst(s, e, es[..|es| - 1], es[|es| - 1]);
    }
  }

  /** A faultless run does what the preview showed, or the preview was not to be trusted in the first place. */
  lemma TracePredicts(s0: State, limit: nat, trace: seq<Event>)
    requires Mapped(s0) && WithinQuota(s0, limit) && trace != [] && trace[0] == Begin(Some(limit))
    requires Undisturbed(trace) && FaultsOnlyIf(trace, false) && Run(s0, trace).attempt.None?
    ensures AsPreviewed(s0, Run(s0, trace)) <==> NoClash(s0.rows, s0.contacts)
  {
    var rest := trace[1..];
    assert trace == [trace[0]] + rest;
    RunAfterFirst(s0, trace[0], rest);
    assert AllSmooth(rest);
    PreviewPredictsCommitIff(s0, limit, rest);
  }

  lemma OneValidLess(rows: Rows, r: nat, row: ImportRow)
    requires r in rows && rows[r].status == Valid && row.status != Valid
    ensures |With(rows[r := row], Valid)| < |With(rows, Valid)|
  {
    assert With(rows[r := row], Valid) == With(rows, Valid) - {r};
  }

  class ImportTables {
    var rows: Rows
    var contacts: Contacts
    var job: Job
    var nextId: nat
    ghost var made: seq<Made>

    ghost function At(attempt: Option<Attempt>): State
      reads this
    {
      State(rows, contacts, job, attempt, made)
    }

    /** The next contact id is larger than every id ever given out. */
    ghost predicate Consistent()
      reads this
    {
      && (forall c :: c in contacts ==> c < nextId)
      && (forall m <- made :: m.contact < nextId)
    }

    constructor (rows: Rows, contacts: Contacts, job: Job, nextId: nat)
      requires forall c :: c in contacts ==> c < nextId
      ensures Consistent() && At(None) == State(rows, contacts, job, None, [])
    {
      this.rows, this.contacts, this.job, this.nextId, made := rows, contacts, job, nextId, [];
    }

    /** The contact lookup. */
    method FindFirst(r: nat, ghost attempt: Option<Attempt>) returns (hit: Option<nat>)
      requires r in rows
      ensures TrueAnswer(At(attempt), r, hit)
    {
      hit := None;
      if rows[r].normalized.Some? {
        var row := rows[r].normalized.value;
        if c: nat :| c in contacts && Matches(contacts[c], row) {
          hit := Some(c);
        }
      }
    }

    /** The write of one row whose lookup answered `hit`; `fault` says that the write fails. */
    method WriteRow(r: nat, hit: Option<nat>, fault: bool, ghost a: Attempt) returns (o: Outcome, ghost id: nat)
      requires Consistent() && r in rows && a.phase.Deciding? && a.phase.row == r && a.phase.hit == hit
      modifies this`rows, this`contacts, this`nextId, this`made
      ensures Consistent() && Unused(old(At(Some(a))), id)
      ensures o == OutcomeOf(old(At(Some(a))), r, hit, id, fault)
      ensures At(Some(Count(a, o).(phase := Working(a.phase.queue)))) == DecideRow(old(At(Some(a))), a, id, fault)
    {
      id := nextId;
      var row := rows[r];
      if !fault && row.normalized.Some? && hit.Some? {
        o := Skips(hit);
      } else if !fault && row.normalized.Some? && !Clashes(contacts, row.normalized.value) {
        o := Creates(nextId);
        contacts := contacts[nextId := NewContact(row.number, row.normalized.value)];
        nextId := nextId + 1;
      } else {
        o := Fails;
      }
      rows := rows[r := Settle(row, o)];
      made := Log(made, r, o);
    }

    /** The first row of the page: looked up, then written. */
    method CommitRow(r: nat, fault: bool, ghost a: Attempt) returns (o: Outcome, ghost look: Event, ghost decide: Event)
      requires Consistent() && r in rows && a.phase.Working? && a.phase.queue != [] && a.phase.queue[0] == r
      modifies this`rows, this`contacts, this`nextId, this`made
      ensures Consistent() && look.Look? && decide.Decide? && decide.fault == fault
      ensures rows == old(rows)[r := Settle(old(rows)[r], o)]
      ensures At(Some(Count(a, o).(phase := Working(a.phase.queue[1..]), lastRow := old(rows)[r].number)))
           == Step(Step(old(At(Some(a))), look), decide)
    {
      var hit := FindFirst(r, Some(a));
      ghost var b := a.(phase := Deciding(r, hit, a.phase.queue[1..]), lastRow := rows[r].number);
      assert Step(At(Some(a)), Look(hit)) == At(Some(b));
      ghost var id;
      o, id := WriteRow(r, hit, fault, b);
      look, decide := Look(hit), Decide(id, fault);
    }

    /** A page, row by row. */
    method CommitPage(page: seq<nat>, faults: set<nat>, lastRow0: nat, imported0: nat, failed0: nat, raceSkipped0: nat,
                      ghost a0: Attempt, ghost p: Path, ghost on: (State, seq<Event>) -> bool, ghost trace0: seq<Event>)
      returns (lastRow: nat, imported: nat, failed: nat, raceSkipped: nat, ghost a: Attempt, ghost trace: seq<Event>)
      requires Consistent() && page != [] && IsPath(p, on) && p.faulty == (faults != {})
      requires a0.phase == Working(page) && a0.lastRow == lastRow0
      requires a0.imported == imported0 && a0.failed == failed0 && a0.raceSkipped == raceSkipped0
      requires on(At(Some(a0)), trace0)
      modifies this`rows, this`contacts, this`nextId, this`made
      ensures Consistent()
      ensures a == a0.(phase := Working([]), lastRow := lastRow, imported := imported, failed := failed,
                       raceSkipped := raceSkipped)
      ensures on(At(Some(a)), trace)
      ensures |With(rows, Valid)| < |With(old(rows), Valid)|
    {
      lastRow, imported, failed, raceSkipped := lastRow0, imported0, failed0, raceSkipped0;
      a, trace := a0, trace0;
      for k := 0 to |page|
        invariant Consistent()
        invariant a == a0.(phase := Working(page[k..]), lastRow := lastRow, imported := imported, failed := failed,
                           raceSkipped := raceSkipped)
        invariant on(At(Some(a)), trace)
        invariant |With(rows, Valid)| <= |With(old(rows), Valid)| - k
      {
        var r := page[k];
        NextIsValid(p, on, At(Some(a)), a, trace);
        ghost var before, was := At(Some(a)), rows;
        lastRow := rows[r].number;
        var o, look, decide := CommitRow(r, r in faults, a);
        Advance(p, on, before, trace, look);
        Advance(p, on, Step(before, look), trace + [look], decide);
        OneValidLess(was, r, Settle(was[r], o));
        a, trace := Count(a, o).(phase := Working(a.phase.queue[1..]), lastRow := lastRow), trace + [look] + [decide];
        match o {
          case Creates(_) => imported := imported + 1;
          case Skips(_) => raceSkipped := raceSkipped + 1;
          case Fails => failed := failed + 1;
        }
      }
    }

    method SaveCounters(skippedBefore: nat, imported: nat, failed: nat, raceSkipped: nat, ghost a: Attempt)
      requires a.phase == Working([]) && a.imported == imported && a.failed == failed && a.raceSkipped == raceSkipped
      requires a.skippedBefore == skippedBefore
      modifies this`job
      ensures At(Some(a.(phase := Fetching))) == Step(old(At(Some(a))), Save)
    {
      job := job.(importedRows := imported, failedRows := failed, skippedRows := skippedBefore + raceSkipped,
                  progress := Shown(imported + failed + raceSkipped, job.validRows));
    }

    method Finish(skippedBefore: nat, imported: nat, failed: nat, raceSkipped: nat, ghost a: Attempt)
      requires a.phase.Ending? && a.imported == imported && a.failed == failed && a.raceSkipped == raceSkipped
      requires a.skippedBefore == skippedBefore
      modifies this`job
      ensures At(None) == Step(old(At(Some(a))), End)
      ensures job.status == if failed > 0 then Partial else Completed
    {
      job := job.(status := if failed > 0 then Partial else Completed, importedRows := imported, failedRows := failed,
                  skippedRows := skippedBefore + raceSkipped, progress := 100);
    }

    /** A page committed and the counters saved. */
    method ProcessPage(page: seq<nat>, faults: set<nat>, skippedBefore: nat,
                       lastRow0: nat, imported0: nat, failed0: nat, raceSkipped0: nat,
                       ghost a0: Attempt, ghost p: Path, ghost on: (State, seq<Event>) -> bool,
                       ghost trace0: seq<Event>)
      returns (lastRow: nat, imported: nat, failed: nat, raceSkipped: nat, ghost a: Attempt, ghost trace: seq<Event>)
      requires Consistent() && page != [] && IsPath(p, on) && p.faulty == (faults != {})
      requires a0 == Attempt(Working(page), lastRow0, imported0, failed0, raceSkipped0, skippedBefore, a0.began)
      requires on(At(Some(a0)), trace0)
      modifies this
      ensures Consistent() && on(At(Some(a)), trace)
      ensures a == Attempt(Fetching, lastRow, imported, failed, raceSkipped, skippedBefore, a0.began)
      ensures |With(rows, Valid)| < |With(old(rows), Valid)|
    {
      lastRow, imported, failed, raceSkipped, a, trace :=
        CommitPage(page, faults, lastRow0, imported0, failed0, raceSkipped0, a0, p, on, trace0);
      Advance(p, on, At(Some(a)), trace, Save);
      SaveCounters(skippedBefore, imported, failed, raceSkipped, a);
      a, trace := a.(phase := Fetching), trace + [Save];
    }

    /** One turn of the loop over the pages: without a page to fetch there is nothing more to do. */
    method ProcessNextPage(faults: set<nat>, take: nat, skippedBefore: nat,
                           lastRow0: nat, imported0: nat, failed0: nat, raceSkipped0: nat,
                           ghost a0: Attempt, ghost p: Path, ghost on: (State, seq<Event>) -> bool,
                           ghost trace0: seq<Event>)
      returns (more: bool, lastRow: nat, imported: nat, failed: nat, raceSkipped: nat,
               ghost a: Attempt, ghost trace: seq<Event>)
      requires Consistent() && take > 0 && IsPath(p, on) && p.faulty == (faults != {})
      requires a0 == Attempt(Fetching, lastRow0, imported0, failed0, raceSkipped0, skippedBefore, a0.began)
      requires on(At(Some(a0)), trace0)
      modifies this
      ensures Consistent() && on(At(Some(a)), trace)
      ensures a == Attempt(if more then Fetching else Ending, lastRow, imported, failed, raceSkipped, skippedBefore,
                           a0.began)
      ensures if more then |With(rows, Valid)| < |With(old(rows), Valid)| else rows == old(rows)
    {
      lastRow, imported, failed, raceSkipped := lastRow0, imported0, failed0, raceSkipped0;
      var page := Page(rows, lastRow, take);
      Advance(p, on, At(Some(a0)), trace0, Fetch(take));
      a, trace := a0.(phase := if page == [] then Ending else Working(page)), trace0 + [Fetch(take)];
      more := |page| > 0;
      if more {
        lastRow, imported, failed, raceSkipped, a, trace :=
          ProcessPage(page, faults, skippedBefore, lastRow, imported, failed, raceSkipped, a, p, on, trace);
      }
    }

    /** The loop over the pages, and the last write. */
    method ProcessPages(faults: set<nat>, take: nat, ghost a0: Attempt, ghost p: Path,
                        ghost on: (State, seq<Event>) -> bool,
                        ghost trace0: seq<Event>) returns (ghost trace: seq<Event>)
      requires Consistent() && take > 0 && IsPath(p, on) && p.faulty == (faults != {})
      requires a0 == Attempt(Fetching, 0, 0, 0, 0, job.skippedRows, rows) && on(At(Some(a0)), trace0)
      modifies this
      ensures Consistent() && on(At(None), trace) && job.status in {Completed, Partial}
    {
      var skippedBefore := job.skippedRows;
      var lastRow: nat, imported: nat, failed: nat, raceSkipped: nat := 0, 0, 0, 0;
      ghost var a := a0;
      trace := trace0;
      var more := true;
      while more
        invariant Consistent() && on(At(Some(a)), trace)
        invariant a == Attempt(if more then Fetching else Ending, lastRow, imported, failed, raceSkipped, skippedBefore,
                               a0.began)
        decreases |With(rows, Valid)|, more
      {
        more, lastRow, imported, failed, raceSkipped, a, trace :=
          ProcessNextPage(faults, take, skippedBefore, lastRow, imported, failed, raceSkipped, a, p, on, trace);
      }
      Advance(p, on, At(Some(a)), trace, End);
      Finish(skippedBefore, imported, failed, raceSkipped, a);
      trace := trace + [End];
    }

    /** An import without faults, from a mapped file: exactly as previewed, if and only if no id clashes. */
    method ImportMappedFile(limit: nat, take: nat) returns (started: bool)
      requires Consistent() && take > 0 && Mapped(At(None))
      modifies this
      ensures started == (|set c | c in old(contacts) && !old(contacts)[c].archived| + old(job).validRows <= limit)
      ensures started ==> (AsPreviewed(old(At(None)), At(None)) <==> NoClash(old(rows), old(contacts)))
      ensures !started ==> At(None) == old(At(None))
    {
      ghost var s0 := At(None);
      ghost var trace;
      assert Living(contacts) == set c | c in contacts && !contacts[c].archived;
      started, trace := ProcessStagedImport(Some(limit), {}, take, rows);
      if started { TracePredicts(s0, limit, trace); }
    }

    /**
     The handler. It does nothing to a finished import, throws (`started` is false) when the workspace
     is blocked or its contact quota would be passed, and otherwise runs to the end.
     */
    method ProcessStagedImport(limit: Option<nat>, faults: set<nat>, take: nat, ghost first: Rows)
      returns (started: bool, ghost trace: seq<Event>)
      requires Consistent() && take > 0 && Inv(first, At(None))
      modifies this
      ensures Consistent() && At(None) == Run(old(At(None)), trace) && Undisturbed(trace)
      ensures Inv(first, At(None)) && FaultsOnlyIf(trace, faults != {})
      ensures started
           == (old(job).status !in {Completed, Partial} && limit.Some?
               && |set c | c in old(contacts) && !old(contacts)[c].archived| + old(job).validRows <= limit.value)
      ensures started ==> trace != [] && trace[0] == Begin(limit) && job.status in {Completed, Partial}
      ensures !started ==> trace == []
    {
      started, trace := false, [];
      if job.status in {Completed, Partial} { return; }
      assert Living(contacts) == set c | c in contacts && !contacts[c].archived;
      if limit.None? || LiveCount(contacts) + job.validRows > limit.value { return; }
      started := true;
      ghost var p := Path(first, At(None), faults != {}, [Begin(limit)]);
      ghost var on := PathAsValue(p);
      ghost var a := Attempt(Fetching, 0, 0, 0, 0, job.skippedRows, rows);
      PathStarts(p, on);
      job := job.(status := Processing, progress := 0, importedRows := 0, failedRows := 0);
      trace := ProcessPages(faults, take, a, p, on, p.start);
      assert OnPath(p, At(None), trace) == on(At(None), trace);
    }
  }

  /** A run from `from` that began with `start`. */
  datatype Path = Path(first: Rows, from: State, faulty: bool, start: seq<Event>)

  ghost predicate OnPath(p: Path, s: State, es: seq<Event>) {
    && Inv(p.first, s) && s == Run(p.from, es) && Undisturbed(es) && FaultsOnlyIf(es, p.faulty)
    && p.start <= es
  }

  /** `on` is OnPath. The methods carry it as a value, so that its definition stays in the lemmas. */
  ghost predicate IsPath(p: Path, on: (State, seq<Event>) -> bool) {
    forall s, es {:trigger OnPath(p, s, es)} :: on(s, es) == OnPath(p, s, es)
  }

  lemma PathAsValue(p: Path) returns (on: (State, seq<Event>) -> bool)
    ensures IsPath(p, on)
  {
    on := (s, es) => OnPath(p, s, es);
  }

  lemma PathStarts(p: Path, on: (State, seq<Event>) -> bool)
    requires IsPath(p, on) && |p.start| == 1 && p.start[0].Begin? && Inv(p.first, p.from)
    ensures on(Step(p.from, p.start[0]), p.start)
  {
    assert p.start[..0] == [];
    StepKeeps(p.first, p.from, p.start[0]);
    assert OnPath(p, Step(p.from, p.start[0]), p.start);
  }

  lemma Advance(p: Path, on: (State, seq<Event>) -> bool, s: State, es: seq<Event>, e: Event)
    requires IsPath(p, on) && on(s, es) && !e.Cut? && !e.Outside? && (e.Decide? && e.fault ==> p.faulty)
    ensures on(Step(s, e), es + [e])
  {
    assert OnPath(p, s, es);
    StepKeeps(p.first, s, e);
    RunOne(p.from, es, e);
    assert OnPath(p, Step(s, e), es + [e]);
  }

  lemma NextIsValid(p: Path, on: (State, seq<Event>) -> bool, s: State, a: Attempt, es: seq<Event>)
    requires IsPath(p, on) && on(s, es) && s.attempt == Some(a) && a.phase.Working? && a.phase.queue != []
    ensures a.phase.queue[0] in s.rows && s.rows[a.phase.queue[0]].status == Valid
  {
    assert OnPath(p, s, es);
    assert InOrder(s.rows, a.lastRow)[0] == a.phase.queue[0];
    PassFirst(s.rows, a.lastRow);
  }
}
