/**
 Committing a mapped file. The worker's statements are events, so an attempt can be cut after any of
 them and started again, and other writers of the contact table can come between any two.
 */
module ImportCommit {
  import opened Options
  import opened Sets
  import opened ImportModel
  import opened Ordering
  import opened ImportMapping

  datatype Job = Job(
    status: JobStatus,
    validRows: nat,
    importedRows: nat,
    failedRows: nat,
    skippedRows: nat,
    progress: nat
  )

  /** Deciding carries the answer of the contact lookup for row `row`; `queue` is the rest of the page. */
  datatype Phase =
    | Fetching
    | Working(queue: seq<nat>)
    | Deciding(row: nat, hit: Option<nat>, queue: seq<nat>)
    | Ending

  /** The locals of one attempt; `began` is the row table it started from, kept for the proofs. */
  datatype Attempt = Attempt(
    phase: Phase,
    lastRow: nat,
    imported: nat,
    failed: nat,
    raceSkipped: nat,
    skippedBefore: nat,
    began: Rows
  )

  datatype Made = Made(row: nat, contact: nat)

  /** `made` logs every contact an attempt created, and for which row. */
  datatype State = State(rows: Rows, contacts: Contacts, job: Job, attempt: Option<Attempt>, made: seq<Made>)

  datatype Event =
    | Begin(limit: Option<nat>)
    | Fetch(take: nat)
    | Look(hit: Option<nat>)
    | Decide(id: nat, fault: bool)
    | Save
    | End
    | Cut
    | GiveUp
    | Cancel
    | Outside(contacts: Contacts)

  // ----- The rows an attempt still has before it -----

  function Numbers(rows: Rows): map<nat, nat> {
    map id | id in rows :: rows[id].number
  }

  function Ahead(rows: Rows, lastRow: nat): set<nat> {
    set id | id in rows && rows[id].status == Valid && rows[id].number > lastRow
  }

  /** Staging numbers the rows of a file from 1, each number once. */
  predicate WellNumbered(rows: Rows) {
    && Distinguishes(Numbers(rows), rows.Keys)
    && forall id :: id in rows ==> rows[id].number > 0
  }

  function InOrder(rows: Rows, lastRow: nat): seq<nat>
    requires WellNumbered(rows)
  {
    OrderBy(Ahead(rows, lastRow), Numbers(rows))
  }

  /** The page query: VALID rows beyond `lastRow` in row order. A table no file was staged to has none. */
  function Page(rows: Rows, lastRow: nat, take: nat): seq<nat> {
    if WellNumbered(rows) then InOrder(rows, lastRow)[..Min(take, |InOrder(rows, lastRow)|)] else []
  }

  // ----- One row -----

  predicate Matches(contact: Contact, row: NormalizedRow) {
    && !contact.archived
    && ((Present(row.platformUserId) && contact.platform.Zalo? && contact.platformUserId == row.platformUserId)
        || (Present(row.normalizedPhone) && contact.normalizedPhone == row.normalizedPhone))
  }

  /** The unique key (workspace, platform, platform user id) covers archived contacts too. */
  predicate Clashes(contacts: Contacts, row: NormalizedRow) {
    exists c :: c in contacts && Present(row.platformUserId) && contacts[c].platform.Zalo?
      && contacts[c].platformUserId == row.platformUserId
  }

  function Keep(text: Option<string>): Option<string> {
    if Present(text) then text else None
  }

  function NewContact(number: nat, row: NormalizedRow): Contact {
    Contact(Zalo, Keep(row.platformUserId), row.displayName, Keep(row.phone), Keep(row.normalizedPhone),
      Keep(row.username), Keep(row.email), Keep(row.gender), row.source, row.consent,
      row.consent.OptedOut?, false, Some(number))
  }

  /** Identifiers are never used twice. */
  predicate Unused(s: State, id: nat) {
    id !in s.contacts && forall m <- s.made :: m.contact != id
  }

  /** The lookup may answer with any live contact that matches, and with none only if there is none. */
  predicate TrueAnswer(s: State, row: nat, hit: Option<nat>) {
    row in s.rows && s.rows[row].normalized.Some? ==>
      match hit
      case Some(c) => c in s.contacts && Matches(s.contacts[c], s.rows[row].normalized.value)
      case None => forall c :: c in s.contacts ==> !Matches(s.contacts[c], s.rows[row].normalized.value)
  }

  /** What becomes of a row: the contact that appeared, the contact created, or a failure. */
  datatype Outcome = Skips(found: Option<nat>) | Creates(contact: nat) | Fails

  function OutcomeOf(s: State, row: nat, hit: Option<nat>, id: nat, fault: bool): Outcome
    requires row in s.rows
  {
    if !fault && s.rows[row].normalized.Some? && hit.Some? then Skips(hit)
    else if fault || s.rows[row].normalized.None? || Clashes(s.contacts, s.rows[row].normalized.value) then Fails
    else Creates(id)
  }

  function Settle(row: ImportRow, o: Outcome): ImportRow {
    match o
    case Skips(hit) => row.(status := Skipped, notes := [AppearedAfterPreview], contactId := hit)
    case Creates(id) => row.(status := Imported, contactId := Some(id))
    case Fails => row.(status := RowStatus.Failed, notes := [CreateFailed])
  }

  function Count(a: Attempt, o: Outcome): Attempt {
    match o
    case Skips(_) => a.(raceSkipped := a.raceSkipped + 1)
    case Creates(_) => a.(imported := a.imported + 1)
    case Fails => a.(failed := a.failed + 1)
  }

  function Log(made: seq<Made>, row: nat, o: Outcome): seq<Made> {
    if o.Creates? then made + [Made(row, o.contact)] else made
  }

  /** The row written SKIPPED, IMPORTED (in one transaction with its contact) or FAILED, and counted. */
  function DecideRow(s: State, a: Attempt, id: nat, fault: bool): State
    requires a.phase.Deciding? && a.phase.row in s.rows
  {
    var r := a.phase.row;
    var o := OutcomeOf(s, r, a.phase.hit, id, fault);
    State(
      s.rows[r := Settle(s.rows[r], o)],
      if o.Creates? && s.rows[r].normalized.Some?
      then s.contacts[id := NewContact(s.rows[r].number, s.rows[r].normalized.value)] else s.contacts,
      s.job,
      Some(Count(a, o).(phase := Working(a.phase.queue))),
      Log(s.made, r, o))
  }

  function Living(contacts: Contacts): set<nat> {
    set c | c in contacts && !contacts[c].archived
  }

  function LiveCount(contacts: Contacts): nat {
    |Living(contacts)|
  }

  /** One statement; an event whose guard does not hold changes nothing. */
  function Step(s: State, e: Event): State {
    match e
    case Begin(limit) =>
      if s.attempt.Some? || s.job.status in {Completed, Partial} then s
      else if limit.None? || LiveCount(s.contacts) + s.job.validRows > limit.value then s
      else
        s.(job := s.job.(status := Processing, progress := 0, importedRows := 0, failedRows := 0),
           attempt := Some(Attempt(Fetching, 0, 0, 0, 0, s.job.skippedRows, s.rows)))
    case Cut => s.(attempt := None)
    case GiveUp =>
      if s.attempt.None? && s.job.status in {Queued, Processing} then s.(job := s.job.(status := JobFailed)) else s
    case Cancel =>
      if s.job.status in {Processing, Completed, Partial} then s else s.(job := s.job.(status := Cancelled))
    case Outside(contacts) => s.(contacts := contacts)
    case _ =>
      if s.attempt.None? then s else Work(s, s.attempt.value, e)
  }

  /** A statement of the attempt that is under way. */
  function Work(s: State, a: Attempt, e: Event): State {
    match e
    case Fetch(take) =>
      if !a.phase.Fetching? || take == 0 then s
      else
        var page := Page(s.rows, a.lastRow, take);
        s.(attempt := Some(a.(phase := if page == [] then Ending else Working(page))))
    case Look(hit) =>
      if !a.phase.Working? || a.phase.queue == [] || a.phase.queue[0] !in s.rows
         || !TrueAnswer(s, a.phase.queue[0], hit) then s
      else
        s.(attempt := Some(a.(phase := Deciding(a.phase.queue[0], hit, a.phase.queue[1..]),
                              lastRow := s.rows[a.phase.queue[0]].number)))
    case Decide(id, fault) =>
      if !a.phase.Deciding? || a.phase.row !in s.rows || !Unused(s, id) then s else DecideRow(s, a, id, fault)
    case Save =>
      if !a.phase.Working? || a.phase.queue != [] then s
      else
        s.(job := s.job.(importedRows := a.imported, failedRows := a.failed,
                         skippedRows := a.skippedBefore + a.raceSkipped,
                         progress := Shown(a.imported + a.failed + a.raceSkipped, s.job.validRows)),
           attempt := Some(a.(phase := Fetching)))
    case End =>
      if !a.phase.Ending? then s
      else
        s.(job := s.job.(status := if a.failed > 0 then Partial else Completed, importedRows := a.imported,
                         failedRows := a.failed, skippedRows := a.skippedBefore + a.raceSkipped, progress := 100),
           attempt := None)
    case _ => s
  }

  function Run(s: State, es: seq<Event>): State {
    if es == [] then s else Step(Run(s, es[..|es| - 1]), es[|es| - 1])
  }

  // ----- What every run of attempts keeps -----

  function With(rows: Rows, status: RowStatus): set<nat> {
    set id | id in rows && rows[id].status == status
  }

  /** Nothing of a row but its verdict changes, and only rows that started VALID change at all. */
  ghost predicate RowsKept(first: Rows, rows: Rows) {
    && rows.Keys == first.Keys
    && forall id :: id in first ==>
         && rows[id].number == first[id].number && rows[id].normalized == first[id].normalized
         && (first[id].status != Valid ==> rows[id] == first[id])
         && (first[id].status == Valid ==> rows[id].status in {Valid, Imported, Skipped, RowStatus.Failed})
  }

  ghost predicate Logged(made: seq<Made>, id: nat) {
    exists i :: 0 <= i < |made| && made[i].row == id
  }

  /** A row is IMPORTED exactly when it made a contact, it names that contact, and it made only one. */
  ghost predicate MadeOnce(first: Rows, rows: Rows, made: seq<Made>) {
    && (forall i, j :: 0 <= i < j < |made| ==> made[i].row != made[j].row && made[i].contact != made[j].contact)
    && (forall i :: 0 <= i < |made| ==>
          && made[i].row in first && made[i].row in rows && first[made[i].row].status == Valid
          && rows[made[i].row].status == Imported && rows[made[i].row].contactId == Some(made[i].contact))
    && (forall id :: id in first && id in rows && first[id].status == Valid && rows[id].status == Imported ==>
          Logged(made, id))
  }

  /** No VALID row lies at or before `lastRow`, but for the one being decided. */
  ghost predicate NoneBehind(rows: Rows, lastRow: nat, phase: Phase) {
    forall id :: id in rows && rows[id].status == Valid && rows[id].number <= lastRow ==>
      phase.Deciding? && id == phase.row
  }

  /** What the attempt still holds of its page is the next stretch of the VALID rows. */
  ghost predicate OnCourse(rows: Rows, lastRow: nat, phase: Phase)
    requires WellNumbered(rows)
  {
    match phase
    case Fetching => true
    case Working(queue) => queue <= InOrder(rows, lastRow)
    case Deciding(row, _, queue) =>
      && queue <= InOrder(rows, lastRow)
      && row in rows && rows[row].number == lastRow && rows[row].status == Valid
    case Ending => Ahead(rows, lastRow) == {}
  }

  /** The counters of an attempt count what it changed. */
  ghost predicate Tallied(rows: Rows, a: Attempt) {
    && |With(rows, Imported)| == |With(a.began, Imported)| + a.imported
    && |With(rows, RowStatus.Failed)| == |With(a.began, RowStatus.Failed)| + a.failed
    && |With(rows, Skipped)| == |With(a.began, Skipped)| + a.raceSkipped
  }

  ghost predicate AttemptInv(rows: Rows, a: Attempt)
    requires WellNumbered(rows)
  {
    NoneBehind(rows, a.lastRow, a.phase) && OnCourse(rows, a.lastRow, a.phase) && Tallied(rows, a)
  }

  ghost predicate Inv(first: Rows, s: State) {
    && WellNumbered(s.rows)
    && RowsKept(first, s.rows)
    && MadeOnce(first, s.rows, s.made)
    && (s.attempt.Some? ==> AttemptInv(s.rows, s.attempt.value))
  }

  /** The parts of the invariant, for a state known by its parts. */
  lemma InvFromParts(first: Rows, s: State, rows: Rows, a: Attempt, made: seq<Made>)
    requires WellNumbered(rows) && RowsKept(first, rows) && MadeOnce(first, rows, made) && AttemptInv(rows, a)
    requires s.rows == rows && s.made == made && s.attempt == Some(a)
    ensures Inv(first, s)
  {
  }

  lemma PageKeepsAttempt(rows: Rows, a: Attempt, take: nat)
    requires WellNumbered(rows) && AttemptInv(rows, a) && a.phase.Fetching? && take > 0
    ensures var page := Page(rows, a.lastRow, take);
      AttemptInv(rows, a.(phase := if page == [] then Ending else Working(page)))
  {
    if Page(rows, a.lastRow, take) == [] {
      assert |InOrder(rows, a.lastRow)| == |Ahead(rows, a.lastRow)| == 0;
    }
  }

  lemma FetchKeeps(first: Rows, s: State, a: Attempt, take: nat)
    requires Inv(first, s) && s.attempt == Some(a)
    ensures Inv(first, Work(s, a, Fetch(take)))
  {
    if a.phase.Fetching? && take > 0 {
      var page := Page(s.rows, a.lastRow, take);
      PageKeepsAttempt(s.rows, a, take);
      var next := a.(phase := if page == [] then Ending else Working(page));
      InvFromParts(first, Work(s, a, Fetch(take)), s.rows, next, s.made);
    }
  }

  /** Passing the first row of what lies ahead leaves the rest. */
  lemma PassFirst(rows: Rows, lastRow: nat)
    requires WellNumbered(rows) && InOrder(rows, lastRow) != []
    ensures var r := InOrder(rows, lastRow)[0];
      && r in Ahead(rows, lastRow)
      && InOrder(rows, rows[r].number) == InOrder(rows, lastRow)[1..]
      && forall id :: id in Ahead(rows, lastRow) && rows[id].number <= rows[r].number ==> id == r
  {
    var ahead, order := Ahead(rows, lastRow), InOrder(rows, lastRow);
    OrderIsOrdered(ahead, Numbers(rows));
    var r := order[0];
    assert r in ahead;
    assert Beyond(Ahead(rows, rows[r].number), ahead, Numbers(rows), r);
    NextPage(ahead, Numbers(rows), Ahead(rows, rows[r].number), 1);
    LeastComesFirst(order, ahead, Numbers(rows));
  }

  lemma PassKeepsNoneBehind(rows: Rows, lastRow: nat, queue: seq<nat>, hit: Option<nat>)
    requires WellNumbered(rows) && NoneBehind(rows, lastRow, Working(queue)) && OnCourse(rows, lastRow, Working(queue))
    requires queue != []
    ensures var p := Deciding(queue[0], hit, queue[1..]);
      && queue[0] in rows && NoneBehind(rows, rows[queue[0]].number, p) && OnCourse(rows, rows[queue[0]].number, p)
  {
    var order := InOrder(rows, lastRow);
    assert order != [] && order[0] == queue[0];
    PassFirst(rows, lastRow);
    assert queue[1..] <= order[1..];
    var p := Deciding(queue[0], hit, queue[1..]);
    forall id | id in rows && rows[id].status == Valid && rows[id].number <= rows[queue[0]].number
      ensures id == queue[0]
    {
      assert id in Ahead(rows, lastRow);
    }
  }

  lemma LookKeeps(first: Rows, s: State, a: Attempt, hit: Option<nat>)
    requires Inv(first, s) && s.attempt == Some(a)
    ensures Inv(first, Work(s, a, Look(hit)))
  {
    if a.phase.Working? && a.phase.queue != [] {
      PassKeepsNoneBehind(s.rows, a.lastRow, a.phase.queue, hit);
      var u := Work(s, a, Look(hit));
      if u != s {
        var next := a.(phase := Deciding(a.phase.queue[0], hit, a.phase.queue[1..]),
                       lastRow := s.rows[a.phase.queue[0]].number);
        assert AttemptInv(s.rows, next);
        InvFromParts(first, u, s.rows, next, s.made);
      }
    }
  }

  /** Settling the row just passed leaves the rows ahead as they are. */
  lemma SettleKeepsAhead(rows: Rows, r: nat, row: ImportRow)
    requires WellNumbered(rows) && r in rows && row.number == rows[r].number && row.status != Valid
    ensures WellNumbered(rows[r := row]) && InOrder(rows[r := row], row.number) == InOrder(rows, row.number)
  {
    var after := rows[r := row];
    assert Numbers(after) == Numbers(rows);
    assert after.Keys == rows.Keys;
    assert Ahead(after, row.number) == Ahead(rows, row.number);
  }

  lemma SettleCounts(rows: Rows, r: nat, row: ImportRow, status: RowStatus)
    requires r in rows && rows[r].status == Valid && row.status != Valid && status != Valid
    ensures |With(rows[r := row], status)| == |With(rows, status)| + if row.status == status then 1 else 0
  {
    assert With(rows[r := row], status) == With(rows, status) + if row.status == status then {r} else {};
  }

  lemma LoggedAfter(made: seq<Made>, m: Made, id: nat)
    requires id == m.row || Logged(made, id)
    ensures Logged(made + [m], id)
  {
    if id == m.row {
      assert (made + [m])[|made|].row == id;
    } else {
      var i :| 0 <= i < |made| && made[i].row == id;
      assert (made + [m])[i].row == id;
    }
  }

  lemma CreateKeepsMadeOnce(first: Rows, rows: Rows, made: seq<Made>, r: nat, contact: nat)
    requires MadeOnce(first, rows, made) && r in rows && r in first && first[r].status == Valid
    requires rows[r].status == Valid
    requires forall m <- made :: m.contact != contact
    ensures MadeOnce(first, rows[r := Settle(rows[r], Creates(contact))], made + [Made(r, contact)])
  {
    var after, log := rows[r := Settle(rows[r], Creates(contact))], made + [Made(r, contact)];
    forall i | 0 <= i < |made| ensures made[i].row != r && made[i] == log[i] && made[i] in made {
      assert rows[made[i].row].status == Imported;
    }
    forall id | id in first && id in after && first[id].status == Valid && after[id].status == Imported
      ensures Logged(log, id)
    {
      if id != r { assert Logged(made, id); }
      LoggedAfter(made, Made(r, contact), id);
    }
  }

  lemma OtherKeepsMadeOnce(first: Rows, rows: Rows, made: seq<Made>, r: nat, o: Outcome)
    requires MadeOnce(first, rows, made) && r in rows && rows[r].status == Valid && !o.Creates?
    ensures MadeOnce(first, rows[r := Settle(rows[r], o)], made)
  {
    forall i | 0 <= i < |made| ensures made[i].row != r {
      assert rows[made[i].row].status == Imported;
    }
  }

  lemma LogKeepsMadeOnce(first: Rows, rows: Rows, made: seq<Made>, r: nat, o: Outcome)
    requires MadeOnce(first, rows, made) && r in rows && r in first && first[r].status == Valid
    requires rows[r].status == Valid
    requires o.Creates? ==> forall m <- made :: m.contact != o.contact
    ensures MadeOnce(first, rows[r := Settle(rows[r], o)], Log(made, r, o))
  {
    if o.Creates? {
      CreateKeepsMadeOnce(first, rows, made, r, o.contact);
    } else {
      OtherKeepsMadeOnce(first, rows, made, r, o);
    }
  }

  lemma SettleTallies(rows: Rows, a: Attempt, r: nat, o: Outcome, phase: Phase)
    requires Tallied(rows, a) && r in rows && rows[r].status == Valid
    ensures Tallied(rows[r := Settle(rows[r], o)], Count(a, o).(phase := phase))
  {
    SettleCounts(rows, r, Settle(rows[r], o), Imported);
    SettleCounts(rows, r, Settle(rows[r], o), Skipped);
    SettleCounts(rows, r, Settle(rows[r], o), RowStatus.Failed);
  }

  lemma SettleKeepsAttempt(rows: Rows, a: Attempt, o: Outcome)
    requires WellNumbered(rows) && AttemptInv(rows, a) && a.phase.Deciding?
    ensures var after := rows[a.phase.row := Settle(rows[a.phase.row], o)];
      WellNumbered(after) && AttemptInv(after, Count(a, o).(phase := Working(a.phase.queue)))
  {
    SettleKeepsAhead(rows, a.phase.row, Settle(rows[a.phase.row], o));
    SettleTallies(rows, a, a.phase.row, o, Working(a.phase.queue));
  }

  lemma SettleKeepsRows(first: Rows, rows: Rows, r: nat, o: Outcome)
    requires RowsKept(first, rows) && r in rows && rows[r].status == Valid
    ensures r in first && first[r].status == Valid && RowsKept(first, rows[r := Settle(rows[r], o)])
  {
    assert r in rows.Keys;
  }

  lemma DecideKeeps(first: Rows, s: State, a: Attempt, id: nat, fault: bool)
    requires Inv(first, s) && s.attempt == Some(a) && a.phase.Deciding? && Unused(s, id)
    ensures Inv(first, DecideRow(s, a, id, fault))
  {
    var r := a.phase.row;
    var o := OutcomeOf(s, r, a.phase.hit, id, fault);
    SettlePartsKept(first, s.rows, a, s.made, o);
    InvFromParts(first, DecideRow(s, a, id, fault), s.rows[r := Settle(s.rows[r], o)],
      Count(a, o).(phase := Working(a.phase.queue)), Log(s.made, r, o));
  }

  lemma SettlePartsKept(first: Rows, rows: Rows, a: Attempt, made: seq<Made>, o: Outcome)
    requires WellNumbered(rows) && RowsKept(first, rows) && MadeOnce(first, rows, made) && AttemptInv(rows, a)
    requires a.phase.Deciding? && (o.Creates? ==> forall m <- made :: m.contact != o.contact)
    ensures var after := rows[a.phase.row := Settle(rows[a.phase.row], o)];
      && WellNumbered(after) && RowsKept(first, after)
      && MadeOnce(first, after, Log(made, a.phase.row, o))
      && AttemptInv(after, Count(a, o).(phase := Working(a.phase.queue)))
  {
    SettleKeepsAttempt(rows, a, o);
    SettleKeepsRows(first, rows, a.phase.row, o);
    LogKeepsMadeOnce(first, rows, made, a.phase.row, o);
  }

  lemma SavedIsFetching(rows: Rows, a: Attempt)
    requires WellNumbered(rows) && AttemptInv(rows, a) && a.phase == Working([])
    ensures AttemptInv(rows, a.(phase := Fetching))
  {
  }

  lemma SaveWritesJob(s: State, a: Attempt)
    requires s.attempt == Some(a) && a.phase == Working([])
    ensures var u := Work(s, a, Save);
      u.rows == s.rows && u.made == s.made && u.attempt == Some(a.(phase := Fetching))
  {
  }

  lemma SaveKeeps(first: Rows, s: State, a: Attempt)
    requires Inv(first, s) && s.attempt == Some(a)
    ensures Inv(first, Work(s, a, Save))
  {
    if a.phase == Working([]) {
      SavedIsFetching(s.rows, a);
      SaveWritesJob(s, a);
      InvFromParts(first, Work(s, a, Save), s.rows, a.(phase := Fetching), s.made);
    }
  }

  lemma EndKeeps(first: Rows, s: State, a: Attempt)
    requires Inv(first, s) && s.attempt == Some(a)
    ensures Inv(first, Work(s, a, End))
  {
  }

  lemma StepKeeps(first: Rows, s: State, e: Event)
    requires Inv(first, s)
    ensures Inv(first, Step(s, e))
  {
    if s.attempt.Some? {
      var a := s.attempt.value;
      match e
      case Fetch(take) => FetchKeeps(first, s, a, take);
      case Look(hit) => LookKeeps(first, s, a, hit);
      case Decide(id, fault) => if a.phase.Deciding? && Unused(s, id) { DecideKeeps(first, s, a, id, fault); }
      case Save => SaveKeeps(first, s, a);
      case End => EndKeeps(first, s, a);
      case _ => BesideKeeps(first, s, e);
    } else {
      BesideKeeps(first, s, e);
    }
  }

  /** The events outside an attempt leave rows and log alone. */
  lemma BesideKeeps(first: Rows, s: State, e: Event)
    requires Inv(first, s)
    requires s.attempt.None? || e.Begin? || e.Cut? || e.GiveUp? || e.Cancel? || e.Outside?
    ensures Inv(first, Step(s, e))
  {
    var u := Step(s, e);
    assert u.rows == s.rows && u.made == s.made;
    if u.attempt.Some? && u.attempt != s.attempt {
      BeginKeeps(s.rows, u.attempt.value);
      InvFromParts(first, u, s.rows, u.attempt.value, s.made);
    }
  }

  lemma BeginKeeps(rows: Rows, a: Attempt)
    requires WellNumbered(rows) && a == Attempt(Fetching, 0, 0, 0, 0, a.skippedBefore, rows)
    ensures AttemptInv(rows, a)
  {
  }

  ghost predicate NotStarted(s: State) {
    && WellNumbered(s.rows) && s.made == [] && s.attempt.None?
    && forall id :: id in s.rows ==> s.rows[id].status != Imported
  }

  lemma {:induction false} ReachableInv(s: State, es: seq<Event>)
    requires NotStarted(s)
    ensures Inv(s.rows, Run(s, es))
  {
    if es != [] {
      ReachableInv(s, es[..|es| - 1]);
      StepKeeps(s.rows, Run(s, es[..|es| - 1]), es[|es| - 1]);
    }
  }

  // ----- Over any sequence of attempts, each cut anywhere -----

  function RowsOf(made: seq<Made>, n: nat): set<nat>
    requires n <= |made|
  {
    if n == 0 then {} else RowsOf(made, n - 1) + {made[n - 1].row}
  }

  lemma {:induction false} WhereMade(made: seq<Made>, n: nat, r: nat) returns (i: nat)
    requires n <= |made| && r in RowsOf(made, n)
    ensures i < n && made[i].row == r
  {
    i := n - 1;
    if made[i].row != r { i := WhereMade(made, n - 1, r); }
  }

  lemma {:induction false} RowsOfDistinct(made: seq<Made>, valid: set<nat>, n: nat)
    requires forall i, j :: 0 <= i < j < |made| ==> made[i].row != made[j].row
    requires n <= |made| && forall i :: 0 <= i < |made| ==> made[i].row in valid
    ensures |RowsOf(made, n)| == n && RowsOf(made, n) <= valid
  {
    if n > 0 {
      RowsOfDistinct(made, valid, n - 1);
      if made[n - 1].row in RowsOf(made, n - 1) {
        var i := WhereMade(made, n - 1, made[n - 1].row);
        assert false;
      }
    }
  }

  /**
   Whatever is cut, retried, cancelled or changed by others: every row makes at most one contact, a row is
   IMPORTED exactly when it made one, no more contacts are made than there were VALID rows, and rows
   that were not VALID are left alone.
   */
  lemma AttemptsCreateOnce(s: State, es: seq<Event>)
    requires NotStarted(s)
    ensures var t := Run(s, es);
      && MadeOnce(s.rows, t.rows, t.made) && |t.made| <= |With(s.rows, Valid)| && RowsKept(s.rows, t.rows)
  {
    ReachableInv(s, es);
    var t := Run(s, es);
    RowsOfDistinct(t.made, With(s.rows, Valid), |t.made|);
    SubsetSize(RowsOf(t.made, |t.made|), With(s.rows, Valid));
  }

  // ----- What is created is what the rows say -----

  /** A field of a contact that holds the text of its row, if there is one. */
  predicate Copies(field: Option<string>, text: Option<string>) {
    if text == None || text == Some("") then field == None else field == text
  }

  /** A contact that says what its row says. */
  ghost predicate Faithful(c: Contact, row: ImportRow) {
    row.normalized.Some? &&
    var n := row.normalized.value;
    && c.platform.Zalo? && !c.archived && c.proof == Some(row.number)
    && c.displayName == n.displayName && c.source == n.source
    && c.consent == n.consent && (c.suppressed <==> n.consent.OptedOut?)
    && Copies(c.platformUserId, n.platformUserId) && Copies(c.normalizedPhone, n.normalizedPhone)
    && Copies(c.phone, n.phone) && Copies(c.email, n.email)
    && Copies(c.username, n.username) && Copies(c.gender, n.gender)
  }

  ghost predicate MadeFaithfully(first: Contacts, rows: Rows, contacts: Contacts, m: Made) {
    m.row in rows && m.contact in contacts && m.contact !in first && Faithful(contacts[m.contact], rows[m.row])
  }

  ghost predicate ContactIsMade(made: seq<Made>, c: nat) {
    exists i :: 0 <= i < |made| && made[i].contact == c
  }

  /** The contacts there were, as they were, and the ones that were made. */
  ghost predicate OnlyAdded(first: Contacts, s: State) {
    && (forall c :: c in first ==> c in s.contacts && s.contacts[c] == first[c])
    && (forall c :: c in s.contacts ==> c in first || ContactIsMade(s.made, c))
    && (forall i :: 0 <= i < |s.made| ==> MadeFaithfully(first, s.rows, s.contacts, s.made[i]))
  }

  lemma SettledRowStillFaithful(first: Contacts, rows: Rows, contacts: Contacts, m: Made, r: nat, o: Outcome)
    requires MadeFaithfully(first, rows, contacts, m) && r in rows
    ensures MadeFaithfully(first, rows[r := Settle(rows[r], o)], contacts, m)
  {
  }

  lemma ContactIsMadeAfter(made: seq<Made>, m: Made, c: nat)
    requires c == m.contact || ContactIsMade(made, c)
    ensures ContactIsMade(made + [m], c)
  {
    if c == m.contact {
      assert (made + [m])[|made|].contact == c;
    } else {
      var i :| 0 <= i < |made| && made[i].contact == c;
      assert (made + [m])[i].contact == c;
    }
  }

  /** What was made so far stays faithful when a row is decided, and so does what that row makes. */
  lemma DecidedStaysFaithful(first: Contacts, s: State, a: Attempt, id: nat, fault: bool, i: nat)
    requires OnlyAdded(first, s) && a.phase.Deciding? && a.phase.row in s.rows && Unused(s, id)
    requires i < |DecideRow(s, a, id, fault).made|
    ensures var u := DecideRow(s, a, id, fault); MadeFaithfully(first, u.rows, u.contacts, u.made[i])
  {
    var u := DecideRow(s, a, id, fault);
    if i < |s.made| {
      assert u.made[i] == s.made[i] && s.made[i] in s.made;
      SettledRowStillFaithful(first, s.rows, s.contacts, s.made[i], a.phase.row,
                              OutcomeOf(s, a.phase.row, a.phase.hit, id, fault));
    }
  }

  lemma DecideOnlyAdds(first: Contacts, s: State, a: Attempt, id: nat, fault: bool)
    requires OnlyAdded(first, s) && a.phase.Deciding? && a.phase.row in s.rows && Unused(s, id)
    ensures OnlyAdded(first, DecideRow(s, a, id, fault))
  {
    var u := DecideRow(s, a, id, fault);
    forall i | 0 <= i < |u.made| ensures MadeFaithfully(first, u.rows, u.contacts, u.made[i]) {
      DecidedStaysFaithful(first, s, a, id, fault, i);
    }
    forall c | c in u.contacts && c !in first ensures ContactIsMade(u.made, c) {
      if |u.made| > |s.made| { ContactIsMadeAfter(s.made, u.made[|s.made|], c); }
    }
  }

  predicate WritesRow(s: State, e: Event) {
    && e.Decide? && s.attempt.Some? && s.attempt.value.phase.Deciding?
    && s.attempt.value.phase.row in s.rows && Unused(s, e.id)
  }

  lemma OthersWriteNothing(s: State, e: Event)
    requires !WritesRow(s, e) && !e.Outside?
    ensures Step(s, e).contacts == s.contacts && Step(s, e).made == s.made && Step(s, e).rows == s.rows
  {
  }

  lemma StepOnlyAdds(first: Contacts, s: State, e: Event)
    requires OnlyAdded(first, s) && !e.Outside?
    ensures OnlyAdded(first, Step(s, e))
  {
    if WritesRow(s, e) {
      assert Step(s, e) == DecideRow(s, s.attempt.value, e.id, e.fault);
      DecideOnlyAdds(first, s, s.attempt.value, e.id, e.fault);
    } else {
      OthersWriteNothing(s, e);
    }
  }

  /**
   Attempts, cut and retried at will, change no contact there was and add only contacts that say what their rows say.
  */
  lemma {:induction false} AttemptsOnlyAdd(s: State, es: seq<Event>)
    requires NotStarted(s) && forall i :: 0 <= i < |es| ==> !es[i].Outside?
    ensures OnlyAdded(s.contacts, Run(s, es))
  {
    if es != [] {
      AttemptsOnlyAdd(s, es[..|es| - 1]);
      StepOnlyAdds(s.contacts, Run(s, es[..|es| - 1]), es[|es| - 1]);
    }
  }

  // ----- The contact quota -----

  function ContactsMade(made: seq<Made>): set<nat> {
    if made == [] then {} else ContactsMade(made[..|made| - 1]) + {made[|made| - 1].contact}
  }

  lemma {:induction false} ContactsMadeAre(made: seq<Made>, c: nat)
    ensures c in ContactsMade(made) <==> ContactIsMade(made, c)
  {
    if made != [] {
      var front, last := made[..|made| - 1], made[|made| - 1];
      ContactsMadeAre(front, c);
      assert made == front + [last];
      if ContactIsMade(front, c) || c == last.contact { ContactIsMadeAfter(front, last, c); }
    }
  }

  lemma {:induction false} AsManyAsMade(made: seq<Made>)
    requires forall i, j :: 0 <= i < j < |made| ==> made[i].contact != made[j].contact
    ensures |ContactsMade(made)| == |made|
  {
    if made != [] {
      var front, last := made[..|made| - 1], made[|made| - 1];
      AsManyAsMade(front);
      ContactsMadeAre(front, last.contact);
    }
  }

  lemma MadeIsNewAndLive(first: Contacts, s: State, c: nat)
    requires OnlyAdded(first, s)
    ensures c in ContactsMade(s.made) <==> c in s.contacts && c !in first
    ensures c in ContactsMade(s.made) ==> !s.contacts[c].archived
  {
    ContactsMadeAre(s.made, c);
    if ContactIsMade(s.made, c) {
      var i :| 0 <= i < |s.made| && s.made[i].contact == c;
      assert MadeFaithfully(first, s.rows, s.contacts, s.made[i]);
    }
  }

  lemma LivingAddUp(first: Contacts, contacts: Contacts, made: set<nat>)
    requires forall c :: c in first ==> c in contacts && contacts[c] == first[c]
    requires forall c: nat :: c in made <==> c in contacts && c !in first
    requires forall c :: c in made && c in contacts ==> !contacts[c].archived
    ensures LiveCount(contacts) == LiveCount(first) + |made|
  {
    assert Living(contacts) == Living(first) + made;
  }

  /** Every contact made is a live one more. */
  lemma LivingGrow(first: Contacts, rows: Rows, s: State)
    requires OnlyAdded(first, s) && MadeOnce(rows, s.rows, s.made)
    ensures LiveCount(s.contacts) == LiveCount(first) + |s.made|
  {
    forall c: nat
      ensures c in ContactsMade(s.made) <==> c in s.contacts && c !in first
      ensures c in ContactsMade(s.made) ==> !s.contacts[c].archived
    {
      MadeIsNewAndLive(first, s, c);
    }
    AsManyAsMade(s.made);
    LivingAddUp(first, s.contacts, ContactsMade(s.made));
  }

  /** Before the first attempt nothing has happened to the contacts; an attempt begins within the quota. */
  ghost predicate WithinLimit(s: State, t: State, limit: nat) {
    && t.job.validRows == s.job.validRows
    && (LiveCount(s.contacts) + s.job.validRows <= limit
        || (t.contacts == s.contacts && t.attempt.None?))
  }

  lemma {:induction false} RunStaysWithinLimit(s: State, es: seq<Event>, limit: nat)
    requires s.attempt.None? && forall e <- es :: !e.Outside? && (e.Begin? ==> e.limit in {None, Some(limit)})
    ensures WithinLimit(s, Run(s, es), limit)
  {
    if es != [] {
      RunStaysWithinLimit(s, es[..|es| - 1], limit);
      assert es[|es| - 1] in es;
    }
  }

  /** An attempt begins exactly if the live contacts and the VALID rows together are within the quota. */
  lemma BeginsWithinQuotaIff(s: State, limit: nat)
    requires s.attempt.None? && s.job.status !in {Completed, Partial}
    ensures Step(s, Begin(Some(limit))).attempt.Some? <==>
      |set c | c in s.contacts && !s.contacts[c].archived| + s.job.validRows <= limit
    ensures var u := Step(s, Begin(Some(limit)));
      u == s || (u.job == s.job.(status := Processing, progress := 0, importedRows := 0, failedRows := 0)
                 && u.rows == s.rows && u.contacts == s.contacts && u.made == s.made)
  {
    assert (set c | c in s.contacts && !s.contacts[c].archived) == Living(s.contacts);
  }

  /**
   However often an import is cut and retried: it makes no contact, or the live contacts stay within the quota, and
   there are as many more of them as were made.
  */
  lemma AttemptsKeepTheQuota(s: State, es: seq<Event>, limit: nat)
    requires NotStarted(s) && s.job.validRows == |With(s.rows, Valid)|
    requires forall e <- es :: !e.Outside? && (e.Begin? ==> e.limit in {None, Some(limit)})
    ensures var t := Run(s, es); var live := set c | c in t.contacts && !t.contacts[c].archived;
      && |live| == |set c | c in s.contacts && !s.contacts[c].archived| + |t.made|
      && (t.contacts == s.contacts || |live| <= limit)
  {
    var t := Run(s, es);
    AttemptsOnlyAdd(s, es);
    AttemptsCreateOnce(s, es);
    LivingGrow(s.contacts, s.rows, t);
    RunStaysWithinLimit(s, es, limit);
    assert (set c | c in t.contacts && !t.contacts[c].archived) == Living(t.contacts);
    assert (set c | c in s.contacts && !s.contacts[c].archived) == Living(s.contacts);
  }

  ghost predicate CanEnd(s: State) {
    s.attempt.Some? && s.attempt.value.phase.Ending?
  }

  /**
   An attempt that ends leaves no VALID row. Its counters tell what this attempt did: importedRows leaves
   out what earlier attempts imported, and COMPLETED says only that this attempt failed no row.
   */
  lemma EndingAttempt(s: State, es: seq<Event>)
    requires NotStarted(s) && CanEnd(Run(s, es))
    ensures var t := Run(s, es + [End]); var began := Run(s, es).attempt.value.began;
      && t.attempt.None? && With(t.rows, Valid) == {}
      && t.job.importedRows + |With(began, Imported)| == |With(t.rows, Imported)|
      && t.job.failedRows + |With(began, RowStatus.Failed)| == |With(t.rows, RowStatus.Failed)|
      && t.job.skippedRows + |With(began, Skipped)| == Run(s, es).attempt.value.skippedBefore + |With(t.rows, Skipped)|
      && (t.job.status == Completed <==> |With(t.rows, RowStatus.Failed)| == |With(began, RowStatus.Failed)|)
      && (t.job.status == Completed || t.job.status == Partial)
  {
    ReachableInv(s, es);
    assert (es + [End])[..|es|] == es;
    var t := Run(s, es + [End]);
    var a := Run(s, es).attempt.value;
    assert forall id :: id in With(t.rows, Valid) ==> id in Ahead(t.rows, a.lastRow);
  }

  lemma TalliedTells(v: State, a: Attempt)
    requires v.attempt == Some(a) && a.phase == Working([]) && Tallied(v.rows, a)
    ensures SavedTells(Step(v, Save), a)
  {
  }

  /** The job's counters and progress tell what the attempt has done to the rows so far. */
  ghost predicate SavedTells(t: State, a: Attempt) {
    && t.job.importedRows + |With(a.began, Imported)| == |With(t.rows, Imported)|
    && t.job.failedRows + |With(a.began, RowStatus.Failed)| == |With(t.rows, RowStatus.Failed)|
    && t.job.skippedRows + |With(a.began, Skipped)| == a.skippedBefore + |With(t.rows, Skipped)|
    && t.job.skippedRows >= a.skippedBefore
    && t.job.progress
       == Shown(t.job.importedRows + t.job.failedRows + (t.job.skippedRows - a.skippedBefore), t.job.validRows)
  }

  /** So do the counters saved after each page. */
  lemma SavingAttempt(first: Rows, s: State, a: Attempt)
    requires Inv(first, s) && s.attempt == Some(a) && a.phase == Working([])
    ensures SavedTells(Step(s, Save), a)
  {
    TalliedTells(s, a);
  }

  // ----- What becomes of a row -----

  /** The Zalo id of the row is held by a contact, live or archived. */
  ghost predicate IdHeld(contacts: Contacts, row: NormalizedRow) {
    row.platformUserId.Some? && row.platformUserId.value != ""
    && exists c :: c in contacts && contacts[c].platform == Zalo && contacts[c].platformUserId == row.platformUserId
  }

  /**
   A row fails exactly if a statement fails, it has no data, or nothing was found and its id is held after all; it
   is skipped exactly if a contact was found; and otherwise it makes a contact.
  */
  lemma OutcomeIff(s: State, r: nat, hit: Option<nat>, id: nat, fault: bool)
    requires r in s.rows
    ensures var o, row := OutcomeOf(s, r, hit, id, fault), s.rows[r].normalized;
      && (o == Fails <==> fault || row.None? || (hit.None? && IdHeld(s.contacts, row.value)))
      && (o == Skips(hit) <==> !fault && row.Some? && hit.Some?)
      && (o == Creates(id) <==> !fault && row.Some? && hit.None? && !IdHeld(s.contacts, row.value))
  {
  }

  /** What a row can have become: nothing yet, or one of three ends, each with its mark. */
  ghost predicate EndedRight(was: ImportRow, row: ImportRow) {
    || row == was
    || (row.contactId.Some? && row == was.(status := Imported, contactId := row.contactId))
    || (row.contactId.Some? && row == was.(status := Skipped, notes := [AppearedAfterPreview],
                                           contactId := row.contactId))
    || row == was.(status := RowStatus.Failed, notes := [CreateFailed])
  }

  ghost predicate RowsEndedRight(first: Rows, rows: Rows) {
    rows.Keys == first.Keys && forall r :: r in first ==>
      if rows[r].status == Valid then rows[r] == first[r] else EndedRight(first[r], rows[r])
  }

  lemma SettleEndsRight(row: ImportRow, o: Outcome)
    requires o.Skips? ==> o.found.Some?
    ensures EndedRight(row, Settle(row, o)) && Settle(row, o).status != Valid
  {
  }

  lemma DecideEndsRight(first: Rows, s: State, a: Attempt, id: nat, fault: bool)
    requires RowsEndedRight(first, s.rows) && a.phase.Deciding? && a.phase.row in s.rows
    requires s.rows[a.phase.row].status == Valid
    ensures RowsEndedRight(first, DecideRow(s, a, id, fault).rows)
  {
    var r, o := a.phase.row, OutcomeOf(s, a.phase.row, a.phase.hit, id, fault);
    assert s.rows[r] == first[r] by { assert r in s.rows.Keys; }
    SettleEndsRight(s.rows[r], o);
    assert DecideRow(s, a, id, fault).rows == s.rows[r := Settle(s.rows[r], o)];
  }

  lemma StepEndsRight(first: Rows, s: State, e: Event)
    requires RowsEndedRight(first, s.rows)
    requires WritesRow(s, e) ==> s.rows[s.attempt.value.phase.row].status == Valid
    ensures RowsEndedRight(first, Step(s, e).rows)
  {
    if WritesRow(s, e) {
      DecideEndsRight(first, s, s.attempt.value, e.id, e.fault);
    } else if !e.Outside? {
      OthersWriteNothing(s, e);
    }
  }

  lemma WritesValidRows(first: Rows, s: State, e: Event)
    requires Inv(first, s) && WritesRow(s, e)
    ensures s.rows[s.attempt.value.phase.row].status == Valid
  {
  }

  /** Over any attempts, cuts and changes by others: every row is as mapped, or has one end with its mark. */
  lemma {:induction false} RowsEndRight(s: State, es: seq<Event>)
    requires NotStarted(s)
    ensures RowsEndedRight(s.rows, Run(s, es).rows)
  {
    if es != [] {
      RowsEndRight(s, es[..|es| - 1]);
      var v, e := Run(s, es[..|es| - 1]), es[|es| - 1];
      ReachableInv(s, es[..|es| - 1]);
      if WritesRow(v, e) { WritesValidRows(s.rows, v, e); }
      StepEndsRight(s.rows, v, e);
    }
  }

  // ----- A cut attempt is forgotten by the counters -----

  /** `step` is Step. The lemmas below carry it as a value, so that its definition stays in those that need it. */
  ghost predicate IsStep(step: (State, Event) -> State) {
    forall s, e {:trigger Step(s, e)} :: step(s, e) == Step(s, e)
  }

  lemma StepAsValue() returns (step: (State, Event) -> State)
    ensures IsStep(step)
  {
    step := (s, e) => Step(s, e);
  }

  ghost predicate Traces(step: (State, Event) -> State, states: seq<State>, es: seq<Event>) {
    && |states| == |es| + 1
    && forall i :: 0 <= i < |es| ==> states[i + 1] == step(states[i], es[i])
  }

  lemma {:induction false} TraceIsRun(step: (State, Event) -> State, states: seq<State>, es: seq<Event>, n: nat)
    requires IsStep(step) && Traces(step, states, es) && n <= |es|
    ensures Run(states[0], es[..n]) == states[n]
  {
    if n > 0 {
      TraceIsRun(step, states, es, n - 1);
      assert es[..n][..n - 1] == es[..n - 1];
      assert Step(states[n - 1], es[n - 1]) == states[n];
    }
  }

  const Newcomer: NormalizedRow := NormalizedRow("a", None, None, Some("z"), None, None, None, "", Unknown)

  /** A queued import of one VALID row with the Zalo id "z", and no contacts yet. */
  const OneRow: State :=
    State(map[0 := ImportRow(1, map[], Some(Newcomer), Valid, [], Some(ZaloKey("z")), None)], map[],
      Job(JobStatus.Queued, 1, 0, 0, 0, 0), None, [])

  lemma OneIsWellNumbered(rows: Rows)
    requires rows.Keys == {0} && rows[0].number == 1
    ensures WellNumbered(rows)
  {
    forall id | id in rows ensures id == 0 { assert id in rows.Keys; }
  }

  lemma OneAhead(rows: Rows)
    requires rows.Keys == {0} && rows[0].number == 1
    ensures Page(rows, 0, 1) == if rows[0].status == Valid then [0] else []
  {
    OneIsWellNumbered(rows);
    var ahead := if rows[0].status == Valid then {0} else {};
    assert Ahead(rows, 0) == ahead;
    OrderIsUnique(if rows[0].status == Valid then [0] else [], ahead, Numbers(rows));
  }

  lemma FewContacts(contacts: Contacts)
    requires contacts.Keys <= {0}
    ensures LiveCount(contacts) <= 1
  {
    SubsetSize(Living(contacts), {0});
  }

  /** During the first attempt, before the row is settled. */
  function First(phase: Phase, lastRow: nat): State {
    OneRow.(job := OneRow.job.(status := Processing),
            attempt := Some(Attempt(phase, lastRow, 0, 0, 0, 0, OneRow.rows)))
  }

  /** The import after its row was settled and the attempt was cut. */
  function CutShort(fault: bool): State {
    var o := if fault then Fails else Creates(0);
    State(OneRow.rows[0 := Settle(OneRow.rows[0], o)], if fault then map[] else map[0 := NewContact(1, Newcomer)],
      OneRow.job.(status := Processing), None, Log([], 0, o))
  }

  /** During the second attempt. */
  function Second(fault: bool, phase: Phase): State {
    CutShort(fault).(attempt := Some(Attempt(phase, 0, 0, 0, 0, 0, CutShort(fault).rows)))
  }

  function Ended(fault: bool): State {
    CutShort(fault).(job := OneRow.job.(status := Completed, progress := 100))
  }

  /** The first attempt settles the row and is cut before it saves its counters; the second finds nothing to do. */
  function CutAndRetried(fault: bool): seq<Event> {
    [Begin(Some(2)), Fetch(1), Look(None), Decide(0, fault), Cut, Begin(Some(2)), Fetch(1), End]
  }

  function StatesOf(step: (State, Event) -> State, fault: bool): seq<State> {
    [OneRow, First(Fetching, 0), First(Working([0]), 0), First(Deciding(0, None, []), 1),
     step(First(Deciding(0, None, []), 1), Decide(0, fault)),
     CutShort(fault), Second(fault, Fetching), Second(fault, Ending), Ended(fault)]
  }

  lemma FirstBegins(step: (State, Event) -> State)
    requires IsStep(step)
    ensures step(OneRow, Begin(Some(2))) == First(Fetching, 0)
  {
    FewContacts(OneRow.contacts);
    assert Step(OneRow, Begin(Some(2))) == First(Fetching, 0);
  }

  lemma FirstFetches(step: (State, Event) -> State)
    requires IsStep(step)
    ensures step(First(Fetching, 0), Fetch(1)) == First(Working([0]), 0)
  {
    OneAhead(OneRow.rows);
    assert Step(First(Fetching, 0), Fetch(1)) == First(Working([0]), 0);
  }

  lemma FirstLooks(step: (State, Event) -> State)
    requires IsStep(step)
    ensures step(First(Working([0]), 0), Look(None)) == First(Deciding(0, None, []), 1)
  {
    assert [0][1..] == [];
    assert Step(First(Working([0]), 0), Look(None)) == First(Deciding(0, None, []), 1);
  }

  lemma FirstIsCut(step: (State, Event) -> State, fault: bool)
    requires IsStep(step)
    ensures step(step(First(Deciding(0, None, []), 1), Decide(0, fault)), Cut) == CutShort(fault)
  {
    assert Step(Step(First(Deciding(0, None, []), 1), Decide(0, fault)), Cut) == CutShort(fault);
  }

  lemma SecondBegins(step: (State, Event) -> State, fault: bool)
    requires IsStep(step)
    ensures step(CutShort(fault), Begin(Some(2))) == Second(fault, Fetching)
  {
    FewContacts(CutShort(fault).contacts);
    assert Step(CutShort(fault), Begin(Some(2))) == Second(fault, Fetching);
  }

  lemma SecondFetches(step: (State, Event) -> State, fault: bool)
    requires IsStep(step)
    ensures step(Second(fault, Fetching), Fetch(1)) == Second(fault, Ending)
  {
    OneAhead(CutShort(fault).rows);
    assert Step(Second(fault, Fetching), Fetch(1)) == Second(fault, Ending);
  }

  lemma SecondEnds(step: (State, Event) -> State, fault: bool)
    requires IsStep(step)
    ensures step(Second(fault, Ending), End) == Ended(fault)
  {
    assert Step(Second(fault, Ending), End) == Ended(fault);
  }

  lemma ItsSteps(step: (State, Event) -> State, fault: bool)
    requires IsStep(step)
    ensures Traces(step, StatesOf(step, fault), CutAndRetried(fault))
  {
    FirstBegins(step);
    FirstFetches(step);
    FirstLooks(step);
    FirstIsCut(step, fault);
    SecondBegins(step, fault);
    SecondFetches(step, fault);
    SecondEnds(step, fault);
  }

  /**
   Cut and retried, an import can end COMPLETED with counters that leave out what it did: its one row is
   IMPORTED, and importedRows 0; or its one row is FAILED, and failedRows 0.
  */
  lemma CutAttemptsAreForgotten(fault: bool)
    ensures NotStarted(OneRow)
    ensures var t := Run(OneRow, CutAndRetried(fault));
      && t.job.status == Completed && t.job.importedRows == t.job.failedRows == t.job.skippedRows == 0
      && t.rows.Keys == {0} && t.rows[0].status == (if fault then RowStatus.Failed else Imported)
  {
    OneIsWellNumbered(OneRow.rows);
    var step := StepAsValue();
    ItsSteps(step, fault);
    TraceIsRun(step, StatesOf(step, fault), CutAndRetried(fault), 8);
    assert CutAndRetried(fault)[..8] == CutAndRetried(fault);
  }

  /**
   A user cancels an import that is not being processed and has not ended; the last failure of its job fails one
   that is queued or was being processed. Neither touches a row or a contact.
  */
  lemma OutsideEndings(s: State)
    ensures Step(s, Cancel) == s.(job := s.job.(status := Step(s, Cancel).job.status))
    ensures Step(s, Cancel).job.status
         == if s.job.status in {Processing, Completed, Partial} then s.job.status else Cancelled
    ensures Step(s, GiveUp) == s.(job := s.job.(status := Step(s, GiveUp).job.status))
    ensures Step(s, GiveUp).job.status
         == if s.attempt.None? && s.job.status in {Queued, Processing} then JobFailed else s.job.status
  {
  }

  /** A finished import stays as it is, whatever is delivered again. */
  lemma {:induction false} FinishedForGood(s: State, es: seq<Event>)
    requires s.attempt.None? && s.job.status in {Completed, Partial}
    ensures var t := Run(s, es); t.rows == s.rows && t.job == s.job && t.made == s.made && t.attempt.None?
  {
    if es != [] { FinishedForGood(s, es[..|es| - 1]); }
  }

  // ----- Phones stay unique unless another writer comes between lookup and creation -----

  ghost predicate OnePerPhone(contacts: Contacts) {
    forall c, d :: (c in contacts && d in contacts && c != d && !contacts[c].archived && !contacts[d].archived
                    && Present(contacts[c].normalizedPhone)) ==>
      contacts[c].normalizedPhone != contacts[d].normalizedPhone
  }

  ghost predicate PhoneTaken(contacts: Contacts, row: NormalizedRow) {
    exists c :: c in contacts && !contacts[c].archived && Present(row.normalizedPhone)
      && contacts[c].normalizedPhone == row.normalizedPhone
  }

  /** Creating a contact keeps phones unique exactly when no live contact holds its phone by then. */
  lemma CreatingKeepsPhonesIff(contacts: Contacts, id: nat, number: nat, row: NormalizedRow)
    requires OnePerPhone(contacts) && id !in contacts
    ensures OnePerPhone(contacts[id := NewContact(number, row)]) <==> !PhoneTaken(contacts, row)
  {
    var after := contacts[id := NewContact(number, row)];
    if PhoneTaken(contacts, row) {
      var c :| c in contacts && !contacts[c].archived && Present(row.normalizedPhone)
        && contacts[c].normalizedPhone == row.normalizedPhone;
      assert after[c].normalizedPhone == after[id].normalizedPhone;
      assert c != id && !after[c].archived && !after[id].archived;
    } else {
      forall c | c in contacts && !contacts[c].archived && Present(row.normalizedPhone)
        ensures contacts[c].normalizedPhone != row.normalizedPhone
      {
      }
    }
  }

  /** Others keep phones unique themselves, and stay out of the gap between a row's lookup and its creation. */
  ghost predicate Polite(s: State, e: Event) {
    e.Outside? ==> OnePerPhone(e.contacts) && !(s.attempt.Some? && s.attempt.value.phase.Deciding?)
  }

  ghost predicate AllPolite(s: State, es: seq<Event>) {
    es == [] || (AllPolite(s, es[..|es| - 1]) && Polite(Run(s, es[..|es| - 1]), es[|es| - 1]))
  }

  ghost predicate AnswerStands(s: State) {
    s.attempt.Some? && s.attempt.value.phase.Deciding? ==>
      TrueAnswer(s, s.attempt.value.phase.row, s.attempt.value.phase.hit)
  }

  lemma StepKeepsPhones(s: State, e: Event)
    requires OnePerPhone(s.contacts) && AnswerStands(s) && Polite(s, e)
    ensures OnePerPhone(Step(s, e).contacts) && AnswerStands(Step(s, e))
  {
    if e.Decide? && s.attempt.Some? && s.attempt.value.phase.Deciding? && Unused(s, e.id)
      && s.attempt.value.phase.row in s.rows
       && s.rows[s.attempt.value.phase.row].normalized.Some? {
      var row := s.rows[s.attempt.value.phase.row];
      CreatingKeepsPhonesIff(s.contacts, e.id, row.number, row.normalized.value);
    }
  }

  /** A contact that comes into the gap with the phone of the row being decided leaves two of them. */
  lemma GapBreaksPhones(s: State, a: Attempt, newcomer: nat, contact: Contact, id: nat)
    requires s.attempt == Some(a) && a.phase.Deciding? && a.phase.hit == None && a.phase.row in s.rows
    requires s.rows[a.phase.row].normalized.Some? && Present(s.rows[a.phase.row].normalized.value.normalizedPhone)
    requires newcomer !in s.contacts && !contact.archived && !contact.platform.Zalo? && id != newcomer && Unused(s, id)
    requires contact.normalizedPhone == s.rows[a.phase.row].normalized.value.normalizedPhone
    requires !Clashes(s.contacts, s.rows[a.phase.row].normalized.value)
    ensures !OnePerPhone(Step(Step(s, Outside(s.contacts[newcomer := contact])), Decide(id, false)).contacts)
  {
    var row := s.rows[a.phase.row].normalized.value;
    var v := Step(s, Outside(s.contacts[newcomer := contact]));
    assert !Clashes(v.contacts, row);
    var u := Step(v, Decide(id, false));
    assert id in u.contacts && newcomer in u.contacts && id != newcomer;
    assert u.contacts[id].normalizedPhone == u.contacts[newcomer].normalizedPhone;
  }

  /** No two live contacts share a phone, over any run in which others are polite. */
  lemma {:induction false} PhonesStayUnique(s: State, es: seq<Event>)
    requires OnePerPhone(s.contacts) && s.attempt.None? && AllPolite(s, es)
    ensures OnePerPhone(Run(s, es).contacts) && AnswerStands(Run(s, es))
  {
    if es != [] {
      PhonesStayUnique(s, es[..|es| - 1]);
      StepKeepsPhones(Run(s, es[..|es| - 1]), es[|es| - 1]);
    }
  }
}
