/** The preview predicts the commit: what a mapped file promises, and when an undisturbed run keeps it. */
module ImportPreview {
  import opened Options
  import opened ImportModel
  import opened ImportMapping
  import opened ImportCommit

  /** A VALID row is usable, and shares no key with a live contact or another VALID row. */
  ghost predicate Promised(rows: Rows, contacts: Contacts) {
    && (forall r :: r in rows && rows[r].status == Valid ==>
          rows[r].normalized.Some? && KeySet(rows[r].normalized.value) !! LiveKeys(contacts))
    && (forall r, q :: (r in rows && q in rows && r != q && rows[r].status == Valid && rows[q].status == Valid
                        && rows[r].normalized.Some? && rows[q].normalized.Some?) ==>
          KeySet(rows[r].normalized.value) !! KeySet(rows[q].normalized.value))
  }

  ghost predicate ClashingRow(rows: Rows, contacts: Contacts, r: nat) {
    && r in rows && rows[r].status == Valid && rows[r].normalized.Some?
    && Clashes(contacts, rows[r].normalized.value)
  }

  /** No contact, archived ones included, holds a VALID row's Zalo id. */
  ghost predicate NoClash(rows: Rows, contacts: Contacts) {
    forall r :: r in rows ==> !ClashingRow(rows, contacts, r)
  }

  // ----- A mapped file keeps the promise -----

  lemma MarkedAt(before: Rows, after: Rows, ids: seq<nat>, items: seq<Prepared>, vs: seq<Verdict>, i: nat)
    requires |ids| == |items| == |vs| && Marked(before, after, ids, items, vs) && i < |ids|
    ensures ids[i] in after && after[ids[i]] == Mark(before[ids[i]], items[i], vs[i])
  {
    assert ids[i] in after.Keys;
  }

  /** Once mapped, a file has only VALID, INVALID and DUPLICATE rows. */
  ghost predicate Judged(rows: Rows) {
    forall r :: r in rows ==> rows[r].status in {Valid, Invalid, Duplicate}
  }

  ghost predicate AllListed(before: Rows, ids: seq<nat>) {
    forall r :: r in before ==> r in ids
  }

  /** Where a row stands in the order of the mapping, and what it was given there. */
  lemma PlaceOf(before: Rows, rows: Rows, ids: seq<nat>, items: seq<Prepared>, vs: seq<Verdict>,
                r: nat) returns (i: nat)
    requires |ids| == |items| == |vs| && Marked(before, rows, ids, items, vs) && AllListed(before, ids) && r in rows
    ensures i < |ids| && ids[i] == r && rows[r].status == StatusOf(vs[i])
    ensures rows[r].normalized == if items[i].Usable? then Some(items[i].value) else None
  {
    assert r in rows.Keys;
    i :| 0 <= i < |ids| && ids[i] == r;
    MarkedAt(before, rows, ids, items, vs, i);
  }

  lemma MarkedPromises(before: Rows, rows: Rows, ids: seq<nat>, items: seq<Prepared>, vs: seq<Verdict>,
                       contacts: Contacts)
    requires |ids| == |items| == |vs| && Marked(before, rows, ids, items, vs) && AllListed(before, ids)
    requires FreshApart(items, vs, {}) && FreshNotLive(items, vs, contacts)
    ensures Promised(rows, contacts) && Judged(rows)
  {
    forall r | r in rows ensures rows[r].status in {Valid, Invalid, Duplicate} {
      var i := PlaceOf(before, rows, ids, items, vs, r);
    }
    forall r | r in rows && rows[r].status == Valid
      ensures rows[r].normalized.Some? && KeySet(rows[r].normalized.value) !! LiveKeys(contacts)
    {
      var i := PlaceOf(before, rows, ids, items, vs, r);
      FreshAt(items, vs, i);
    }
    forall r, q | r in rows && q in rows && r != q && rows[r].status == Valid && rows[q].status == Valid
      && rows[r].normalized.Some? && rows[q].normalized.Some?
      ensures KeySet(rows[r].normalized.value) !! KeySet(rows[q].normalized.value)
    {
      var i := PlaceOf(before, rows, ids, items, vs, r);
      var j := PlaceOf(before, rows, ids, items, vs, q);
      if i < j { ApartAt(items, vs, i, j); } else { ApartAt(items, vs, j, i); }
    }
  }

  lemma FreshAt(items: seq<Prepared>, vs: seq<Verdict>, i: nat)
    requires |items| == |vs| && FreshApart(items, vs, {}) && i < |vs| && vs[i].Fresh?
    ensures items[i].Usable?
  {
  }

  /** After mapping, whatever the batch size, the VALID rows keep the promise and nothing is left unjudged. */
  lemma MappingPromises(s: Setup, before: Rows)
    requires s.take > 0
    ensures Promised(MappedRows(s, before), s.contacts) && Judged(MappedRows(s, before))
  {
    var ids := IdOrder(before);
    var items := Items(s, before, ids);
    MappedRowsAreMarked(s, before);
    MappingIsSoundAndMaximal(items, s.contacts, s.take);
    MarkedPromises(before, MappedRows(s, before), ids, items, MappingVerdicts(s, before), s.contacts);
  }

  /** In a mapped file the dedupe key of a VALID row is its own: it has one, and no other VALID row has the same. */
  lemma DedupeKeysAreUnique(s: Setup, before: Rows, r: nat, q: nat)
    requires s.take > 0 && r in MappedRows(s, before) && q in MappedRows(s, before) && r != q
    requires MappedRows(s, before)[r].status == Valid && MappedRows(s, before)[q].status == Valid
    ensures MappedRows(s, before)[r].dedupeKey.Some?
    ensures MappedRows(s, before)[r].dedupeKey != MappedRows(s, before)[q].dedupeKey
  {
    var rows := MappedRows(s, before);
    MappingPromises(s, before);
    ValidRowHasItsKey(s, before, r);
    ValidRowHasItsKey(s, before, q);
    assert KeySet(rows[r].normalized.value) !! KeySet(rows[q].normalized.value);
  }

  lemma ValidRowHasItsKey(s: Setup, before: Rows, r: nat)
    requires s.take > 0 && r in MappedRows(s, before) && MappedRows(s, before)[r].status == Valid
    ensures var row := MappedRows(s, before)[r];
      row.normalized.Some? && row.dedupeKey.Some? && row.dedupeKey.value in KeySet(row.normalized.value)
  {
    var ids := IdOrder(before);
    var items, vs := Items(s, before, ids), MappingVerdicts(s, before);
    MappedRowsAreMarked(s, before);
    MappingIsSoundAndMaximal(items, s.contacts, s.take);
    forall i | 0 <= i < |items| && items[i].Usable? ensures KeysOf(items[i].value) != [] {
      PreparedRowsHaveKeys(s.tools, before[ids[i]].raw, s.mapping, s.importId);
    }
    MarkedRowHasItsKey(before, MappedRows(s, before), ids, items, vs, r);
  }

  lemma MarkedRowHasItsKey(before: Rows, rows: Rows, ids: seq<nat>, items: seq<Prepared>, vs: seq<Verdict>, r: nat)
    requires |ids| == |items| == |vs| && Marked(before, rows, ids, items, vs) && AllListed(before, ids)
    requires FreshApart(items, vs, {}) && r in rows && rows[r].status == Valid
    requires forall i :: 0 <= i < |items| && items[i].Usable? ==> KeysOf(items[i].value) != []
    ensures rows[r].normalized.Some? && rows[r].dedupeKey.Some?
    ensures rows[r].dedupeKey.value in KeySet(rows[r].normalized.value)
  {
    var i := PlaceOf(before, rows, ids, items, vs, r);
    FreshAt(items, vs, i);
    MarkedAt(before, rows, ids, items, vs, i);
    assert KeysOf(items[i].value)[0] in KeysOf(items[i].value);
  }

  lemma ApartAt(items: seq<Prepared>, vs: seq<Verdict>, i: nat, j: nat)
    requires |items| == |vs| && FreshApart(items, vs, {}) && i < j < |vs| && vs[i].Fresh? && vs[j].Fresh?
    ensures items[i].Usable? && items[j].Usable? && KeySet(items[i].value) !! KeySet(items[j].value)
  {
  }

  function IdsWith(ids: seq<nat>, vs: seq<Verdict>, status: RowStatus): set<nat>
    requires |ids| == |vs|
  {
    set i | 0 <= i < |ids| && StatusOf(vs[i]) == status :: ids[i]
  }

  lemma IdsWithOneMore(ids: seq<nat>, vs: seq<Verdict>, status: RowStatus)
    requires |ids| == |vs| && ids != [] && Distinct(ids)
    ensures var k := |ids| - 1;
      && IdsWith(ids, vs, status)
         == IdsWith(ids[..k], vs[..k], status) + (if StatusOf(vs[k]) == status then {ids[k]} else {})
      && ids[k] !in IdsWith(ids[..k], vs[..k], status)
  {
    var k := |ids| - 1;
    assert ids == ids[..k] + [ids[k]] && vs == vs[..k] + [vs[k]];
  }

  lemma {:induction false} IdsWithCounted(ids: seq<nat>, vs: seq<Verdict>, status: RowStatus)
    requires |ids| == |vs| && Distinct(ids)
    ensures |IdsWith(ids, vs, status)| == CountOf(vs, status)
  {
    if ids == [] {
      assert IdsWith(ids, vs, status) == {};
    } else {
      IdsWithCounted(ids[..|ids| - 1], vs[..|ids| - 1], status);
      IdsWithOneMore(ids, vs, status);
    }
  }

  lemma MarkedWith(before: Rows, rows: Rows, ids: seq<nat>, items: seq<Prepared>, vs: seq<Verdict>, status: RowStatus)
    requires |ids| == |items| == |vs| && Marked(before, rows, ids, items, vs) && AllListed(before, ids)
    ensures With(rows, status) == IdsWith(ids, vs, status)
  {
    forall r | r in With(rows, status) ensures r in IdsWith(ids, vs, status) {
      var i := PlaceOf(before, rows, ids, items, vs, r);
    }
    forall i | 0 <= i < |ids| && StatusOf(vs[i]) == status ensures ids[i] in With(rows, status) {
      MarkedAt(before, rows, ids, items, vs, i);
    }
  }

  lemma StatusCounted(s: Setup, before: Rows, status: RowStatus)
    requires s.take > 0
    ensures |With(MappedRows(s, before), status)| == CountOf(MappingVerdicts(s, before), status)
  {
    var ids, vs := IdOrder(before), MappingVerdicts(s, before);
    MappedRowsAreMarked(s, before);
    IdsDistinct(before);
    MarkedWith(before, MappedRows(s, before), ids, Items(s, before, ids), vs, status);
    IdsWithCounted(ids, vs, status);
  }

  /** Each of the three counters counts the rows of its status. */
  lemma CountersCountRows(s: Setup, before: Rows)
    requires s.take > 0
    ensures var c, rows := MappingCounters(s, before), MappedRows(s, before);
      && c.valid == |With(rows, Valid)| && c.invalid == |With(rows, Invalid)|
      && c.duplicate == |With(rows, Duplicate)|
  {
    StatusCounted(s, before, Valid);
    StatusCounted(s, before, Invalid);
    StatusCounted(s, before, Duplicate);
  }

  // ----- An undisturbed run -----

  /** A contact matches a row exactly when they share a key. */
  lemma MatchingIsSharing(contacts: Contacts, row: NormalizedRow)
    ensures (exists c :: c in contacts && Matches(contacts[c], row)) <==> !(KeySet(row) !! LiveKeys(contacts))
  {
    if c :| c in contacts && Matches(contacts[c], row) {
      if Present(row.normalizedPhone) && contacts[c].normalizedPhone == row.normalizedPhone {
        assert PhoneKey(row.normalizedPhone.value) in KeysOf(row)
          && PhoneKey(row.normalizedPhone.value) in LiveKeys(contacts);
      } else {
        assert ZaloKey(row.platformUserId.value) in KeysOf(row)
          && ZaloKey(row.platformUserId.value) in LiveKeys(contacts);
      }
    }
    if k :| k in KeySet(row) && k in LiveKeys(contacts) {
      match k
      case PhoneKey(p) =>
        var c :| c in contacts && !contacts[c].archived && Present(contacts[c].normalizedPhone)
          && contacts[c].normalizedPhone.value == p;
        assert Matches(contacts[c], row);
      case ZaloKey(z) =>
        var c :| c in contacts && !contacts[c].archived && contacts[c].platform.Zalo?
          && Present(contacts[c].platformUserId)
          && contacts[c].platformUserId.value == z;
        assert Matches(contacts[c], row);
    }
  }

  /** No cut, no failing statement, and nobody else at work. */
  predicate Smooth(e: Event) {
    !e.Cut? && !e.Outside? && (e.Decide? ==> !e.fault)
  }

  predicate AllSmooth(es: seq<Event>) {
    forall i :: 0 <= i < |es| ==> Smooth(es[i])
  }

  /** The undisturbed attempt on the mapped file `s0`, while it runs and once it has ended. */
  ghost predicate Keeps(s0: State, s: State) {
    && Promised(s.rows, s.contacts)
    && (s.attempt.None? ==> With(s.rows, Valid) == {} && s.job.status in {Completed, Partial})
    && (s.attempt.Some? ==>
          && s.job.status == Processing && s.attempt.value.began == s0.rows && s.attempt.value.raceSkipped == 0
          && (s.attempt.value.phase.Deciding? ==> s.attempt.value.phase.hit.None?))
  }

  /** Its bookkeeping when no VALID row clashes. */
  ghost predicate AllWell(s0: State, s: State) {
    && NoClash(s.rows, s.contacts)
    && (s.attempt.Some? ==> s.attempt.value.failed == 0)
    && (s.attempt.None? ==>
          && s.job.status == Completed && s.job.importedRows == |With(s.rows, Imported)| - |With(s0.rows, Imported)|
          && |With(s.rows, Skipped)| == |With(s0.rows, Skipped)|
          && |With(s.rows, RowStatus.Failed)| == |With(s0.rows, RowStatus.Failed)|)
  }

  /** A row that clashes is never imported. */
  ghost predicate StillClashes(s: State, r: nat) {
    && r in s.rows && s.rows[r].status in {Valid, RowStatus.Failed} && s.rows[r].normalized.Some?
    && Clashes(s.contacts, s.rows[r].normalized.value)
  }

  lemma LookFindsNothing(s: State, row: nat, hit: Option<nat>)
    requires Promised(s.rows, s.contacts) && row in s.rows && s.rows[row].status == Valid && TrueAnswer(s, row, hit)
    ensures hit.None?
  {
    MatchingIsSharing(s.contacts, s.rows[row].normalized.value);
  }

  lemma CreationAddsKeys(contacts: Contacts, id: nat, number: nat, row: NormalizedRow)
    requires id !in contacts
    ensures LiveKeys(contacts[id := NewContact(number, row)]) == LiveKeys(contacts) + KeySet(row)
  {
    var after := contacts[id := NewContact(number, row)];
    assert after[id] == NewContact(number, row);
    forall k ensures k in LiveKeys(after) <==> k in LiveKeys(contacts) || k in KeySet(row) {
      if k in LiveKeys(contacts) {
        if k.PhoneKey? {
          var c :| c in contacts && !contacts[c].archived && Present(contacts[c].normalizedPhone)
            && PhoneKey(contacts[c].normalizedPhone.value) == k;
          assert after[c] == contacts[c];
        } else {
          var c :| c in contacts && !contacts[c].archived && contacts[c].platform.Zalo?
            && Present(contacts[c].platformUserId)
            && ZaloKey(contacts[c].platformUserId.value) == k;
          assert after[c] == contacts[c];
        }
      }
    }
  }

  lemma CreationKeepsPromise(rows: Rows, contacts: Contacts, r: nat, id: nat)
    requires Promised(rows, contacts) && r in rows && rows[r].status == Valid && id !in contacts
    ensures Promised(rows[r := Settle(rows[r], Creates(id))],
                     contacts[id := NewContact(rows[r].number, rows[r].normalized.value)])
  {
    CreationAddsKeys(contacts, id, rows[r].number, rows[r].normalized.value);
  }

  lemma SharedIdSharesKey(a: NormalizedRow, b: NormalizedRow)
    requires Present(a.platformUserId) && a.platformUserId == b.platformUserId
    ensures !(KeySet(a) !! KeySet(b))
  {
    assert ZaloKey(a.platformUserId.value) in KeysOf(a) && ZaloKey(a.platformUserId.value) in KeysOf(b);
    assert ZaloKey(a.platformUserId.value) in KeySet(a);
  }

  lemma NewContactClashesNot(rows: Rows, contacts: Contacts, r: nat, id: nat, q: nat)
    requires Promised(rows, contacts) && r in rows && rows[r].status == Valid && id !in contacts && q != r
    ensures ClashingRow(rows, contacts[id := NewContact(rows[r].number, rows[r].normalized.value)], q) ==>
      ClashingRow(rows, contacts, q)
  {
    var after := contacts[id := NewContact(rows[r].number, rows[r].normalized.value)];
    if ClashingRow(rows, after, q) {
      var row := rows[q].normalized.value;
      var c :| c in after && Present(row.platformUserId) && after[c].platform.Zalo?
        && after[c].platformUserId == row.platformUserId;
      if row.platformUserId == rows[r].normalized.value.platformUserId {
        SharedIdSharesKey(row, rows[r].normalized.value);
      }
    }
  }

  lemma CreationKeepsNoClash(rows: Rows, contacts: Contacts, r: nat, id: nat)
    requires Promised(rows, contacts) && NoClash(rows, contacts) && r in rows && rows[r].status == Valid
    requires id !in contacts
    ensures NoClash(rows[r := Settle(rows[r], Creates(id))],
                    contacts[id := NewContact(rows[r].number, rows[r].normalized.value)])
  {
    forall q | q in rows && q != r
      ensures !ClashingRow(rows, contacts[id := NewContact(rows[r].number, rows[r].normalized.value)], q)
    {
      NewContactClashesNot(rows, contacts, r, id, q);
    }
  }

  // One row decided. The lookup found nothing, so the row is imported or, where it clashes, failed.

  lemma FailingKeepsPromise(rows: Rows, contacts: Contacts, r: nat)
    requires Promised(rows, contacts) && r in rows
    ensures Promised(rows[r := Settle(rows[r], Fails)], contacts)
  {
  }

  lemma DecideIsClean(first: Rows, s: State, a: Attempt, id: nat)
    requires Inv(first, s) && Promised(s.rows, s.contacts) && s.attempt == Some(a) && a.phase.Deciding?
    requires a.phase.hit.None?
    ensures a.phase.row in s.rows && s.rows[a.phase.row].status == Valid && s.rows[a.phase.row].normalized.Some?
    ensures OutcomeOf(s, a.phase.row, a.phase.hit, id, false)
         == if Clashes(s.contacts, s.rows[a.phase.row].normalized.value) then Fails else Creates(id)
  {
  }

  lemma FailKeepsAll(s0: State, s: State, a: Attempt, u: State)
    requires Keeps(s0, s) && s.attempt == Some(a) && a.phase.Deciding? && a.phase.row in s.rows
    requires u == State(s.rows[a.phase.row := Settle(s.rows[a.phase.row], Fails)], s.contacts, s.job,
                        Some(Count(a, Fails).(phase := Working(a.phase.queue))), s.made)
    ensures Keeps(s0, u)
  {
    FailingKeepsPromise(s.rows, s.contacts, a.phase.row);
  }

  lemma CreateKeepsAll(s0: State, s: State, a: Attempt, id: nat, u: State)
    requires Keeps(s0, s) && s.attempt == Some(a) && a.phase.Deciding? && id !in s.contacts
    requires a.phase.row in s.rows && s.rows[a.phase.row].status == Valid
    requires u == State(s.rows[a.phase.row := Settle(s.rows[a.phase.row], Creates(id))],
                        s.contacts[id := NewContact(s.rows[a.phase.row].number,
                                                    s.rows[a.phase.row].normalized.value)], s.job,
                        Some(Count(a, Creates(id)).(phase := Working(a.phase.queue))), s.made + [Made(a.phase.row, id)])
    ensures Keeps(s0, u)
    ensures AllWell(s0, s) ==> AllWell(s0, u)
  {
    CreationKeepsPromise(s.rows, s.contacts, a.phase.row, id);
    if AllWell(s0, s) { CreationKeepsNoClash(s.rows, s.contacts, a.phase.row, id); }
  }

  lemma DecideKeepsAll(s0: State, s: State, a: Attempt, id: nat)
    requires Inv(s0.rows, s) && Keeps(s0, s) && s.attempt == Some(a) && a.phase.Deciding? && Unused(s, id)
    ensures Keeps(s0, DecideRow(s, a, id, false))
    ensures AllWell(s0, s) ==> AllWell(s0, DecideRow(s, a, id, false))
  {
    DecideIsClean(s0.rows, s, a, id);
    if Clashes(s.contacts, s.rows[a.phase.row].normalized.value) {
      FailKeepsAll(s0, s, a, DecideRow(s, a, id, false));
      assert ClashingRow(s.rows, s.contacts, a.phase.row);
    } else {
      CreateKeepsAll(s0, s, a, id, DecideRow(s, a, id, false));
    }
  }

  lemma NothingAhead(rows: Rows, a: Attempt)
    requires WellNumbered(rows) && AttemptInv(rows, a) && a.phase.Ending?
    ensures With(rows, Valid) == {}
  {
    assert forall id :: id in With(rows, Valid) ==> id in Ahead(rows, a.lastRow);
  }

  lemma EndKeepsAll(s0: State, s: State, a: Attempt)
    requires Inv(s0.rows, s) && Keeps(s0, s) && s.attempt == Some(a) && a.phase.Ending?
    ensures Keeps(s0, Work(s, a, End))
    ensures AllWell(s0, s) ==> AllWell(s0, Work(s, a, End))
  {
    NothingAhead(s.rows, a);
  }

  lemma LookKeepsAll(s0: State, s: State, a: Attempt, hit: Option<nat>)
    requires Inv(s0.rows, s) && Keeps(s0, s) && s.attempt == Some(a)
    ensures Keeps(s0, Work(s, a, Look(hit)))
    ensures AllWell(s0, s) ==> AllWell(s0, Work(s, a, Look(hit)))
  {
    if a.phase.Working? && a.phase.queue != [] {
      PassKeepsNoneBehind(s.rows, a.lastRow, a.phase.queue, hit);
      if TrueAnswer(s, a.phase.queue[0], hit) { LookFindsNothing(s, a.phase.queue[0], hit); }
    }
  }

  /** The other statements touch neither rows nor contacts. */
  lemma BesideKeepsAll(s0: State, s: State, e: Event)
    requires Keeps(s0, s) && Smooth(e) && !e.Look? && !e.Decide? && !e.End?
    ensures Keeps(s0, Step(s, e))
    ensures AllWell(s0, s) ==> AllWell(s0, Step(s, e))
  {
  }

  lemma StepKeepsAll(s0: State, s: State, e: Event)
    requires Inv(s0.rows, s) && Keeps(s0, s) && Smooth(e)
    ensures Keeps(s0, Step(s, e))
    ensures AllWell(s0, s) ==> AllWell(s0, Step(s, e))
  {
    if s.attempt.None? || (!e.Look? && !e.Decide? && !e.End?) {
      if !e.Look? && !e.Decide? && !e.End? { BesideKeepsAll(s0, s, e); }
    } else {
      var a := s.attempt.value;
      if e.Look? { LookKeepsAll(s0, s, a, e.hit); }
      if e.Decide? && a.phase.Deciding? && Unused(s, e.id) { DecideKeepsAll(s0, s, a, e.id); }
      if e.End? && a.phase.Ending? { EndKeepsAll(s0, s, a); }
    }
  }

  lemma ClashLasts(contacts: Contacts, row: NormalizedRow, id: nat, contact: Contact)
    requires Clashes(contacts, row) && id !in contacts
    ensures Clashes(contacts[id := contact], row)
  {
    var c :| c in contacts && Present(row.platformUserId) && contacts[c].platform.Zalo?
      && contacts[c].platformUserId == row.platformUserId;
    assert contacts[id := contact][c] == contacts[c];
  }

  lemma StepKeepsClash(s: State, e: Event, r: nat)
    requires StillClashes(s, r) && Smooth(e)
    requires s.attempt.Some? && s.attempt.value.phase.Deciding? ==> s.attempt.value.phase.hit.None?
    ensures StillClashes(Step(s, e), r)
  {
    if e.Decide? && s.attempt.Some? && s.attempt.value.phase.Deciding? && s.attempt.value.phase.row in s.rows
      && Unused(s, e.id) {
      var row := s.rows[s.attempt.value.phase.row];
      if row.normalized.Some? {
        ClashLasts(s.contacts, s.rows[r].normalized.value, e.id, NewContact(row.number, row.normalized.value));
      }
    }
  }

  /** A mapped import whose attempt has passed the quota check. */
  ghost predicate Mapped(s: State) {
    && WellNumbered(s.rows) && s.made == [] && s.attempt.None? && s.job.status !in {Completed, Partial}
    && Judged(s.rows) && Promised(s.rows, s.contacts)
  }

  function FirstStep(s0: State, limit: nat): State {
    Step(s0, Begin(Some(limit)))
  }

  predicate WithinQuota(s: State, limit: nat) {
    LiveCount(s.contacts) + s.job.validRows <= limit
  }

  lemma {:induction false} SmoothRunKeeps(s0: State, limit: nat, es: seq<Event>)
    requires Mapped(s0) && WithinQuota(s0, limit) && AllSmooth(es)
    ensures var s := Run(FirstStep(s0, limit), es);
      && Inv(s0.rows, s) && Keeps(s0, s)
      && (NoClash(s0.rows, s0.contacts) ==> AllWell(s0, s))
      && (forall r :: ClashingRow(s0.rows, s0.contacts, r) ==> StillClashes(s, r))
  {
    if es == [] {
      StepKeeps(s0.rows, s0, Begin(Some(limit)));
    } else {
      var s := Run(FirstStep(s0, limit), es[..|es| - 1]);
      SmoothRunKeeps(s0, limit, es[..|es| - 1]);
      StepKeeps(s0.rows, s, es[|es| - 1]);
      StepKeepsAll(s0, s, es[|es| - 1]);
      forall r | ClashingRow(s0.rows, s0.contacts, r) ensures StillClashes(Step(s, es[|es| - 1]), r) {
        StepKeepsClash(s, es[|es| - 1], r);
      }
    }
  }

  /** Exactly the VALID rows were imported, none was skipped or failed, and the job says so. */
  ghost predicate AsPreviewed(s0: State, s: State) {
    && (forall r :: r in s0.rows && r in s.rows ==>
          s.rows[r].status == if s0.rows[r].status == Valid then Imported else s0.rows[r].status)
    && s.job.status == Completed && s.job.importedRows == |With(s0.rows, Valid)|
  }

  lemma EmptyWith(rows: Rows, status: RowStatus)
    requires |With(rows, status)| == 0
    ensures forall r :: r in rows ==> rows[r].status != status
  {
    assert forall r :: r in rows ==> (r in With(rows, status) <==> rows[r].status == status);
  }

  /** Only IMPORTED is left for the rows that were VALID. */
  lemma OnlyImportedLeft(first: Rows, rows: Rows)
    requires RowsKept(first, rows) && Judged(first)
    requires |With(rows, Skipped)| == 0 && |With(rows, RowStatus.Failed)| == 0 && |With(rows, Valid)| == 0
    ensures forall r :: r in first && r in rows ==>
      rows[r].status == if first[r].status == Valid then Imported else first[r].status
    ensures With(rows, Imported) == With(first, Valid)
  {
    EmptyWith(rows, Skipped);
    EmptyWith(rows, RowStatus.Failed);
    EmptyWith(rows, Valid);
    assert forall r :: r in rows <==> r in first.Keys;
  }

  lemma NoneYet(rows: Rows)
    requires Judged(rows)
    ensures |With(rows, Skipped)| == 0 && |With(rows, RowStatus.Failed)| == 0 && |With(rows, Imported)| == 0
  {
    assert With(rows, Skipped) == {} && With(rows, RowStatus.Failed) == {} && With(rows, Imported) == {};
  }

  lemma AllWellIsAsPreviewed(s0: State, s: State)
    requires Judged(s0.rows) && RowsKept(s0.rows, s.rows) && AllWell(s0, s) && s.attempt.None?
    requires With(s.rows, Valid) == {}
    ensures AsPreviewed(s0, s)
  {
    NoneYet(s0.rows);
    OnlyImportedLeft(s0.rows, s.rows);
  }

  /**
   An undisturbed attempt that passes the quota check and ends has done exactly what the preview
   showed if and only if no contact, archived ones included, holds the Zalo id of a VALID row.
   */
  lemma PreviewPredictsCommitIff(s0: State, limit: nat, es: seq<Event>)
    requires Mapped(s0) && WithinQuota(s0, limit) && AllSmooth(es)
    requires Run(FirstStep(s0, limit), es).attempt.None?
    ensures AsPreviewed(s0, Run(FirstStep(s0, limit), es)) <==> NoClash(s0.rows, s0.contacts)
  {
    var s := Run(FirstStep(s0, limit), es);
    SmoothRunKeeps(s0, limit, es);
    if NoClash(s0.rows, s0.contacts) {
      AllWellIsAsPreviewed(s0, s);
    } else {
      var r :| r in s0.rows && ClashingRow(s0.rows, s0.contacts, r);
      assert StillClashes(s, r) && s.rows[r].status != Imported;
    }
  }

  /** A queued job over a freshly mapped file. */
  function QueuedImport(s: Setup, before: Rows, skipped: nat): State
    requires s.take > 0
  {
    State(MappedRows(s, before), s.contacts,
      Job(JobStatus.Queued, MappingCounters(s, before).valid, 0, 0, skipped, 0), None, [])
  }

  /** From the staged file to the end of the commit: what mapping showed is what the import does. */
  lemma MappedFileImportsAsPreviewed(m: Setup, before: Rows, skipped: nat, limit: nat, es: seq<Event>)
    requires m.take > 0 && WellNumbered(before) && WithinQuota(QueuedImport(m, before, skipped), limit) && AllSmooth(es)
    requires Run(FirstStep(QueuedImport(m, before, skipped), limit), es).attempt.None?
    ensures var s0 := QueuedImport(m, before, skipped);
      var s := Run(FirstStep(s0, limit), es);
      (AsPreviewed(s0, s) && s.job.importedRows == MappingCounters(m, before).valid) <==> NoClash(s0.rows, s0.contacts)
  {
    var s0 := QueuedImport(m, before, skipped);
    MappingPromises(m, before);
    CountersCountRows(m, before);
    MappedKeepsNumbers(m, before);
    PreviewPredictsCommitIff(s0, limit, es);
  }

  lemma MarkedKeepsNumbers(before: Rows, rows: Rows, ids: seq<nat>, items: seq<Prepared>, vs: seq<Verdict>)
    requires |ids| == |items| == |vs| && Marked(before, rows, ids, items, vs) && AllListed(before, ids)
    ensures Numbers(rows) == Numbers(before)
  {
    assert forall r :: r in rows <==> r in before.Keys;
    forall r | r in rows ensures r in before && rows[r].number == before[r].number {
      var i :| 0 <= i < |ids| && ids[i] == r;
      MarkedAt(before, rows, ids, items, vs, i);
    }
  }

  lemma MappedKeepsNumbers(m: Setup, before: Rows)
    requires m.take > 0 && WellNumbered(before)
    ensures WellNumbered(MappedRows(m, before))
  {
    var ids, rows := IdOrder(before), MappedRows(m, before);
    MappedRowsAreMarked(m, before);
    MarkedKeepsNumbers(before, rows, ids, Items(m, before, ids), MappingVerdicts(m, before));
    assert rows.Keys == before.Keys;
    SameNumbering(before, rows);
  }

  lemma SameNumbering(before: Rows, rows: Rows)
    requires WellNumbered(before) && rows.Keys == before.Keys && Numbers(rows) == Numbers(before)
    ensures WellNumbered(rows)
  {
    forall id | id in rows ensures rows[id].number > 0 {
      assert id in before.Keys;
      assert Numbers(rows)[id] == Numbers(before)[id];
    }
  }

  // ----- An archived contact in the way -----

  const Gone: Contact := Contact(Zalo, Some("z"), "b", None, None, None, None, None, "", Unknown, false, true, None)

  /** Only an archived contact holds the Zalo id of the one row. */
  const InTheWay: State := OneRow.(contacts := map[0 := Gone])

  lemma ArchivedIsNotLive()
    ensures Mapped(InTheWay) && WithinQuota(InTheWay, 1) && !NoClash(InTheWay.rows, InTheWay.contacts)
  {
    assert LiveKeys(InTheWay.contacts) == {};
    assert Living(InTheWay.contacts) == {};
    assert InTheWay.contacts[0] == Gone && ClashingRow(InTheWay.rows, InTheWay.contacts, 0);
  }

  /** The preview shows one row to import; the import, with nobody in its way but the archived contact, imports none. */
  lemma ArchivedHolderFailsTheRow(es: seq<Event>)
    requires AllSmooth(es) && Run(FirstStep(InTheWay, 1), es).attempt.None?
    ensures 0 in Run(FirstStep(InTheWay, 1), es).rows
    ensures Run(FirstStep(InTheWay, 1), es).rows[0].status == RowStatus.Failed
  {
    ArchivedIsNotLive();
    SmoothRunKeeps(InTheWay, 1, es);
    var s := Run(FirstStep(InTheWay, 1), es);
    assert ClashingRow(InTheWay.rows, InTheWay.contacts, 0) && StillClashes(s, 0);
    EmptyWith(s.rows, Valid);
  }
}
