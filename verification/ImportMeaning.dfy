/**
 What a file's rows mean, read off their cells: which rows are refused and why, what the others say, how a
 mapped file is judged, and what the contacts made from it hold.
 */
module ImportMeaning {
  import opened Options
  import opened Text
  import opened PhoneNumbers
  import opened Ordering
  import opened ImportModel
  import opened ImportMapping
  import opened ImportBatching
  import opened ImportCommit
  import opened ImportPreview

  // ----- One row -----

  /** What a row says for a target: the trimmed cell of the last column mapped to it, or nothing. */
  function Said(raw: map<string, string>, mapping: seq<Column>, t: Target): string {
    if LastColumn(mapping, t).Some? then Cell(raw, LastColumn(mapping, t).value) else ""
  }

  lemma {:induction false} LastColumnIs(mapping: seq<Column>, t: Target, i: nat)
    requires i < |mapping| && mapping[i].target == Some(t)
    requires forall j :: i < j < |mapping| ==> mapping[j].target != Some(t)
    ensures LastColumn(mapping, t) == Some(mapping[i].name)
  {
    if i < |mapping| - 1 { LastColumnIs(mapping[..|mapping| - 1], t, i); }
  }

  lemma SaidIsTrimmed(raw: map<string, string>, mapping: seq<Column>, t: Target)
    ensures At(ValuesOf(raw, mapping), t) == Said(raw, mapping, t)
    ensures Trim(Said(raw, mapping, t)) == Said(raw, mapping, t)
    ensures Blank(Said(raw, mapping, t)) <==> Said(raw, mapping, t) == ""
  {
    TrimCleans("");
    TrimsToNothingIff("");
    if LastColumn(mapping, t).Some? && LastColumn(mapping, t).value in raw {
      TrimCleans(raw[LastColumn(mapping, t).value]);
      TrimsToNothingIff(raw[LastColumn(mapping, t).value]);
    }
  }

  predicate BadPhoneText(text: string) {
    !Blank(text) && !(9 <= |Digits(text)| <= 15)
  }

  predicate Part(a: string) {
    a != "" && forall k :: 0 <= k < |a| ==> a[k] != '@' && !IsSpace(a[k])
  }

  ghost predicate EmailShaped(s: string) {
    exists a, b, c :: Part(a) && Part(b) && Part(c) && s == a + "@" + b + "." + c
  }

  lemma PartsAreEmail(a: string, b: string, c: string, s: string)
    requires Part(a) && Part(b) && Part(c) && s == a + "@" + b + "." + c
    ensures PlausibleEmail(s)
  {
    var i, j := |a|, |a| + 1 + |b|;
    assert s[i] == '@' && s[j] == '.' && j < |s| - 1;
    forall k | 0 <= k < |s| && k != i ensures s[k] != '@' && !IsSpace(s[k]) {
      if k < i { assert s[k] == a[k]; }
      else if k < j { assert s[k] == b[k - i - 1]; }
      else if k > j { assert s[k] == c[k - j - 1]; }
    }
  }

  lemma PartOf(s: string, i: nat, from: nat, to: nat)
    requires forall k :: 0 <= k < |s| && k != i ==> s[k] != '@' && !IsSpace(s[k])
    requires from < to <= |s| && !(from <= i < to)
    ensures Part(s[from..to])
  {
    var a := s[from..to];
    forall k | 0 <= k < |a| ensures a[k] != '@' && !IsSpace(a[k]) { assert a[k] == s[from + k]; }
  }

  lemma SplitAt(s: string, i: nat, j: nat)
    requires i < j < |s| && s[i] == '@' && s[j] == '.'
    ensures s == s[..i] + "@" + s[i + 1..j] + "." + s[j + 1..]
  {
  }

  /** The address test asks for three parts without "@" or white space, with "@" and a dot between them. */
  lemma EmailIff(s: string)
    ensures PlausibleEmail(s) <==> EmailShaped(s)
  {
    if PlausibleEmail(s) {
      var i, j :| 0 < i && i + 1 < j < |s| - 1 && s[i] == '@' && s[j] == '.'
        && forall k :: 0 <= k < |s| && k != i ==> s[k] != '@' && !IsSpace(s[k]);
      PartOf(s, i, 0, i);
      PartOf(s, i, i + 1, j);
      PartOf(s, i, j + 1, |s|);
      SplitAt(s, i, j);
      assert s[0..i] == s[..i] && s[j + 1..|s|] == s[j + 1..];
    }
    if EmailShaped(s) {
      var a, b, c :| Part(a) && Part(b) && Part(c) && s == a + "@" + b + "." + c;
      PartsAreEmail(a, b, c, s);
    }
  }

  /** What can be wrong with a row. */
  ghost predicate Faulty(tools: Tools, raw: map<string, string>, mapping: seq<Column>, note: Note) {
    match note
    case MissingName => Blank(Said(raw, mapping, DisplayName))
    case BadPhone => BadPhoneText(Said(raw, mapping, Phone))
    case MissingIdentity => Blank(Said(raw, mapping, Phone)) && Blank(Said(raw, mapping, PlatformUserId))
    case BadEmail =>
      var email := tools.lower(Said(raw, mapping, Email)); email != "" && !EmailShaped(email)
    case _ => false
  }

  /** The order in which faults are looked for. */
  const Faults: seq<Note> := [MissingName, BadPhone, MissingIdentity, BadEmail]

  ghost predicate FirstFault(tools: Tools, raw: map<string, string>, mapping: seq<Column>, note: Note) {
    exists i :: 0 <= i < |Faults| && Faults[i] == note && Faulty(tools, raw, mapping, note)
      && forall j :: 0 <= j < i ==> !Faulty(tools, raw, mapping, Faults[j])
  }

  ghost predicate Faultless(tools: Tools, raw: map<string, string>, mapping: seq<Column>) {
    forall note :: !Faulty(tools, raw, mapping, note)
  }

  lemma PhoneIsJudged(text: string)
    ensures ByImportEngine(text).Rejected? <==> BadPhoneText(text)
    ensures ByImportEngine(text).Absent? <==> Blank(text)
    ensures ByImportEngine(text).Number? ==> ByImportEngine(text).text == "+" + International(Digits(text))
  {
    if ByImportEngine(text).Number? { NumberIsInternational(text); }
  }

  lemma PreparedFaults(tools: Tools, raw: map<string, string>, mapping: seq<Column>, importId: string)
    ensures var item := Prepare(tools, raw, mapping, importId);
      item == if Faulty(tools, raw, mapping, MissingName) then Unusable(MissingName)
        else if Faulty(tools, raw, mapping, BadPhone) then Unusable(BadPhone)
        else if Faulty(tools, raw, mapping, MissingIdentity) then Unusable(MissingIdentity)
        else if Faulty(tools, raw, mapping, BadEmail) then Unusable(BadEmail)
        else item
    ensures Prepare(tools, raw, mapping, importId).Usable? <==> Faultless(tools, raw, mapping)
  {
    SaidIsTrimmed(raw, mapping, DisplayName);
    SaidIsTrimmed(raw, mapping, Phone);
    SaidIsTrimmed(raw, mapping, PlatformUserId);
    SaidIsTrimmed(raw, mapping, Email);
    PhoneIsJudged(Said(raw, mapping, Phone));
    EmailIff(tools.lower(Said(raw, mapping, Email)));
    var item := Prepare(tools, raw, mapping, importId);
    if item.Usable? {
      forall note ensures !Faulty(tools, raw, mapping, note) {
        match note
        case MissingName =>
        case BadPhone =>
        case MissingIdentity =>
        case BadEmail =>
        case _ =>
      }
    }
  }

  /** A row is refused exactly if it has a fault, and for the first of its faults. */
  lemma RefusedIff(tools: Tools, raw: map<string, string>, mapping: seq<Column>, importId: string, note: Note)
    ensures Prepare(tools, raw, mapping, importId) == Unusable(note) <==> FirstFault(tools, raw, mapping, note)
    ensures Prepare(tools, raw, mapping, importId).Usable? <==> Faultless(tools, raw, mapping)
  {
    PreparedFaults(tools, raw, mapping, importId);
    FaultsInOrder(tools, raw, mapping, note);
  }

  lemma FaultsInOrder(tools: Tools, raw: map<string, string>, mapping: seq<Column>, note: Note)
    ensures FirstFault(tools, raw, mapping, note) <==>
      && Faulty(tools, raw, mapping, note)
      && (note != MissingName ==> !Faulty(tools, raw, mapping, MissingName))
      && (note in {MissingIdentity, BadEmail} ==> !Faulty(tools, raw, mapping, BadPhone))
      && (note == BadEmail ==> !Faulty(tools, raw, mapping, MissingIdentity))
  {
    assert Faults[0] == MissingName && Faults[1] == BadPhone && Faults[2] == MissingIdentity && Faults[3] == BadEmail;
  }

  /** An optional field that tells a text: nothing if there is none. */
  predicate Tells(field: Option<string>, text: string) {
    if text == "" then field.None? else field == Some(text)
  }

  predicate ConsentSays(consent: Consent, word: string) {
    match consent
    case OptedIn => word in {"optedin", "yes", "true", "1", "dongy", "consent"}
    case OptedOut => word in {"optedout", "no", "false", "0", "tuchoi"}
    case Unknown =>
      word !in {"optedin", "yes", "true", "1", "dongy", "consent", "optedout", "no", "false", "0", "tuchoi"}
  }

  /** Every field says what the row's cells say. */
  ghost predicate SaysItsCells(value: NormalizedRow, tools: Tools, raw: map<string, string>, mapping: seq<Column>,
                               importId: string) {
    && value.displayName == Said(raw, mapping, DisplayName)
    && Tells(value.phone, Said(raw, mapping, Phone)) && Tells(value.platformUserId, Said(raw, mapping, PlatformUserId))
    && Tells(value.normalizedPhone, if Said(raw, mapping, Phone) == "" then ""
                                    else "+" + International(Digits(Said(raw, mapping, Phone))))
    && Tells(value.username, Said(raw, mapping, Username)) && Tells(value.gender, Said(raw, mapping, Gender))
    && Tells(value.email, tools.lower(Said(raw, mapping, Email)))
    && value.source
       == (if Said(raw, mapping, Source) == "" then "IMPORT:" + importId else Said(raw, mapping, Source))
    && ConsentSays(value.consent, tools.cleanHeader(Said(raw, mapping, ConsentStatus)))
  }

  lemma ConsentOfSays(word: string)
    ensures ConsentSays(ConsentOf(word), word)
  {
  }

  lemma UsableSaysItsCells(tools: Tools, raw: map<string, string>, mapping: seq<Column>, importId: string)
    requires Prepare(tools, raw, mapping, importId).Usable?
    ensures SaysItsCells(Prepare(tools, raw, mapping, importId).value, tools, raw, mapping, importId)
  {
    forall t: Target
      ensures At(ValuesOf(raw, mapping), t) == Said(raw, mapping, t) == Trim(Said(raw, mapping, t))
      ensures Blank(Said(raw, mapping, t)) <==> Said(raw, mapping, t) == ""
    {
      SaidIsTrimmed(raw, mapping, t);
    }
    PhoneIsJudged(Said(raw, mapping, Phone));
    ConsentOfSays(tools.cleanHeader(Said(raw, mapping, ConsentStatus)));
  }

  /** Without a column for consent nobody has opted in or out. */
  lemma NoColumnNoConsent(tools: Tools, raw: map<string, string>, mapping: seq<Column>, importId: string)
    requires Prepare(tools, raw, mapping, importId).Usable? && tools.cleanHeader("") == ""
    requires forall i :: 0 <= i < |mapping| ==> mapping[i].target != Some(ConsentStatus)
    ensures Prepare(tools, raw, mapping, importId).value.consent == Unknown
  {
    NoColumn(mapping, ConsentStatus);
    UsableSaysItsCells(tools, raw, mapping, importId);
    EmptyIsUnknown(Prepare(tools, raw, mapping, importId).value.consent);
  }

  lemma EmptyIsUnknown(consent: Consent)
    requires ConsentSays(consent, "")
    ensures consent == Unknown
  {
  }

  lemma {:induction false} NoColumn(mapping: seq<Column>, t: Target)
    requires forall i :: 0 <= i < |mapping| ==> mapping[i].target != Some(t)
    ensures LastColumn(mapping, t) == None
  {
    if mapping != [] { NoColumn(mapping[..|mapping| - 1], t); }
  }

  // ----- A mapped file -----

  /** A row of a mapped file is its staged row, marked with what it was prepared to and its verdict. */
  lemma RowIs(s: Setup, before: Rows, id: nat) returns (i: nat)
    requires s.take > 0 && id in before
    ensures i < |IdOrder(before)| && IdOrder(before)[i] == id && id in MappedRows(s, before)
    ensures var item := Prepare(s.tools, before[id].raw, s.mapping, s.importId);
      && Items(s, before, IdOrder(before))[i] == item
      && MappedRows(s, before)[id] == Mark(before[id], item, MappingVerdicts(s, before)[i])
      && (MappingVerdicts(s, before)[i].Malformed? <==> item.Unusable?)
  {
    MappedRowsAreMarked(s, before);
    var ids := IdOrder(before);
    i :| 0 <= i < |ids| && ids[i] == id;
    MarkedAt(before, MappedRows(s, before), ids, Items(s, before, ids), MappingVerdicts(s, before), i);
    MappingIsSoundAndMaximal(Items(s, before, ids), s.contacts, s.take);
  }

  /** What mapping makes of a row by itself, whatever the other rows and the contacts are. */
  ghost predicate ReadRight(row: ImportRow, staged: ImportRow, s: Setup) {
    var raw, mapping := staged.raw, s.mapping;
    && row.number == staged.number && row.raw == staged.raw && row.contactId == staged.contactId
    && (row.status == Invalid <==> !Faultless(s.tools, raw, mapping))
    && (row.status == Invalid ==> exists note :: row.notes == [note] && FirstFault(s.tools, raw, mapping, note))
    && (row.normalized.Some? <==> Faultless(s.tools, raw, mapping))
    && (row.normalized.Some? ==> SaysItsCells(row.normalized.value, s.tools, raw, mapping, s.importId))
    && (row.dedupeKey.Some? <==> Faultless(s.tools, raw, mapping))
    && (row.dedupeKey.Some? ==> row.dedupeKey.value == FirstKey(raw, mapping))
  }

  /** A row is known by its Zalo id, or else by its phone. */
  function FirstKey(raw: map<string, string>, mapping: seq<Column>): Key {
    if Said(raw, mapping, PlatformUserId) != "" then ZaloKey(Said(raw, mapping, PlatformUserId))
    else PhoneKey("+" + International(Digits(Said(raw, mapping, Phone))))
  }

  lemma FirstOfKeys(value: NormalizedRow, tools: Tools, raw: map<string, string>, mapping: seq<Column>,
                    importId: string)
    requires SaysItsCells(value, tools, raw, mapping, importId) && KeysOf(value) != []
    ensures KeysOf(value)[0] == FirstKey(raw, mapping)
  {
  }

  lemma MarkReadsRight(staged: ImportRow, s: Setup, v: Verdict)
    requires v.Malformed? <==> Prepare(s.tools, staged.raw, s.mapping, s.importId).Unusable?
    ensures ReadRight(Mark(staged, Prepare(s.tools, staged.raw, s.mapping, s.importId), v), staged, s)
  {
    var item := Prepare(s.tools, staged.raw, s.mapping, s.importId);
    if item.Unusable? {
      RefusedIff(s.tools, staged.raw, s.mapping, s.importId, item.note);
      assert Mark(staged, item, v).notes == [item.note];
    } else {
      RefusedIff(s.tools, staged.raw, s.mapping, s.importId, MissingName);
      UsableSaysItsCells(s.tools, staged.raw, s.mapping, s.importId);
      PreparedRowsHaveKeys(s.tools, staged.raw, s.mapping, s.importId);
      FirstOfKeys(item.value, s.tools, staged.raw, s.mapping, s.importId);
    }
  }

  /** After mapping, the INVALID rows are those with a fault, and every other row says what its cells say. */
  lemma MappedRowsReadRight(s: Setup, before: Rows, id: nat)
    requires s.take > 0 && id in before
    ensures id in MappedRows(s, before) && ReadRight(MappedRows(s, before)[id], before[id], s)
  {
    var i := RowIs(s, before, id);
    MarkReadsRight(before[id], s, MappingVerdicts(s, before)[i]);
  }

  ghost predicate SharesKey(a: ImportRow, b: ImportRow) {
    a.normalized.Some? && b.normalized.Some? && !(KeySet(a.normalized.value) !! KeySet(b.normalized.value))
  }

  ghost predicate SharesLiveKey(a: ImportRow, contacts: Contacts) {
    a.normalized.Some? && !(KeySet(a.normalized.value) !! LiveKeys(contacts))
  }

  /** A VALID row that comes before it shares a key with the row. */
  ghost predicate Repeats(rows: Rows, id: nat)
    requires id in rows
  {
    exists q :: q in rows && q < id && rows[q].status == Valid && SharesKey(rows[q], rows[id])
  }

  /** How a row is judged against the contacts and the rows before it. */
  ghost predicate JudgedRight(rows: Rows, id: nat, contacts: Contacts)
    requires id in rows
  {
    var row := rows[id];
    && (row.status == Valid && row.notes == [] <==>
          row.normalized.Some? && !SharesLiveKey(row, contacts) && !Repeats(rows, id))
    && (row.status == Duplicate && row.notes == [AlreadyInContacts] <==> SharesLiveKey(row, contacts))
    && (row.status == Duplicate && row.notes == [RepeatedInFile] <==>
          row.normalized.Some? && !SharesLiveKey(row, contacts) && Repeats(rows, id))
  }

  lemma OrderIsById(before: Rows, i: nat, j: nat)
    requires i < |before| && j < |before|
    ensures i < j <==> IdOrder(before)[i] < IdOrder(before)[j]
  {
    var ids, key := IdOrder(before), ById(before);
    OrderIsOrdered(before.Keys, key);
    assert i < j ==> key[ids[i]] < key[ids[j]];
    assert j < i ==> key[ids[j]] < key[ids[i]];
  }

  /** A VALID row repeats no row before it. */
  lemma ValidRepeatsNone(s: Setup, before: Rows, id: nat)
    requires s.take > 0 && id in before && id in MappedRows(s, before) && MappedRows(s, before)[id].status == Valid
    ensures !Repeats(MappedRows(s, before), id)
  {
    var rows := MappedRows(s, before);
    var i := RowIs(s, before, id);
    MappedRowsAreMarked(s, before);
    MappingIsSoundAndMaximal(Items(s, before, IdOrder(before)), s.contacts, s.take);
    forall q | q in rows && q < id && rows[q].status == Valid ensures !SharesKey(rows[q], rows[id]) {
      assert q in rows.Keys;
      var j := RowIs(s, before, q);
      OrderIsById(before, j, i);
      ApartAt(Items(s, before, IdOrder(before)), MappingVerdicts(s, before), j, i);
    }
  }

  /** A row taken for a repetition does repeat a VALID row before it. */
  lemma RepeatedRepeats(s: Setup, before: Rows, id: nat, i: nat)
    requires s.take > 0 && Stageable(before) && ForeignIdsShadowed(s.contacts)
    requires id in before && i < |before| && IdOrder(before)[i] == id && MappingVerdicts(s, before)[i].Repeated?
    requires id in MappedRows(s, before) && MappedRows(s, before)[id].normalized.Some?
    requires Items(s, before, IdOrder(before))[i].Usable?
    requires Items(s, before, IdOrder(before))[i].value == MappedRows(s, before)[id].normalized.value
    ensures Repeats(MappedRows(s, before), id)
  {
    var rows, ids := MappedRows(s, before), IdOrder(before);
    var items, vs := Items(s, before, ids), MappingVerdicts(s, before);
    DuplicatesJustified(s, before);
    var j :| 0 <= j < i && vs[j].Fresh? && items[j].Usable? && !(KeySet(items[j].value) !! KeySet(items[i].value));
    MappedRowsAreMarked(s, before);
    MarkedAt(before, rows, ids, items, vs, j);
    OrderIsById(before, j, i);
    assert SharesKey(rows[ids[j]], rows[id]);
  }

  /**
   On a staged file, and where batches agree with the one-row rule: a row without a fault is a DUPLICATE of a
   contact exactly if it shares a key with a live one, a DUPLICATE within the file exactly if it shares none but
   shares one with a VALID row before it, and VALID otherwise.
  */
  lemma MappedRowsJudgedRight(s: Setup, before: Rows, id: nat)
    requires s.take > 0 && Stageable(before) && ForeignIdsShadowed(s.contacts) && id in before
    ensures id in MappedRows(s, before) && JudgedRight(MappedRows(s, before), id, s.contacts)
  {
    var rows, ids := MappedRows(s, before), IdOrder(before);
    var items, vs := Items(s, before, ids), MappingVerdicts(s, before);
    var i := RowIs(s, before, id);
    DuplicatesJustified(s, before);
    match vs[i]
    case Fresh => ValidRepeatsNone(s, before, id);
    case Repeated => RepeatedRepeats(s, before, id, i);
    case Known =>
    case Malformed =>
  }

  // ----- The contacts made from it -----

  lemma JudgedIsNotStarted(s0: State)
    requires WellNumbered(s0.rows) && Judged(s0.rows) && s0.made == [] && s0.attempt.None?
    ensures NotStarted(s0)
  {
  }

  lemma MappedStartsFresh(s: Setup, before: Rows, skipped: nat)
    requires s.take > 0 && WellNumbered(before)
    ensures NotStarted(QueuedImport(s, before, skipped))
  {
    MappedKeepsNumbers(s, before);
    MappingPromises(s, before);
    JudgedIsNotStarted(QueuedImport(s, before, skipped));
  }

  ghost predicate MadeFromCells(c: Contact, staged: ImportRow, s: Setup) {
    var raw, mapping, tools := staged.raw, s.mapping, s.tools;
    && Faultless(tools, raw, mapping) && c.platform.Zalo? && !c.archived && c.proof == Some(staged.number)
    && c.displayName == Said(raw, mapping, DisplayName)
    && Tells(c.platformUserId, Said(raw, mapping, PlatformUserId)) && Tells(c.phone, Said(raw, mapping, Phone))
    && ConsentSays(c.consent, tools.cleanHeader(Said(raw, mapping, ConsentStatus)))
    && (c.suppressed <==>
          tools.cleanHeader(Said(raw, mapping, ConsentStatus)) in {"optedout", "no", "false", "0", "tuchoi"})
  }

  lemma FaithfulToCells(c: Contact, row: ImportRow, staged: ImportRow, s: Setup)
    requires Faithful(c, row) && ReadRight(row, staged, s)
    ensures MadeFromCells(c, staged, s)
  {
  }

  /**
   From the file to the contacts: whatever attempts are cut and retried, every contact an import makes was made
   from a row without a fault and holds what that row's cells say; it is opted in, or opted out and suppressed,
   only if they say so in so many words.
  */
  lemma ContactsSayTheirCells(s: Setup, before: Rows, skipped: nat, es: seq<Event>, i: nat)
    requires s.take > 0 && WellNumbered(before)
    requires forall k :: 0 <= k < |es| ==> !es[k].Outside?
    requires i < |Run(QueuedImport(s, before, skipped), es).made|
    ensures var t := Run(QueuedImport(s, before, skipped), es); var m := t.made[i];
      && m.row in before && m.contact in t.contacts && m.contact !in s.contacts
      && MadeFromCells(t.contacts[m.contact], before[m.row], s)
  {
    var s0 := QueuedImport(s, before, skipped);
    MappedStartsFresh(s, before, skipped);
    MappedRowsAreMarked(s, before);
    ReachableInv(s0, es);
    AttemptsOnlyAdd(s0, es);
    var t := Run(s0, es);
    var m := t.made[i];
    assert MadeFaithfully(s0.contacts, t.rows, t.contacts, m);
    assert m.row in s0.rows.Keys && m.row in before;
    MappedRowsReadRight(s, before, m.row);
    FaithfulToMapped(t.contacts[m.contact], t.rows[m.row], s0.rows[m.row]);
    FaithfulToCells(t.contacts[m.contact], s0.rows[m.row], before[m.row], s);
  }

  lemma FaithfulToMapped(c: Contact, row: ImportRow, mapped: ImportRow)
    requires Faithful(c, row) && row.number == mapped.number && row.normalized == mapped.normalized
    ensures Faithful(c, mapped)
  {
  }
}
