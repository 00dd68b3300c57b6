/** The rows, contacts and job record of a contact import, and what one raw row means. */
module ImportModel {
  import opened Options
  import opened Text
  import opened PhoneNumbers

  datatype Platform = Zalo | Facebook | TikTok

  datatype Consent = Unknown | OptedIn | OptedOut

  datatype Target = DisplayName | Phone | PlatformUserId | Username | Email | Gender | Source | ConsentStatus

  /** A column and where it goes; None is the source's IGNORE. */
  datatype Column = Column(name: string, target: Option<Target>)

  /** Why a row is not VALID, or what the commit recorded about it. */
  datatype Note =
    | MissingName | BadPhone | MissingIdentity | BadEmail
    | AlreadyInContacts | RepeatedInFile
    | AppearedAfterPreview | CreateFailed

  datatype NormalizedRow = NormalizedRow(
    displayName: string,
    phone: Option<string>,
    normalizedPhone: Option<string>,
    platformUserId: Option<string>,
    username: Option<string>,
    email: Option<string>,
    gender: Option<string>,
    source: string,
    consent: Consent
  )

  datatype RowStatus = Pending | Valid | Invalid | Duplicate | Imported | Skipped | Failed

  /** The two kinds of dedupe key, "zalo:..." and "phone:...". */
  datatype Key = ZaloKey(id: string) | PhoneKey(number: string)

  datatype ImportRow = ImportRow(
    number: nat,
    raw: map<string, string>,
    normalized: Option<NormalizedRow>,
    status: RowStatus,
    notes: seq<Note>,
    dedupeKey: Option<Key>,
    contactId: Option<nat>
  )

  /** A contact of the workspace; `proof` is the import row number its first consent record names. */
  datatype Contact = Contact(
    platform: Platform,
    platformUserId: Option<string>,
    displayName: string,
    phone: Option<string>,
    normalizedPhone: Option<string>,
    username: Option<string>,
    email: Option<string>,
    gender: Option<string>,
    source: string,
    consent: Consent,
    suppressed: bool,
    archived: bool,
    proof: Option<nat>
  )

  datatype JobStatus = Uploaded | Mapping | Ready | Queued | Processing | Completed | Partial | JobFailed | Cancelled

  type Rows = map<nat, ImportRow>
  type Contacts = map<nat, Contact>

  /** A nullable text the source tests for truth: absent and empty count alike. */
  predicate Present(text: Option<string>) {
    text.Some? && text.value != ""
  }

  function NonEmpty(text: string): Option<string> {
    if text == "" then None else Some(text)
  }

  // ----- One raw row -----

  /** Library text functions the model takes as given: lower-casing, and cleaning a header. */
  datatype Tools = Tools(lower: string -> string, cleanHeader: string -> string)

  datatype Prepared = Usable(value: NormalizedRow) | Unusable(note: Note)

  /** The last column sent to `target`; later columns overwrite earlier ones. */
  function LastColumn(mapping: seq<Column>, target: Target): Option<string> {
    if mapping == [] then None
    else if mapping[|mapping| - 1].target == Some(target) then Some(mapping[|mapping| - 1].name)
    else LastColumn(mapping[..|mapping| - 1], target)
  }

  function Cell(raw: map<string, string>, column: string): string {
    if column in raw then Trim(raw[column]) else ""
  }

  function ValuesOf(raw: map<string, string>, mapping: seq<Column>): map<Target, string> {
    map t: Target | LastColumn(mapping, t).Some? :: Cell(raw, LastColumn(mapping, t).value)
  }

  /** The loop of normalizeRow that fills its local record. */
  method FillValues(raw: map<string, string>, mapping: seq<Column>) returns (values: map<Target, string>)
    ensures values == ValuesOf(raw, mapping)
  {
    values := map[];
    for i := 0 to |mapping|
      invariant values == ValuesOf(raw, mapping[..i])
    {
      assert mapping[..i + 1][..i] == mapping[..i];
      forall t ensures LastColumn(mapping[..i + 1], t) ==
        if mapping[i].target == Some(t) then Some(mapping[i].name) else LastColumn(mapping[..i], t)
      {
      }
      if mapping[i].target.Some? {
        values := values[mapping[i].target.value := Cell(raw, mapping[i].name)];
      }
    }
    assert mapping[..|mapping|] == mapping;
  }

  /** One "@" with text before it, and after it a dot with text on both sides; no white space. */
  predicate PlausibleEmail(s: string) {
    exists i, j :: 0 < i && i + 1 < j < |s| - 1 && s[i] == '@' && s[j] == '.'
      && forall k :: 0 <= k < |s| && k != i ==> s[k] != '@' && !IsSpace(s[k])
  }

  function At(values: map<Target, string>, target: Target): string {
    if target in values then values[target] else ""
  }

  function ConsentOf(cleaned: string): Consent {
    if cleaned in ["optedin", "yes", "true", "1", "dongy", "consent"] then OptedIn
    else if cleaned in ["optedout", "no", "false", "0", "tuchoi"] then OptedOut
    else Unknown
  }

  /** normalizeRow after its loop. */
  function FromValues(tools: Tools, values: map<Target, string>, importId: string): Prepared {
    var displayName := Trim(At(values, DisplayName));
    var phone := ByImportEngine(At(values, Phone));
    var userId := Trim(At(values, PlatformUserId));
    var email := tools.lower(Trim(At(values, Email)));
    if displayName == "" then Unusable(MissingName)
    else if phone.Rejected? then Unusable(BadPhone)
    else if phone.Absent? && userId == "" then Unusable(MissingIdentity)
    else if email != "" && !PlausibleEmail(email) then Unusable(BadEmail)
    else
      Usable(NormalizedRow(
        displayName,
        NonEmpty(At(values, Phone)),
        if phone.Number? then Some(phone.text) else None,
        NonEmpty(userId),
        NonEmpty(At(values, Username)),
        NonEmpty(email),
        NonEmpty(At(values, Gender)),
        if At(values, Source) != "" then At(values, Source) else "IMPORT:" + importId,
        ConsentOf(tools.cleanHeader(At(values, ConsentStatus)))))
  }

  function Prepare(tools: Tools, raw: map<string, string>, mapping: seq<Column>, importId: string): Prepared {
    FromValues(tools, ValuesOf(raw, mapping), importId)
  }

  /** Columns that are ignored, or overtaken by a later column, make no difference. */
  lemma OnlyMappedColumnsMatter(tools: Tools, raw: map<string, string>, other: map<string, string>,
                                mapping: seq<Column>, importId: string)
    requires forall t: Target :: LastColumn(mapping, t).Some? ==>
      Cell(raw, LastColumn(mapping, t).value) == Cell(other, LastColumn(mapping, t).value)
    ensures Prepare(tools, raw, mapping, importId) == Prepare(tools, other, mapping, importId)
  {
    assert ValuesOf(raw, mapping) == ValuesOf(other, mapping);
  }

  // ----- Dedupe keys -----

  /** A row's keys, its Zalo id before its phone. */
  function KeysOf(row: NormalizedRow): seq<Key> {
    (if Present(row.platformUserId) then [ZaloKey(row.platformUserId.value)] else [])
    + (if Present(row.normalizedPhone) then [PhoneKey(row.normalizedPhone.value)] else [])
  }

  function KeySet(row: NormalizedRow): set<Key> {
    set k | k in KeysOf(row)
  }

  /** Every row that survives normalisation can be recognised again. */
  lemma PreparedRowsHaveKeys(tools: Tools, raw: map<string, string>, mapping: seq<Column>, importId: string)
    requires Prepare(tools, raw, mapping, importId).Usable?
    ensures KeysOf(Prepare(tools, raw, mapping, importId).value) != []
  {
  }

  // ----- What a file can hold -----

  /** Staging cuts every cell to this length. */
  const MaxCell: nat := 10_000

  predicate ShortCells(raw: map<string, string>) {
    forall c :: c in raw ==> |raw[c]| <= MaxCell
  }

  /** A user id as a row can name it: not empty, trimmed, and no longer than a cell. */
  predicate ReadableId(id: string) {
    id != "" && StartsClean(id) && EndsClean(id) && |id| <= MaxCell
  }

  predicate ReadableKey(k: Key) {
    match k
    case ZaloKey(id) => ReadableId(id)
    case PhoneKey(p) => Canonical(p)
  }

  /** Keys that come from a row are readable. */
  lemma PreparedIsReadable(tools: Tools, raw: map<string, string>, mapping: seq<Column>, importId: string, k: Key)
    requires ShortCells(raw) && Prepare(tools, raw, mapping, importId).Usable?
    requires k in KeySet(Prepare(tools, raw, mapping, importId).value)
    ensures ReadableKey(k)
  {
    var v := ValuesOf(raw, mapping);
    if k.PhoneKey? {
      ResultIsCanonical(At(v, Phone));
    } else {
      var text := At(v, PlatformUserId);
      TrimCleans(text);
      if PlatformUserId in v {
        var c := LastColumn(mapping, PlatformUserId).value;
        if c in raw { TrimCleans(raw[c]); }
      }
    }
  }

  /** A row with a name, a phone and a user id, its columns mapped one to one. */
  function SampleRow(phone: string, userId: string): map<string, string> {
    map["n" := "a", "p" := phone, "u" := userId]
  }

  const SampleMapping: seq<Column> :=
    [Column("n", Some(DisplayName)), Column("p", Some(Phone)), Column("u", Some(PlatformUserId))]

  const PlainTools: Tools := Tools(text => text, text => text)

  lemma SampleColumns(t: Target)
    ensures LastColumn(SampleMapping, t) ==
      if t == DisplayName then Some("n") else if t == Phone then Some("p") else if t == PlatformUserId then Some("u")
        else None
  {
    var m := SampleMapping;
    var two, one := [Column("n", Some(DisplayName)), Column("p", Some(Phone))], [Column("n", Some(DisplayName))];
    assert |m| == 3 && m[..|m| - 1] == two && two[..|two| - 1] == one && one[..|one| - 1] == [];
    assert LastColumn(one, t) == if t == DisplayName then Some("n") else None;
    assert LastColumn(two, t) == if t == Phone then Some("p") else LastColumn(one, t);
    assert LastColumn(m, t) == if t == PlatformUserId then Some("u") else LastColumn(two, t);
  }

  lemma SampleValues(phone: string, userId: string, t: Target)
    requires StartsClean(phone) && EndsClean(phone) && StartsClean(userId) && EndsClean(userId)
    ensures At(ValuesOf(SampleRow(phone, userId), SampleMapping), t) ==
      if t == DisplayName then "a" else if t == Phone then phone else if t == PlatformUserId then userId else ""
  {
    SampleColumns(t);
    TrimCleans(phone);
    TrimCleans(userId);
    TrimCleans("a");
  }

  lemma SampleIsUsable(phone: string, userId: string)
    requires StartsClean(phone) && EndsClean(phone) && StartsClean(userId) && EndsClean(userId)
    requires (phone == "" || ByImportEngine(phone).Number?) && (phone != "" || userId != "")
    ensures var item := Prepare(PlainTools, SampleRow(phone, userId), SampleMapping, "");
      && item.Usable? && item.value.platformUserId == NonEmpty(userId)
      && item.value.normalizedPhone == (if phone == "" then None else Some(ByImportEngine(phone).text))
  {
    SampleValues(phone, userId, DisplayName);
    SampleValues(phone, userId, Phone);
    SampleValues(phone, userId, PlatformUserId);
    SampleValues(phone, userId, Email);
    TrimCleans("a");
    TrimCleans(userId);
    TrimCleans("");
  }

  /** The sample row that has just the given key. */
  function RowWith(k: Key): map<string, string>
    requires ReadableKey(k)
  {
    match k
    case ZaloKey(id) => SampleRow("", id)
    case PhoneKey(p) => SampleRow(WrittenAs(p), "")
  }

  lemma ReadableIsPresent(k: Key)
    requires ReadableKey(k)
    ensures (k.PhoneKey? ==> k.number != "") && (k.ZaloKey? ==> k.id != "")
    ensures ShortCells(RowWith(k))
  {
    if k.PhoneKey? { WrittenAsNormalises(k.number); }
  }

  lemma RowWithPhone(k: Key)
    requires ReadableKey(k) && k.PhoneKey?
    ensures var item := Prepare(PlainTools, RowWith(k), SampleMapping, "");
      item.Usable? && item.value.platformUserId == None && item.value.normalizedPhone == Some(k.number)
  {
    WrittenAsNormalises(k.number);
    SampleIsUsable(WrittenAs(k.number), "");
  }

  lemma RowWithId(k: Key)
    requires ReadableKey(k) && k.ZaloKey?
    ensures var item := Prepare(PlainTools, RowWith(k), SampleMapping, "");
      item.Usable? && item.value.platformUserId == Some(k.id) && item.value.normalizedPhone == None
  {
    ReadableIsPresent(k);
    SampleIsUsable("", k.id);
  }

  lemma RowWithHasKey(k: Key) returns (item: Prepared)
    requires ReadableKey(k)
    ensures item == Prepare(PlainTools, RowWith(k), SampleMapping, "")
    ensures item.Usable? && KeysOf(item.value) == [k] && ShortCells(RowWith(k))
    ensures k.PhoneKey? ==> item.value.normalizedPhone == Some(k.number)
    ensures k.ZaloKey? ==> item.value.platformUserId == Some(k.id)
  {
    item := Prepare(PlainTools, RowWith(k), SampleMapping, "");
    ReadableIsPresent(k);
    if k.PhoneKey? { RowWithPhone(k); } else { RowWithId(k); }
  }

  ghost predicate HasKey(tools: Tools, raw: map<string, string>, mapping: seq<Column>, importId: string, k: Key) {
    var item := Prepare(tools, raw, mapping, importId);
    ShortCells(raw) && item.Usable? && k in KeySet(item.value)
  }

  /** The readable keys are exactly those the rows of files have. */
  lemma KeysOfFilesIff(k: Key)
    ensures ReadableKey(k) <==> exists tools, raw, mapping, importId :: HasKey(tools, raw, mapping, importId, k)
  {
    if ReadableKey(k) {
      var item := RowWithHasKey(k);
      assert HasKey(PlainTools, RowWith(k), SampleMapping, "", k);
    }
    if tools, raw, mapping, importId :| HasKey(tools, raw, mapping, importId, k) {
      PreparedIsReadable(tools, raw, mapping, importId, k);
    }
  }

  /** The keys under which a live contact really is held: its phone, and its id on Zalo. */
  function LiveKeys(contacts: Contacts): set<Key> {
    (set c | c in contacts && !contacts[c].archived && Present(contacts[c].normalizedPhone)
       :: PhoneKey(contacts[c].normalizedPhone.value))
    + (set c | c in contacts && !contacts[c].archived && contacts[c].platform.Zalo?
      && Present(contacts[c].platformUserId)
         :: ZaloKey(contacts[c].platformUserId.value))
  }

  // ----- Proposing a mapping -----

  /** The first target in order that is unused and has the cleaned header among its aliases. */
  function FirstFree(targets: seq<Target>, used: set<Target>, aliases: Target -> set<string>,
                     header: string): (r: Option<Target>)
    ensures r.Some? ==> r.value in targets && r.value !in used && header in aliases(r.value)
    ensures r.None? ==> forall t <- targets :: t in used || header !in aliases(t)
  {
    if targets == [] then None
    else if targets[0] !in used && header in aliases(targets[0]) then Some(targets[0])
    else FirstFree(targets[1..], used, aliases, header)
  }

  ghost predicate TakenBefore(mapping: seq<Column>, i: nat, t: Target)
    requires i <= |mapping|
  {
    exists j :: 0 <= j < i && mapping[j].target == Some(t)
  }

  /** Earlier columns have every target the header names. */
  ghost predicate AllTaken(mapping: seq<Column>, i: nat, targets: seq<Target>, aliases: Target -> set<string>,
                           header: string)
    requires i <= |mapping|
  {
    forall t <- targets :: header in aliases(t) ==> TakenBefore(mapping, i, t)
  }

  /** No two columns share a target. */
  ghost predicate OneColumnEach(mapping: seq<Column>) {
    forall i, j :: 0 <= i < j < |mapping| && mapping[i].target.Some? ==> mapping[i].target != mapping[j].target
  }

  /** autoMapping: every column gets a target its header names, unless earlier columns have taken them all. */
  method AutoMapping(columns: seq<string>, targets: seq<Target>, aliases: Target -> set<string>, tools: Tools)
    returns (mapping: seq<Column>)
    ensures |mapping| == |columns| && OneColumnEach(mapping)
    ensures forall i :: 0 <= i < |columns| ==> mapping[i].name == columns[i]
    ensures forall i :: 0 <= i < |columns| && mapping[i].target.Some? ==>
      mapping[i].target.value in targets && tools.cleanHeader(columns[i]) in aliases(mapping[i].target.value)
    ensures forall i :: 0 <= i < |columns| && mapping[i].target.None? ==>
      AllTaken(mapping, i, targets, aliases, tools.cleanHeader(columns[i]))
  {
    mapping := [];
    var used: set<Target> := {};
    for i := 0 to |columns|
      invariant |mapping| == i && OneColumnEach(mapping)
      invariant forall t :: t in used <==> TakenBefore(mapping, i, t)
      invariant forall j :: 0 <= j < i ==> mapping[j].name == columns[j]
      invariant forall j :: 0 <= j < i && mapping[j].target.Some? ==>
        mapping[j].target.value in targets && tools.cleanHeader(columns[j]) in aliases(mapping[j].target.value)
      invariant forall j :: 0 <= j < i && mapping[j].target.None? ==>
        AllTaken(mapping, j, targets, aliases, tools.cleanHeader(columns[j]))
    {
      var target := FirstFree(targets, used, aliases, tools.cleanHeader(columns[i]));
      ghost var before := mapping;
      mapping := mapping + [Column(columns[i], target)];
      TakenGrows(before, mapping[i]);
      if target.Some? { used := used + {target.value}; }
    }
  }

  lemma TakenGrows(mapping: seq<Column>, c: Column)
    ensures forall t, i :: 0 <= i <= |mapping| ==> TakenBefore(mapping + [c], i, t) == TakenBefore(mapping, i, t)
    ensures forall t ::
      TakenBefore(mapping + [c], |mapping| + 1, t) == (TakenBefore(mapping, |mapping|, t) || c.target == Some(t))
  {
    var m := mapping + [c];
    assert forall j :: 0 <= j < |mapping| ==> m[j] == mapping[j];
    forall t, i | 0 <= i <= |mapping| ensures TakenBefore(m, i, t) == TakenBefore(mapping, i, t) {
      if TakenBefore(mapping, i, t) {
        var j :| 0 <= j < i && mapping[j].target == Some(t);
        assert m[j].target == Some(t);
      }
    }
    forall t ensures TakenBefore(m, |mapping| + 1, t) == (TakenBefore(mapping, |mapping|, t) || c.target == Some(t)) {
      if c.target == Some(t) { assert m[|mapping|].target == Some(t); }
      if TakenBefore(mapping, |mapping|, t) { assert TakenBefore(m, |mapping|, t); }
    }
  }

  /** Under such a mapping each target is read from its one column. */
  lemma {:induction false} OneColumnIsRead(mapping: seq<Column>, i: nat)
    requires OneColumnEach(mapping) && i < |mapping| && mapping[i].target.Some?
    ensures LastColumn(mapping, mapping[i].target.value) == Some(mapping[i].name)
  {
    if i < |mapping| - 1 { OneColumnIsRead(mapping[..|mapping| - 1], i); }
  }
}
