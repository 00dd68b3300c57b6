/** Batched mapping against the one-row-at-a-time rule, on the files that staging can produce. */
module ImportBatching {
  import opened Options
  import opened ImportModel
  import opened Ordering
  import opened ImportMapping

  /** A row table as staging leaves it, as far as the lengths of its cells go. */
  ghost predicate Stageable(rows: Rows) {
    forall id :: id in rows ==> ShortCells(rows[id].raw)
  }

  /** The verdicts of the simple rule: one row at a time in order of id, each against the whole contact table. */
  function SimpleVerdicts(s: Setup, before: Rows): seq<Verdict> {
    Simple(Items(s, before, IdOrder(before)), s.contacts)
  }

  lemma ItemsAreFromFile(s: Setup, before: Rows, ids: seq<nat>)
    requires Stageable(before) && AllIn(ids, before)
    ensures FromFile(Items(s, before, ids))
  {
    var items := Items(s, before, ids);
    forall i, k | 0 <= i < |items| && items[i].Usable? && k in KeySet(items[i].value) ensures ReadableKey(k) {
      PreparedIsReadable(s.tools, before[ids[i]].raw, s.mapping, s.importId, k);
    }
  }

  /** With pages of `take` rows: whatever the file and the mapping of its columns. */
  ghost predicate AgreesOnFiles(contacts: Contacts, take: nat)
    requires take > 0
  {
    forall s: Setup, before: Rows ::
      s.take == take && s.contacts == contacts && Stageable(before) ==>
        MappingVerdicts(s, before) == SimpleVerdicts(s, before)
  }

  // ----- Pages of one row -----

  /** A foreign contact can only be fetched by the row's own phone, which is then a live key of the row. */
  lemma AloneJudgedAlike(item: Prepared, contacts: Contacts, seen: set<Key>)
    ensures Judge(item, FetchedKeys([item], contacts), seen) == Judge(item, LiveKeys(contacts), seen)
  {
    if item.Usable? {
      forall k | k in KeySet(item.value) && k in LiveKeys(contacts) ensures k in FetchedKeys([item], contacts) {
        LookupFindsLiveKeys([item], contacts, 0, k);
      }
      forall k | k in KeySet(item.value) && k in FetchedKeys([item], contacts)
        ensures !(KeySet(item.value) !! LiveKeys(contacts))
      {
        FetchedSharesLiveKey(item, contacts, k);
      }
    }
  }

  lemma FetchedSharesLiveKey(item: Prepared, contacts: Contacts, k: Key)
    requires item.Usable? && k in KeySet(item.value) && k in FetchedKeys([item], contacts)
    ensures !(KeySet(item.value) !! LiveKeys(contacts))
  {
    if k.PhoneKey? {
      FetchedPhonesAreLive([item], contacts, k);
    } else {
      var c :| c in Fetched([item], contacts) && Present(contacts[c].platformUserId)
        && ZaloKey(contacts[c].platformUserId.value) == k;
      if contacts[c].platform.Zalo? {
        assert k in LiveKeys(contacts);
      } else {
        assert item.value.normalizedPhone == contacts[c].normalizedPhone;
        assert PhoneKey(contacts[c].normalizedPhone.value) in KeySet(item.value);
        assert PhoneKey(contacts[c].normalizedPhone.value) in LiveKeys(contacts);
      }
    }
  }

  lemma {:induction false} PagesOfOneAgree(items: seq<Prepared>, contacts: Contacts, seen: set<Key>)
    ensures Batched(items, contacts, 1, seen) == Verdicts(items, LiveKeys(contacts), seen)
  {
    if items != [] {
      var known, v := FetchedKeys([items[0]], contacts), Judge(items[0], LiveKeys(contacts), seen);
      AloneJudgedAlike(items[0], contacts, seen);
      BatchedSteps(items, contacts, 1, seen, [items[0]], items[1..]);
      assert Verdicts([items[0]], known, seen) == [v];
      assert SeenAfter([items[0]], known, seen) == Remember(items[0], v, seen);
      PagesOfOneAgree(items[1..], contacts, Remember(items[0], v, seen));
    }
  }

  // ----- A two-row file whose second row is taken for a duplicate because of the first row's phone -----

  lemma BatchOfTwo(first: Prepared, second: Prepared, contacts: Contacts, take: nat)
    requires take >= 2
    ensures Batched([first, second], contacts, take, {})
         == Verdicts([first, second], FetchedKeys([first, second], contacts), {})
  {
    var items := [first, second];
    assert items[..2] == items && items[2..] == [];
  }

  /** One batch that fetches a foreign contact by phone, and takes its id for a Zalo id. */
  lemma TwoItemsDiffer(first: Prepared, second: Prepared, contacts: Contacts, c: nat, take: nat)
    requires c in contacts && LooseForeignId(contacts, c) && take >= 2
    requires first.Usable? && first.value.normalizedPhone == contacts[c].normalizedPhone
    requires KeysOf(first.value) == [PhoneKey(contacts[c].normalizedPhone.value)]
    requires second.Usable? && KeysOf(second.value) == [ZaloKey(contacts[c].platformUserId.value)]
    ensures Batched([first, second], contacts, take, {})[1] == Known && Simple([first, second], contacts)[1] == Fresh
  {
    var items := [first, second];
    BatchOfTwo(first, second, contacts, take);
    var idKey := ZaloKey(contacts[c].platformUserId.value);
    var phoneKey := PhoneKey(contacts[c].normalizedPhone.value);
    assert KeySet(second.value) == {idKey} && KeySet(first.value) == {phoneKey};
    assert items[0].value.normalizedPhone == contacts[c].normalizedPhone;
    assert c in Fetched(items, contacts);
    assert idKey in FetchedKeys(items, contacts);
    assert phoneKey in LiveKeys(contacts);
    VerdictAt(items, FetchedKeys(items, contacts), {}, 1);
    VerdictAt(items, LiveKeys(contacts), {}, 0);
    VerdictAt(items, LiveKeys(contacts), {}, 1);
    assert items[..0] == [];
  }

  function Unjudged(number: nat, raw: map<string, string>): ImportRow {
    ImportRow(number, raw, None, Pending, [], None, None)
  }

  function TwoRows(a: map<string, string>, b: map<string, string>): Rows {
    map[0 := Unjudged(1, a), 1 := Unjudged(2, b)]
  }

  /** A row that holds just the contact's phone, and a row that holds just its id. */
  function Splitting(contacts: Contacts, c: nat): Rows
    requires c in contacts && LooseForeignId(contacts, c)
  {
    TwoRows(RowWith(PhoneKey(contacts[c].normalizedPhone.value)), RowWith(ZaloKey(contacts[c].platformUserId.value)))
  }

  lemma OrderOfTwo(rows: Rows)
    requires rows.Keys == {0, 1}
    ensures IdOrder(rows) == [0, 1]
  {
    OrderIsUnique([0, 1], rows.Keys, ById(rows));
  }

  lemma TwoRowsItems(s: Setup, a: map<string, string>, b: map<string, string>)
    ensures IdOrder(TwoRows(a, b)) == [0, 1]
    ensures Items(s, TwoRows(a, b), [0, 1])
         == [Prepare(s.tools, a, s.mapping, s.importId), Prepare(s.tools, b, s.mapping, s.importId)]
  {
    OrderOfTwo(TwoRows(a, b));
  }

  /** The page of both rows, under each rule. */
  lemma TwoRowsVerdicts(s: Setup, a: map<string, string>, b: map<string, string>, first: Prepared, second: Prepared)
    requires s.take > 0 && first == Prepare(s.tools, a, s.mapping, s.importId)
    requires second == Prepare(s.tools, b, s.mapping, s.importId)
    ensures MappingVerdicts(s, TwoRows(a, b)) == Batched([first, second], s.contacts, s.take, {})
    ensures SimpleVerdicts(s, TwoRows(a, b)) == Simple([first, second], s.contacts)
  {
    TwoRowsItems(s, a, b);
  }

  /** The two rows, prepared under the sample mapping. */
  lemma SplittingPrepared(contacts: Contacts, c: nat) returns (first: Prepared, second: Prepared)
    requires c in contacts && LooseForeignId(contacts, c)
    ensures Stageable(Splitting(contacts, c)) && first.Usable? && second.Usable?
    ensures first
         == Prepare(PlainTools, RowWith(PhoneKey(contacts[c].normalizedPhone.value)), SampleMapping, "")
    ensures second
         == Prepare(PlainTools, RowWith(ZaloKey(contacts[c].platformUserId.value)), SampleMapping, "")
    ensures first.value.normalizedPhone == contacts[c].normalizedPhone
    ensures KeysOf(first.value) == [PhoneKey(contacts[c].normalizedPhone.value)]
    ensures KeysOf(second.value) == [ZaloKey(contacts[c].platformUserId.value)]
  {
    first := RowWithHasKey(PhoneKey(contacts[c].normalizedPhone.value));
    second := RowWithHasKey(ZaloKey(contacts[c].platformUserId.value));
  }

  /** In any page of two rows or more the second row is a DUPLICATE of a contact; judged on its own it is VALID. */
  lemma ForeignIdSplitsFile(contacts: Contacts, c: nat, take: nat)
    requires c in contacts && LooseForeignId(contacts, c) && take >= 2
    ensures var s := Setup(contacts, PlainTools, SampleMapping, "", take); var before := Splitting(contacts, c);
      && Stageable(before) && |MappingVerdicts(s, before)| == |SimpleVerdicts(s, before)| == 2
      && MappingVerdicts(s, before)[1] == Known && SimpleVerdicts(s, before)[1] == Fresh
  {
    var s := Setup(contacts, PlainTools, SampleMapping, "", take);
    var a := RowWith(PhoneKey(contacts[c].normalizedPhone.value));
    var b := RowWith(ZaloKey(contacts[c].platformUserId.value));
    var first, second := SplittingPrepared(contacts, c);
    TwoRowsVerdicts(s, a, b, first, second);
    TwoItemsDiffer(first, second, contacts, c, take);
  }

  lemma FileAgrees(s: Setup, before: Rows)
    requires s.take > 0 && Stageable(before) && (s.take == 1 || ForeignIdsShadowed(s.contacts))
    ensures MappingVerdicts(s, before) == SimpleVerdicts(s, before)
  {
    var items := Items(s, before, IdOrder(before));
    ItemsAreFromFile(s, before, IdOrder(before));
    if s.take == 1 {
      PagesOfOneAgree(items, s.contacts, {});
    } else {
      BatchingAgrees(items, s.contacts, s.take, {});
    }
  }

  /**
   With pages of a given size, batched mapping gives the verdicts of the simple rule on every file, with every
   mapping of its columns, exactly when the pages hold one row only, or no live contact of another platform
   has both a phone and an id that files can name while no live Zalo contact holds that id.
   */
  lemma BatchingRefinesSimpleIff(contacts: Contacts, take: nat)
    requires take > 0
    ensures AgreesOnFiles(contacts, take) <==> take == 1 || ForeignIdsShadowed(contacts)
  {
    if take == 1 || ForeignIdsShadowed(contacts) {
      forall s: Setup, before: Rows | s.take == take && s.contacts == contacts && Stageable(before)
        ensures MappingVerdicts(s, before) == SimpleVerdicts(s, before)
      {
        FileAgrees(s, before);
      }
    } else {
      var c: nat :| c in contacts && LooseForeignId(contacts, c);
      ForeignIdSplitsFile(contacts, c, take);
    }
  }

  /** On files, then, each DUPLICATE shares a key with a live contact or else with an earlier VALID row. */
  lemma DuplicatesJustified(s: Setup, before: Rows)
    requires s.take > 0 && Stageable(before) && ForeignIdsShadowed(s.contacts)
    ensures Justified(Items(s, before, IdOrder(before)), MappingVerdicts(s, before), LiveKeys(s.contacts), {})
  {
    ItemsAreFromFile(s, before, IdOrder(before));
    MappingIsSoundAndMaximal(Items(s, before, IdOrder(before)), s.contacts, s.take);
  }
}
