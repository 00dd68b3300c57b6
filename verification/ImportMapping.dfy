/**
 Mapping a staged file: every row is normalised and judged VALID, INVALID or DUPLICATE, in batches.
 First the judgement as functions of the prepared rows and the contacts, then the cursor loop.
 */
module ImportMapping {
  import opened Options
  import opened ImportModel
  import opened Ordering

  /** DUPLICATE is split by the note the source attaches to it. */
  datatype Verdict = Fresh | Malformed | Known | Repeated

  function Judge(item: Prepared, known: set<Key>, seen: set<Key>): Verdict {
    if item.Unusable? then Malformed
    else if KeySet(item.value) !! known && KeySet(item.value) !! seen then Fresh
    else if KeySet(item.value) !! known then Repeated
    else Known
  }

  function Remember(item: Prepared, verdict: Verdict, seen: set<Key>): set<Key> {
    if verdict.Fresh? && item.Usable? then seen + KeySet(item.value) else seen
  }

  /** Row after row against a fixed set of known keys, starting from the keys already seen. */
  function Verdicts(items: seq<Prepared>, known: set<Key>, seen: set<Key>): (vs: seq<Verdict>)
    ensures |vs| == |items|
  {
    if items == [] then []
    else
      var v := Judge(items[0], known, seen);
      [v] + Verdicts(items[1..], known, Remember(items[0], v, seen))
  }

  function SeenAfter(items: seq<Prepared>, known: set<Key>, seen: set<Key>): set<Key> {
    if items == [] then seen
    else SeenAfter(items[1..], known, Remember(items[0], Judge(items[0], known, seen), seen))
  }

  /** The simple rule: one row at a time, each against the whole contact table. */
  function Simple(items: seq<Prepared>, contacts: Contacts): seq<Verdict> {
    Verdicts(items, LiveKeys(contacts), {})
  }

  predicate PhoneOccurs(batch: seq<Prepared>, phone: Option<string>) {
    exists i :: 0 <= i < |batch| && batch[i].Usable? && Present(phone) && batch[i].value.normalizedPhone == phone
  }

  predicate IdOccurs(batch: seq<Prepared>, id: Option<string>) {
    exists i :: 0 <= i < |batch| && batch[i].Usable? && Present(id) && batch[i].value.platformUserId == id
  }

  /** The contacts one batch looks up: live, with a phone or a Zalo id that occurs in the batch. */
  function Fetched(batch: seq<Prepared>, contacts: Contacts): set<nat> {
    set c | c in contacts && !contacts[c].archived &&
      (PhoneOccurs(batch, contacts[c].normalizedPhone)
       || (contacts[c].platform.Zalo? && IdOccurs(batch, contacts[c].platformUserId)))
  }

  /** Every key of the fetched contacts; the id of a contact of any platform becomes a Zalo key here. */
  function FetchedKeys(batch: seq<Prepared>, contacts: Contacts): set<Key> {
    (set c | c in Fetched(batch, contacts) && Present(contacts[c].normalizedPhone)
       :: PhoneKey(contacts[c].normalizedPhone.value))
    + (set c | c in Fetched(batch, contacts) && Present(contacts[c].platformUserId)
         :: ZaloKey(contacts[c].platformUserId.value))
  }

  function Min(a: nat, b: nat): nat { if a <= b then a else b }

  function Batched(items: seq<Prepared>, contacts: Contacts, take: nat, seen: set<Key>): (vs: seq<Verdict>)
    requires take > 0
    ensures |vs| == |items|
    decreases |items|
  {
    if items == [] then []
    else
      var batch := items[..Min(take, |items|)];
      var known := FetchedKeys(batch, contacts);
      Verdicts(batch, known, seen) + Batched(items[|batch|..], contacts, take, SeenAfter(batch, known, seen))
  }

  // ----- Batching refines the simple rule where no foreign id can be mistaken for a Zalo id -----

  /**
   A live contact of another platform whose phone and id a file can name, and whose id no live Zalo contact
   holds. Contacts saved by hand may hold ids and phones that no file can name, such as an id with a space
   at its end.
   */
  predicate LooseForeignId(contacts: Contacts, c: nat)
    requires c in contacts
  {
    && !contacts[c].archived && !contacts[c].platform.Zalo?
    && contacts[c].normalizedPhone.Some? && ReadableKey(PhoneKey(contacts[c].normalizedPhone.value))
    && contacts[c].platformUserId.Some? && ReadableKey(ZaloKey(contacts[c].platformUserId.value))
    && ZaloKey(contacts[c].platformUserId.value) !in LiveKeys(contacts)
  }

  predicate ForeignIdsShadowed(contacts: Contacts) {
    forall c :: c in contacts ==> !LooseForeignId(contacts, c)
  }

  /** The simpler premise: live contacts with a platform id are Zalo contacts. */
  predicate IdsAreZalo(contacts: Contacts) {
    forall c :: c in contacts && !contacts[c].archived && Present(contacts[c].platformUserId) ==>
      contacts[c].platform.Zalo?
  }

  lemma IdsAreZaloShadows(contacts: Contacts)
    requires IdsAreZalo(contacts)
    ensures ForeignIdsShadowed(contacts)
  {
  }

  /** Every key of every row is one that files can have. */
  ghost predicate FromFile(items: seq<Prepared>) {
    forall i, k :: 0 <= i < |items| && items[i].Usable? && k in KeySet(items[i].value) ==> ReadableKey(k)
  }

  /** Nothing a live contact holds is missed by the batch lookup. */
  lemma LookupFindsLiveKeys(batch: seq<Prepared>, contacts: Contacts, i: nat, key: Key)
    requires i < |batch| && batch[i].Usable? && key in KeySet(batch[i].value) && key in LiveKeys(contacts)
    ensures key in FetchedKeys(batch, contacts)
  {
    if key.PhoneKey? {
      var c :| c in contacts && !contacts[c].archived && Present(contacts[c].normalizedPhone)
        && PhoneKey(contacts[c].normalizedPhone.value) == key;
      assert c in Fetched(batch, contacts);
    } else {
      var c :| c in contacts && !contacts[c].archived && contacts[c].platform.Zalo?
        && Present(contacts[c].platformUserId)
        && ZaloKey(contacts[c].platformUserId.value) == key;
      assert c in Fetched(batch, contacts);
    }
  }

  lemma FetchedPhonesAreLive(batch: seq<Prepared>, contacts: Contacts, key: Key)
    requires key in FetchedKeys(batch, contacts) && key.PhoneKey?
    ensures key in LiveKeys(contacts)
  {
  }

  lemma OccurringPhoneIsKey(batch: seq<Prepared>, phone: Option<string>)
    requires FromFile(batch) && PhoneOccurs(batch, phone)
    ensures phone.Some? && ReadableKey(PhoneKey(phone.value))
  {
    var i :| 0 <= i < |batch| && batch[i].Usable? && Present(phone) && batch[i].value.normalizedPhone == phone;
    assert PhoneKey(phone.value) in KeysOf(batch[i].value);
    assert PhoneKey(phone.value) in KeySet(batch[i].value);
  }

  lemma FetchedIdsAreLive(batch: seq<Prepared>, contacts: Contacts, key: Key)
    requires key in FetchedKeys(batch, contacts) && key.ZaloKey? && ForeignIdsShadowed(contacts)
    requires FromFile(batch) && ReadableKey(key)
    ensures key in LiveKeys(contacts)
  {
    var c :| c in Fetched(batch, contacts) && Present(contacts[c].platformUserId)
      && ZaloKey(contacts[c].platformUserId.value) == key;
    if !contacts[c].platform.Zalo? {
      OccurringPhoneIsKey(batch, contacts[c].normalizedPhone);
      assert !LooseForeignId(contacts, c);
    }
  }

  lemma {:induction false} SameKnownSameVerdicts(items: seq<Prepared>, known: set<Key>, other: set<Key>, seen: set<Key>)
    requires forall i, k :: 0 <= i < |items| && items[i].Usable? && k in KeySet(items[i].value) ==>
      (k in known <==> k in other)
    ensures Verdicts(items, known, seen) == Verdicts(items, other, seen)
    ensures SeenAfter(items, known, seen) == SeenAfter(items, other, seen)
  {
    if items != [] {
      assert Judge(items[0], known, seen) == Judge(items[0], other, seen);
      SameKnownSameVerdicts(items[1..], known, other, Remember(items[0], Judge(items[0], known, seen), seen));
    }
  }

  lemma FirstOfConcat(a: seq<Prepared>, b: seq<Prepared>)
    requires a != []
    ensures (a + b)[0] == a[0] && (a + b)[1..] == a[1..] + b
  {
  }

  lemma {:induction false} VerdictsConcat(a: seq<Prepared>, b: seq<Prepared>, known: set<Key>, seen: set<Key>)
    ensures Verdicts(a + b, known, seen) == Verdicts(a, known, seen) + Verdicts(b, known, SeenAfter(a, known, seen))
    ensures SeenAfter(a + b, known, seen) == SeenAfter(b, known, SeenAfter(a, known, seen))
  {
    if a == [] {
      assert a + b == b;
    } else {
      FirstOfConcat(a, b);
      VerdictsConcat(a[1..], b, known, Remember(a[0], Judge(a[0], known, seen), seen));
    }
  }

  lemma VerdictsSplit(items: seq<Prepared>, k: nat, known: set<Key>, seen: set<Key>)
    requires k <= |items|
    ensures Verdicts(items, known, seen)
         == Verdicts(items[..k], known, seen) + Verdicts(items[k..], known, SeenAfter(items[..k], known, seen))
    ensures SeenAfter(items, known, seen) == SeenAfter(items[k..], known, SeenAfter(items[..k], known, seen))
  {
    VerdictsConcat(items[..k], items[k..], known, seen);
    assert items[..k] + items[k..] == items;
  }

  lemma {:induction false} BatchingAgrees(items: seq<Prepared>, contacts: Contacts, take: nat, seen: set<Key>)
    requires take > 0 && ForeignIdsShadowed(contacts) && FromFile(items)
    ensures Batched(items, contacts, take, seen) == Verdicts(items, LiveKeys(contacts), seen)
    decreases |items|
  {
    if items != [] {
      var batch := items[..Min(take, |items|)];
      var known := FetchedKeys(batch, contacts);
      forall i, k | 0 <= i < |batch| && batch[i].Usable? && k in KeySet(batch[i].value)
        ensures k in known <==> k in LiveKeys(contacts)
      {
        if k in LiveKeys(contacts) { LookupFindsLiveKeys(batch, contacts, i, k); }
        if k in known {
          if k.PhoneKey? { FetchedPhonesAreLive(batch, contacts, k); } else { FetchedIdsAreLive(batch, contacts, k); }
        }
      }
      SameKnownSameVerdicts(batch, known, LiveKeys(contacts), seen);
      BatchingAgrees(items[|batch|..], contacts, take, SeenAfter(batch, known, seen));
      VerdictsSplit(items, |batch|, LiveKeys(contacts), seen);
    }
  }

  // ----- What the verdicts promise -----

  /** The keys of fresh rows are new: apart from `seen`, and pairwise apart. */
  ghost predicate FreshApart(items: seq<Prepared>, vs: seq<Verdict>, seen: set<Key>)
    requires |items| == |vs|
  {
    && (forall i :: 0 <= i < |vs| && vs[i].Fresh? ==> items[i].Usable? && KeySet(items[i].value) !! seen)
    && (forall i, j :: 0 <= i < j < |vs| && vs[i].Fresh? && vs[j].Fresh? && items[i].Usable? && items[j].Usable? ==>
          KeySet(items[i].value) !! KeySet(items[j].value))
  }

  /** Each rejection has its reason: a key already known, or else one already seen or on an earlier fresh row. */
  ghost predicate Justified(items: seq<Prepared>, vs: seq<Verdict>, known: set<Key>, seen: set<Key>)
    requires |items| == |vs|
  {
    && (forall i :: 0 <= i < |vs| ==> (vs[i].Malformed? <==> items[i].Unusable?))
    && (forall i :: 0 <= i < |vs| && vs[i].Fresh? && items[i].Usable? ==> KeySet(items[i].value) !! known)
    && (forall i :: 0 <= i < |vs| && vs[i].Known? && items[i].Usable? ==> !(KeySet(items[i].value) !! known))
    && (forall i :: 0 <= i < |vs| && vs[i].Repeated? && items[i].Usable? ==> KeySet(items[i].value) !! known)
    && (forall i :: 0 <= i < |vs| && vs[i].Repeated? && items[i].Usable? ==>
          (!(KeySet(items[i].value) !! seen)
           || exists j ::
                0 <= j < i && vs[j].Fresh? && items[j].Usable? && !(KeySet(items[j].value) !! KeySet(items[i].value))))
  }

  lemma VerdictAt(items: seq<Prepared>, known: set<Key>, seen: set<Key>, i: nat)
    requires i < |items|
    ensures Verdicts(items, known, seen)[i] == Judge(items[i], known, SeenAfter(items[..i], known, seen))
    ensures SeenAfter(items[..i + 1], known, seen)
         == Remember(items[i], Verdicts(items, known, seen)[i], SeenAfter(items[..i], known, seen))
  {
    VerdictsSplit(items, i, known, seen);
    VerdictsSplit(items[..i + 1], i, known, seen);
    assert items[..i + 1][..i] == items[..i] && items[..i + 1][i..] == [items[i]];
    assert items[i..][0] == items[i] && [items[i]][1..] == [];
  }

  /** A fresh row before `i` has the key. */
  ghost predicate FreshlySeen(items: seq<Prepared>, vs: seq<Verdict>, i: nat, k: Key)
    requires i <= |items| == |vs|
  {
    exists j :: 0 <= j < i && vs[j].Fresh? && items[j].Usable? && k in KeySet(items[j].value)
  }

  lemma FreshlySeenGrows(items: seq<Prepared>, vs: seq<Verdict>, i: nat, k: Key)
    requires i < |items| == |vs|
    ensures FreshlySeen(items, vs, i + 1, k) <==>
      FreshlySeen(items, vs, i, k) || (vs[i].Fresh? && items[i].Usable? && k in KeySet(items[i].value))
  {
  }

  /** What has been seen before row `i`: the keys seen at the start and those of the fresh rows before it. */
  lemma {:induction false} SeenIs(items: seq<Prepared>, known: set<Key>, seen: set<Key>, i: nat, k: Key)
    requires i <= |items|
    ensures k in SeenAfter(items[..i], known, seen) <==>
      (k in seen || FreshlySeen(items, Verdicts(items, known, seen), i, k))
  {
    if i == 0 {
      assert items[..0] == [];
    } else {
      SeenIs(items, known, seen, i - 1, k);
      VerdictAt(items, known, seen, i - 1);
      FreshlySeenGrows(items, Verdicts(items, known, seen), i - 1, k);
    }
  }

  lemma VerdictsFreshApart(items: seq<Prepared>, known: set<Key>, seen: set<Key>)
    ensures FreshApart(items, Verdicts(items, known, seen), seen)
  {
    var vs := Verdicts(items, known, seen);
    forall i | 0 <= i < |vs| && vs[i].Fresh? ensures items[i].Usable? && KeySet(items[i].value) !! seen {
      VerdictAt(items, known, seen, i);
      forall k | k in KeySet(items[i].value) ensures k !in seen { SeenIs(items, known, seen, i, k); }
    }
    forall i, j | 0 <= i < j < |vs| && vs[i].Fresh? && vs[j].Fresh? && items[i].Usable? && items[j].Usable?
      ensures KeySet(items[i].value) !! KeySet(items[j].value)
    {
      VerdictAt(items, known, seen, j);
      forall k | k in KeySet(items[i].value) ensures k !in KeySet(items[j].value) { SeenIs(items, known, seen, j, k); }
    }
  }

  lemma VerdictsJustified(items: seq<Prepared>, known: set<Key>, seen: set<Key>)
    ensures Justified(items, Verdicts(items, known, seen), known, seen)
  {
    var vs := Verdicts(items, known, seen);
    forall i | 0 <= i < |vs| ensures vs[i] == Judge(items[i], known, SeenAfter(items[..i], known, seen)) {
      VerdictAt(items, known, seen, i);
    }
    forall i | 0 <= i < |vs| && vs[i].Repeated? && items[i].Usable? && KeySet(items[i].value) !! seen
      ensures exists j ::
        0 <= j < i && vs[j].Fresh? && items[j].Usable? && !(KeySet(items[j].value) !! KeySet(items[i].value))
    {
      var before := SeenAfter(items[..i], known, seen);
      var k :| k in KeySet(items[i].value) && k in before;
      SeenIs(items, known, seen, i, k);
      var j :| 0 <= j < i && vs[j].Fresh? && items[j].Usable? && k in KeySet(items[j].value);
      assert !(KeySet(items[j].value) !! KeySet(items[i].value));
    }
  }

  lemma VerdictsSound(items: seq<Prepared>, known: set<Key>, seen: set<Key>)
    ensures FreshApart(items, Verdicts(items, known, seen), seen)
    ensures Justified(items, Verdicts(items, known, seen), known, seen)
    ensures var vs := Verdicts(items, known, seen); var after := SeenAfter(items, known, seen);
      seen <= after && forall i :: 0 <= i < |vs| && vs[i].Fresh? && items[i].Usable? ==> KeySet(items[i].value) <= after
  {
    VerdictsFreshApart(items, known, seen);
    VerdictsJustified(items, known, seen);
    assert items[..|items|] == items;
    forall k: Key ensures k in SeenAfter(items, known, seen) <==>
      (k in seen || FreshlySeen(items, Verdicts(items, known, seen), |items|, k))
    {
      SeenIs(items, known, seen, |items|, k);
    }
  }

  lemma BatchFreshIsNotLive(batch: seq<Prepared>, contacts: Contacts, seen: set<Key>)
    ensures var vs := Verdicts(batch, FetchedKeys(batch, contacts), seen);
      forall i :: 0 <= i < |vs| && vs[i].Fresh? && batch[i].Usable? ==> KeySet(batch[i].value) !! LiveKeys(contacts)
  {
    var known := FetchedKeys(batch, contacts);
    VerdictsJustified(batch, known, seen);
    forall i, k | 0 <= i < |batch| && Verdicts(batch, known, seen)[i].Fresh? && batch[i].Usable?
      && k in KeySet(batch[i].value)
      ensures k !in LiveKeys(contacts)
    {
      if k in LiveKeys(contacts) { LookupFindsLiveKeys(batch, contacts, i, k); }
    }
  }

  /** Fresh rows of two stretches stay apart when the second starts from what the first has seen. */
  lemma FreshConcat(a: seq<Prepared>, va: seq<Verdict>, b: seq<Prepared>, vb: seq<Verdict>, seen: set<Key>,
                    after: set<Key>)
    requires |a| == |va| && |b| == |vb| && FreshApart(a, va, seen) && FreshApart(b, vb, after) && seen <= after
    requires forall i :: 0 <= i < |va| && va[i].Fresh? && a[i].Usable? ==> KeySet(a[i].value) <= after
    ensures FreshApart(a + b, va + vb, seen)
  {
    var items, vs := a + b, va + vb;
    assert forall i :: 0 <= i < |va| ==> items[i] == a[i] && vs[i] == va[i];
    assert forall i :: |va| <= i < |vs| ==> items[i] == b[i - |va|] && vs[i] == vb[i - |va|];
    forall i, j | 0 <= i < j < |vs| && vs[i].Fresh? && vs[j].Fresh? && items[i].Usable? && items[j].Usable?
      ensures KeySet(items[i].value) !! KeySet(items[j].value)
    {
      if j < |va| {
        assert va[i].Fresh? && va[j].Fresh?;
      } else if i < |va| {
        FreshBeside(b, vb, after, j - |va|);
      } else {
        assert vb[i - |va|].Fresh? && vb[j - |va|].Fresh?;
      }
    }
  }

  lemma FreshBeside(b: seq<Prepared>, vb: seq<Verdict>, after: set<Key>, j: nat)
    requires |b| == |vb| && FreshApart(b, vb, after) && j < |vb| && vb[j].Fresh?
    ensures b[j].Usable? && KeySet(b[j].value) !! after
  {
  }

  ghost predicate MalformedRight(items: seq<Prepared>, vs: seq<Verdict>)
    requires |items| == |vs|
  {
    forall i :: 0 <= i < |vs| ==> (vs[i].Malformed? <==> items[i].Unusable?)
  }

  ghost predicate FreshNotLive(items: seq<Prepared>, vs: seq<Verdict>, contacts: Contacts)
    requires |items| == |vs|
  {
    forall i :: 0 <= i < |vs| && vs[i].Fresh? && items[i].Usable? ==> KeySet(items[i].value) !! LiveKeys(contacts)
  }

  lemma RightConcat(a: seq<Prepared>, va: seq<Verdict>, b: seq<Prepared>, vb: seq<Verdict>, contacts: Contacts)
    requires |a| == |va| && |b| == |vb|
    requires MalformedRight(a, va) && MalformedRight(b, vb) && FreshNotLive(a, va, contacts)
    requires FreshNotLive(b, vb, contacts)
    ensures MalformedRight(a + b, va + vb) && FreshNotLive(a + b, va + vb, contacts)
  {
    var items, vs := a + b, va + vb;
    assert forall i :: 0 <= i < |va| ==> items[i] == a[i] && vs[i] == va[i];
    assert forall i :: |va| <= i < |vs| ==> items[i] == b[i - |va|] && vs[i] == vb[i - |va|];
  }

  /** Batched, one batch taken off. */
  lemma BatchedSteps(items: seq<Prepared>, contacts: Contacts, take: nat, seen: set<Key>, batch: seq<Prepared>,
                     rest: seq<Prepared>)
    requires take > 0 && items != [] && batch == items[..Min(take, |items|)] && rest == items[|batch|..]
    ensures items == batch + rest && |rest| < |items|
    ensures var known := FetchedKeys(batch, contacts);
      Batched(items, contacts, take, seen)
      == Verdicts(batch, known, seen) + Batched(rest, contacts, take, SeenAfter(batch, known, seen))
  {
  }

  /** What one batch keeps. */
  lemma OneBatch(batch: seq<Prepared>, contacts: Contacts, seen: set<Key>)
    ensures
      var known := FetchedKeys(batch, contacts);
      var vs := Verdicts(batch, known, seen);
      var after := SeenAfter(batch, known, seen);
      && FreshApart(batch, vs, seen) && MalformedRight(batch, vs) && FreshNotLive(batch, vs, contacts) && seen <= after
      && forall i :: 0 <= i < |vs| && vs[i].Fresh? && batch[i].Usable? ==> KeySet(batch[i].value) <= after
  {
    VerdictsSound(batch, FetchedKeys(batch, contacts), seen);
    BatchFreshIsNotLive(batch, contacts, seen);
  }

  lemma {:induction false} BatchedFreshApart(items: seq<Prepared>, contacts: Contacts, take: nat, seen: set<Key>)
    requires take > 0
    ensures var vs := Batched(items, contacts, take, seen);
      FreshApart(items, vs, seen) && MalformedRight(items, vs) && FreshNotLive(items, vs, contacts)
    decreases |items|
  {
    if items != [] {
      var batch := items[..Min(take, |items|)];
      var rest := items[|batch|..];
      var known := FetchedKeys(batch, contacts);
      var after := SeenAfter(batch, known, seen);
      BatchedSteps(items, contacts, take, seen, batch, rest);
      var first, others := Verdicts(batch, known, seen), Batched(rest, contacts, take, after);
      OneBatch(batch, contacts, seen);
      BatchedFreshApart(rest, contacts, take, after);
      FreshConcat(batch, first, rest, others, seen, after);
      RightConcat(batch, first, rest, others, contacts);
    }
  }

  /**
   After mapping, for every batch size: fresh rows share no key with each other or with a live contact.
   Where foreign ids are shadowed, every duplicate shares a key with a live contact or an earlier fresh
   row, so no duplicate could have been accepted as well.
   */
  lemma MappingIsSoundAndMaximal(items: seq<Prepared>, contacts: Contacts, take: nat)
    requires take > 0
    ensures var vs := Batched(items, contacts, take, {});
      && FreshApart(items, vs, {}) && MalformedRight(items, vs) && FreshNotLive(items, vs, contacts)
      && (ForeignIdsShadowed(contacts) && FromFile(items) ==> Justified(items, vs, LiveKeys(contacts), {}))
  {
    BatchedFreshApart(items, contacts, take, {});
    if ForeignIdsShadowed(contacts) && FromFile(items) {
      BatchingAgrees(items, contacts, take, {});
      VerdictsSound(items, LiveKeys(contacts), {});
    }
  }

  // ----- The cursor loop -----

  function StatusOf(v: Verdict): RowStatus {
    match v
    case Fresh => Valid
    case Malformed => Invalid
    case Known => Duplicate
    case Repeated => Duplicate
  }

  function NotesOf(item: Prepared, v: Verdict): seq<Note> {
    match v
    case Fresh => []
    case Malformed => if item.Unusable? then [item.note] else []
    case Known => [AlreadyInContacts]
    case Repeated => [RepeatedInFile]
  }

  /** The row as the mapping writes it back. */
  function Mark(row: ImportRow, item: Prepared, v: Verdict): ImportRow {
    row.(status := StatusOf(v),
         normalized := if item.Usable? then Some(item.value) else None,
         dedupeKey := if item.Usable? && KeysOf(item.value) != [] then Some(KeysOf(item.value)[0]) else None,
         notes := NotesOf(item, v))
  }

  function CountOf(vs: seq<Verdict>, status: RowStatus): nat {
    if vs == [] then 0
    else CountOf(vs[..|vs| - 1], status) + if StatusOf(vs[|vs| - 1]) == status then 1 else 0
  }

  lemma {:induction false} CountsAddUp(vs: seq<Verdict>)
    ensures CountOf(vs, Valid) + CountOf(vs, Invalid) + CountOf(vs, Duplicate) == |vs|
  {
    if vs != [] { CountsAddUp(vs[..|vs| - 1]); }
  }

  function ById(rows: Rows): map<nat, nat> {
    map id | id in rows :: id
  }

  function IdOrder(rows: Rows): (r: seq<nat>)
    ensures |r| == |rows| && AllIn(r, rows)
  {
    OrderIsOrdered(rows.Keys, ById(rows));
    OrderBy(rows.Keys, ById(rows))
  }

  lemma IdsDistinct(rows: Rows)
    ensures Distinct(IdOrder(rows))
  {
    OrderIsOrdered(rows.Keys, ById(rows));
  }

  function NotPassed(rows: Rows, cursor: Option<nat>): set<nat> {
    set id | id in rows && (cursor.None? || id > cursor.value)
  }

  /** The rows the cursor has not passed, in ascending order of id. */
  function IdsAfter(rows: Rows, cursor: Option<nat>): seq<nat> {
    OrderBy(NotPassed(rows, cursor), ById(rows))
  }

  /** The page query: rows after the cursor in ascending order of id, at most `take` of them. */
  function PageAfter(rows: Rows, cursor: Option<nat>, take: nat): seq<nat> {
    var r := IdsAfter(rows, cursor);
    r[..Min(take, |r|)]
  }

  /** Moving the cursor to the last row of a page leaves what comes after the page. */
  lemma CursorMoves(rows: Rows, cursor: Option<nat>, m: nat)
    requires 0 < m <= |IdsAfter(rows, cursor)|
    ensures IdsAfter(rows, Some(IdsAfter(rows, cursor)[m - 1])) == IdsAfter(rows, cursor)[m..]
  {
    var found, rest := NotPassed(rows, cursor), IdsAfter(rows, cursor);
    var last := rest[m - 1];
    OrderIsOrdered(found, ById(rows));
    assert last in found;
    var next := NotPassed(rows, Some(last));
    assert Beyond(next, found, ById(rows), last);
    NextPage(found, ById(rows), next, m);
  }

  lemma CursorSeesOnlyIds(before: Rows, rows: Rows, cursor: Option<nat>)
    requires before.Keys == rows.Keys
    ensures IdsAfter(before, cursor) == IdsAfter(rows, cursor)
  {
    assert ById(before) == ById(rows);
    assert NotPassed(before, cursor) == NotPassed(rows, cursor);
  }

  function ItemsOf(rows: Rows, order: seq<nat>, tools: Tools, mapping: seq<Column>, importId: string): seq<Prepared>
    requires AllIn(order, rows)
  {
    seq(|order|, i requires 0 <= i < |order| => Prepare(tools, rows[order[i]].raw, mapping, importId))
  }

  lemma ItemsSnoc(rows: Rows, page: seq<nat>, j: nat, tools: Tools, mapping: seq<Column>, importId: string)
    requires AllIn(page, rows) && j < |page|
    ensures ItemsOf(rows, page[..j + 1], tools, mapping, importId)
         == ItemsOf(rows, page[..j], tools, mapping, importId) + [Prepare(tools, rows[page[j]].raw, mapping, importId)]
  {
  }

  /** How many times `d` fits into `x`. */
  function Fits(x: nat, d: nat): nat
    requires d > 0
  {
    if x < d then 0 else 1 + Fits(x - d, d)
  }

  /** Fits is the integer quotient. */
  lemma {:induction false} FitsIsQuotient(x: nat, d: nat)
    requires d > 0
    ensures Fits(x, d) * d <= x < Fits(x, d) * d + d
  {
    if x >= d {
      FitsIsQuotient(x - d, d);
      assert Fits(x, d) * d == Fits(x - d, d) * d + d;
    }
  }

  lemma {:induction false} FitsGrows(x: nat, y: nat, d: nat)
    requires x <= y && d > 0
    ensures Fits(x, d) <= Fits(y, d)
    decreases y
  {
    if x >= d { FitsGrows(x - d, y - d, d); }
  }

  /** processed / max(1, total) in percent, rounded half up as the source does. */
  function Percent(processed: nat, total: nat): nat {
    var t := if total == 0 then 1 else total;
    Fits(200 * processed + t, 2 * t)
  }

  lemma {:induction false} NextMultiple(a: int, b: int, d: nat)
    requires a < b
    ensures a * d + d <= b * d
    decreases b - a
  {
    if a + 1 < b { NextMultiple(a, b - 1, d); }
    assert b * d == (b - 1) * d + d;
  }

  /** The percentage is the one whole number r for which 100 * processed / t lies from r - 1/2 to just below r + 1/2. */
  lemma PercentRounds(processed: nat, total: nat, r: int)
    ensures var t := if total == 0 then 1 else total;
      r == Percent(processed, total) <==> r * (2 * t) - t <= 200 * processed < r * (2 * t) + t
  {
    var t := if total == 0 then 1 else total;
    var q := Percent(processed, total);
    FitsIsQuotient(200 * processed + t, 2 * t);
    if q < r { NextMultiple(q, r, 2 * t); } else if r < q { NextMultiple(r, q, 2 * t); }
  }

  lemma PercentGrows(a: nat, b: nat, total: nat)
    requires a <= b
    ensures Percent(a, total) <= Percent(b, total)
  {
    var t := if total == 0 then 1 else total;
    FitsGrows(200 * a + t, 200 * b + t, 2 * t);
  }

  /** Progress never falls, and stays at 99 or less until the last write. */
  predicate Climbs(log: seq<nat>) {
    forall i, j :: 0 <= i < j < |log| ==> log[i] <= log[j] && log[i] <= 99
  }

  lemma ClimbsExtends(log: seq<nat>, next: nat)
    requires Climbs(log) && (log != [] ==> log[|log| - 1] <= 99 && log[|log| - 1] <= next)
    ensures Climbs(log + [next])
  {
  }

  lemma {:induction false} CountsConcat(a: seq<Verdict>, b: seq<Verdict>, status: RowStatus)
    ensures CountOf(a + b, status) == CountOf(a, status) + CountOf(b, status)
  {
    if b == [] {
      assert a + b == a;
    } else {
      assert (a + b)[..|a + b| - 1] == a + b[..|b| - 1];
      CountsConcat(a, b[..|b| - 1], status);
    }
  }

  /** The rows after judging the listed ones. */
  ghost predicate Marked(before: Rows, after: Rows, ids: seq<nat>, items: seq<Prepared>, vs: seq<Verdict>)
    requires |ids| == |items| == |vs|
  {
    && after.Keys == before.Keys
    && (forall i :: 0 <= i < |ids| ==> ids[i] in before && after[ids[i]] == Mark(before[ids[i]], items[i], vs[i]))
    && (forall id :: id in before && id !in ids ==> after[id] == before[id])
  }

  ghost predicate Distinct(ids: seq<nat>) {
    forall i, j :: 0 <= i < j < |ids| ==> ids[i] != ids[j]
  }

  predicate AllIn(ids: seq<nat>, rows: Rows) {
    forall i :: 0 <= i < |ids| ==> ids[i] in rows
  }

  /** One row update of the mapping loop. */
  datatype Write = Write(id: nat, item: Prepared, verdict: Verdict)

  function Writes(ids: seq<nat>, items: seq<Prepared>, vs: seq<Verdict>): (ws: seq<Write>)
    requires |ids| == |items| == |vs|
    ensures |ws| == |ids|
  {
    seq(|ids|, i requires 0 <= i < |ids| => Write(ids[i], items[i], vs[i]))
  }

  predicate AllHit(ws: seq<Write>, rows: Rows) {
    forall i :: 0 <= i < |ws| ==> ws[i].id in rows
  }

  /** The rows after a sequence of updates. */
  function MarkAll(rows: Rows, ws: seq<Write>): (r: Rows)
    requires AllHit(ws, rows)
    ensures r.Keys == rows.Keys
  {
    if ws == [] then rows
    else
      var w := ws[|ws| - 1];
      var r := MarkAll(rows, ws[..|ws| - 1]);
      r[w.id := Mark(r[w.id], w.item, w.verdict)]
  }

  lemma {:induction false} MarkAllMarks(rows: Rows, ids: seq<nat>, items: seq<Prepared>, vs: seq<Verdict>)
    requires |ids| == |items| == |vs| && AllIn(ids, rows) && Distinct(ids)
    ensures Marked(rows, MarkAll(rows, Writes(ids, items, vs)), ids, items, vs)
  {
    if ids != [] {
      var k := |ids| - 1;
      MarkAllMarks(rows, ids[..k], items[..k], vs[..k]);
      assert Writes(ids, items, vs)[..k] == Writes(ids[..k], items[..k], vs[..k]);
      assert ids[k] !in ids[..k];
      assert ids == ids[..k] + [ids[k]];
    }
  }

  lemma {:induction false} MarkAllKeepsRaw(rows: Rows, ws: seq<Write>)
    requires AllHit(ws, rows)
    ensures forall id :: id in rows ==> MarkAll(rows, ws)[id].raw == rows[id].raw
  {
    if ws != [] { MarkAllKeepsRaw(rows, ws[..|ws| - 1]); }
  }

  lemma {:induction false} MarkAllCompose(rows: Rows, a: seq<Write>, b: seq<Write>)
    requires AllHit(a, rows) && AllHit(b, rows)
    ensures AllHit(a + b, rows) && MarkAll(MarkAll(rows, a), b) == MarkAll(rows, a + b)
  {
    if b == [] {
      assert a + b == a;
    } else {
      assert (a + b)[..|a + b| - 1] == a + b[..|b| - 1];
      MarkAllCompose(rows, a, b[..|b| - 1]);
    }
  }

  /** Marking rows changes none of their raw cells, so later pages prepare as they would have at the start. */
  lemma ItemsUnmoved(before: Rows, ws: seq<Write>, page: seq<nat>, tools: Tools, mapping: seq<Column>, importId: string)
    requires AllHit(ws, before) && AllIn(page, before)
    ensures AllIn(page, MarkAll(before, ws))
    ensures ItemsOf(MarkAll(before, ws), page, tools, mapping, importId)
         == ItemsOf(before, page, tools, mapping, importId)
  {
    MarkAllKeepsRaw(before, ws);
  }

  lemma CountSnoc(vs: seq<Verdict>, j: nat, status: RowStatus)
    requires j < |vs|
    ensures CountOf(vs[..j + 1], status) == CountOf(vs[..j], status) + if StatusOf(vs[j]) == status then 1 else 0
  {
    assert vs[..j + 1][..j] == vs[..j];
  }

  lemma MarkAllSnoc(rows: Rows, ws: seq<Write>, j: nat)
    requires AllHit(ws, rows) && j < |ws|
    ensures var r := MarkAll(rows, ws[..j]);
      MarkAll(rows, ws[..j + 1]) == r[ws[j].id := Mark(r[ws[j].id], ws[j].item, ws[j].verdict)]
  {
    assert ws[..j + 1][..j] == ws[..j];
  }

  /** What is shown is that percentage, but never more than 99. */
  lemma ShownRounds(processed: nat, total: nat)
    ensures var t := if total == 0 then 1 else total; var shown := Shown(processed, total);
      && shown <= 99
      && (shown * (2 * t) - t <= 200 * processed)
      && (shown < 99 ==> 200 * processed < shown * (2 * t) + t)
  {
    var t := if total == 0 then 1 else total;
    PercentRounds(processed, total, Percent(processed, total));
    if Percent(processed, total) > 99 { NextMultiple(99, Percent(processed, total), 2 * t); }
  }

  /** The progress shown while rows are still being mapped. */
  function Shown(processed: nat, total: nat): (p: nat)
    ensures p <= 99
  {
    Min(99, Percent(processed, total))
  }

  ghost predicate BelowHundred(log: seq<nat>) {
    Climbs(log) && log != [] && log[|log| - 1] <= 99
  }

  ghost predicate ShownAt(log: seq<nat>, processed: nat, total: nat) {
    Climbs(log) && log != [] && log[|log| - 1] <= Shown(processed, total)
  }

  /** One call of applyMapping: what it starts from and never changes. */
  datatype Setup = Setup(contacts: Contacts, tools: Tools, mapping: seq<Column>, importId: string, take: nat)

  /** The variables of the cursor loop. */
  datatype Progress = Progress(rows: Rows, seen: set<Key>, valid: nat, invalid: nat, duplicate: nat)

  function Items(s: Setup, rows: Rows, ids: seq<nat>): (items: seq<Prepared>)
    requires AllIn(ids, rows)
    ensures |items| == |ids|
  {
    ItemsOf(rows, ids, s.tools, s.mapping, s.importId)
  }

  /** The effect of judging `items` as the rows `ids` with verdicts `vs`. */
  function Apply(p: Progress, ids: seq<nat>, items: seq<Prepared>, vs: seq<Verdict>, seen: set<Key>): (q: Progress)
    requires |ids| == |items| == |vs| && AllIn(ids, p.rows)
    ensures q.rows.Keys == p.rows.Keys
  {
    Progress(MarkAll(p.rows, Writes(ids, items, vs)), seen,
      p.valid + CountOf(vs, Valid), p.invalid + CountOf(vs, Invalid), p.duplicate + CountOf(vs, Duplicate))
  }

  /** The effect of one page. */
  function Turn(s: Setup, p: Progress, page: seq<nat>): (q: Progress)
    requires AllIn(page, p.rows)
    ensures q.rows.Keys == p.rows.Keys
  {
    var batch := Items(s, p.rows, page);
    var known := FetchedKeys(batch, s.contacts);
    Apply(p, page, batch, Verdicts(batch, known, p.seen), SeenAfter(batch, known, p.seen))
  }

  /** The whole loop over the rows still ahead. */
  function Loop(s: Setup, p: Progress, rest: seq<nat>): (q: Progress)
    requires s.take > 0 && AllIn(rest, p.rows)
    decreases |rest|
  {
    if rest == [] then p
    else
      var m := Min(s.take, |rest|);
      var q := Turn(s, p, rest[..m]);
      assert AllIn(rest[m..], q.rows);
      Loop(s, q, rest[m..])
  }

  function LoopOrStay(s: Setup, p: Progress, rest: seq<nat>): Progress {
    if s.take > 0 && AllIn(rest, p.rows) then Loop(s, p, rest) else p
  }

  lemma ItemsAfterTurn(s: Setup, p: Progress, page: seq<nat>, rest: seq<nat>)
    requires AllIn(page, p.rows) && AllIn(rest, p.rows)
    ensures AllIn(rest, Turn(s, p, page).rows)
    ensures Items(s, Turn(s, p, page).rows, rest) == Items(s, p.rows, rest)
  {
    var batch := Items(s, p.rows, page);
    var vs := Verdicts(batch, FetchedKeys(batch, s.contacts), p.seen);
    ItemsUnmoved(p.rows, Writes(page, batch, vs), rest, s.tools, s.mapping, s.importId);
  }

  lemma ItemsSplit(s: Setup, rows: Rows, rest: seq<nat>, m: nat)
    requires AllIn(rest, rows) && m <= |rest|
    ensures Items(s, rows, rest) == Items(s, rows, rest[..m]) + Items(s, rows, rest[m..])
  {
  }

  lemma WritesConcat(ids: seq<nat>, items: seq<Prepared>, a: seq<Verdict>, b: seq<Verdict>, m: nat)
    requires |ids| == |items| == |a| + |b| && m == |a|
    ensures Writes(ids[..m], items[..m], a) + Writes(ids[m..], items[m..], b) == Writes(ids, items, a + b)
  {
  }

  /** Two runs of updates one after the other are one run. */
  lemma WritesCompose(rows: Rows, ids: seq<nat>, items: seq<Prepared>, a: seq<Verdict>, b: seq<Verdict>, m: nat)
    requires |ids| == |items| == |a| + |b| && m == |a| && AllIn(ids, rows)
    ensures AllIn(ids[..m], rows) && AllIn(ids[m..], rows)
    ensures AllHit(Writes(ids[m..], items[m..], b), MarkAll(rows, Writes(ids[..m], items[..m], a)))
    ensures MarkAll(MarkAll(rows, Writes(ids[..m], items[..m], a)), Writes(ids[m..], items[m..], b))
         == MarkAll(rows, Writes(ids, items, a + b))
  {
    MarkAllCompose(rows, Writes(ids[..m], items[..m], a), Writes(ids[m..], items[m..], b));
    WritesConcat(ids, items, a, b, m);
  }

  /** The verdicts of the first batch and of the rows after it. */
  lemma FirstTurn(s: Setup, p: Progress, rest: seq<nat>)
    requires s.take > 0 && AllIn(rest, p.rows) && rest != []
    ensures var m := Min(s.take, |rest|); var q := Turn(s, p, rest[..m]);
      && AllIn(rest[m..], q.rows)
      && Items(s, q.rows, rest[m..]) == Items(s, p.rows, rest)[m..]
      && Items(s, p.rows, rest[..m]) == Items(s, p.rows, rest)[..m]
  {
    var m := Min(s.take, |rest|);
    ItemsSplit(s, p.rows, rest, m);
    ItemsAfterTurn(s, p, rest[..m], rest[m..]);
  }

  lemma TwoApplies(p: Progress, ids: seq<nat>, items: seq<Prepared>, a: seq<Verdict>, b: seq<Verdict>, m: nat,
                   mid: set<Key>, seen: set<Key>)
    requires |ids| == |items| == |a| + |b| && m == |a| && AllIn(ids, p.rows)
    ensures AllIn(ids[..m], p.rows) && AllIn(ids[m..], Apply(p, ids[..m], items[..m], a, mid).rows)
    ensures Apply(Apply(p, ids[..m], items[..m], a, mid), ids[m..], items[m..], b, seen)
         == Apply(p, ids, items, a + b, seen)
  {
    WritesCompose(p.rows, ids, items, a, b, m);
    CountsConcat(a, b, Valid);
    CountsConcat(a, b, Invalid);
    CountsConcat(a, b, Duplicate);
  }

  /** The loop marks every row ahead of it with its verdict under batching, and counts them. */
  lemma {:induction false} LoopMeans(s: Setup, p: Progress, rest: seq<nat>)
    requires s.take > 0 && AllIn(rest, p.rows)
    ensures var items := Items(s, p.rows, rest);
      var vs := Batched(items, s.contacts, s.take, p.seen);
      Loop(s, p, rest) == Apply(p, rest, items, vs, Loop(s, p, rest).seen)
    decreases |rest|
  {
    if rest != [] {
      var m := Min(s.take, |rest|);
      var q := Turn(s, p, rest[..m]);
      var items := Items(s, p.rows, rest);
      FirstTurn(s, p, rest);
      LoopMeans(s, q, rest[m..]);
      var a := Verdicts(items[..m], FetchedKeys(items[..m], s.contacts), p.seen);
      var b := Batched(items[m..], s.contacts, s.take, q.seen);
      TwoApplies(p, rest, items, a, b, m, q.seen, Loop(s, p, rest).seen);
    }
  }

  /** The verdicts of a whole call, in id order. */
  function MappingVerdicts(s: Setup, before: Rows): (vs: seq<Verdict>)
    requires s.take > 0
    ensures |vs| == |before|
  {
    Batched(Items(s, before, IdOrder(before)), s.contacts, s.take, {})
  }

  datatype Counters = Counters(valid: nat, invalid: nat, duplicate: nat)

  function MappingCounters(s: Setup, before: Rows): Counters
    requires s.take > 0
  {
    var vs := MappingVerdicts(s, before);
    Counters(CountOf(vs, Valid), CountOf(vs, Invalid), CountOf(vs, Duplicate))
  }

  /** The counters account for every staged row. */
  lemma CountersAddUp(s: Setup, before: Rows)
    requires s.take > 0
    ensures var c := MappingCounters(s, before); c.valid + c.invalid + c.duplicate == |before|
  {
    CountsAddUp(MappingVerdicts(s, before));
  }

  /** The rows a whole call leaves behind. */
  function MappedRows(s: Setup, before: Rows): Rows
    requires s.take > 0
  {
    MarkAll(before, Writes(IdOrder(before), Items(s, before, IdOrder(before)), MappingVerdicts(s, before)))
  }

  /** Every row of a mapped file carries its own verdict, and no row is left out. */
  lemma MappedRowsAreMarked(s: Setup, before: Rows)
    requires s.take > 0
    ensures Marked(before, MappedRows(s, before), IdOrder(before), Items(s, before, IdOrder(before)),
                   MappingVerdicts(s, before))
    ensures forall id :: id in before ==> id in IdOrder(before)
  {
    OrderIsOrdered(before.Keys, ById(before));
    IdsDistinct(before);
    MarkAllMarks(before, IdOrder(before), Items(s, before, IdOrder(before)), MappingVerdicts(s, before));
  }

  // ----- Where the cursor loop stands -----

  /**
   The variables of the loop: counts and rows, the cursor, the rows processed, the progress shown, and the rows left.
  */
  datatype Standing = Standing(p: Progress, cursor: Option<nat>, processed: nat, log: seq<nat>, left: nat)

  /** The rows the cursor has not passed are still to be looped over, and looping over them gives `goal`. */
  ghost predicate OnCourse(s: Setup, goal: Progress, c: Standing) {
    var rest := IdsAfter(c.p.rows, c.cursor);
    && AllIn(rest, c.p.rows) && LoopOrStay(s, c.p, rest) == goal && c.left == |rest|
    && ShownAt(c.log, c.processed, |c.p.rows|)
  }

  /** `on` is OnCourse. The methods carry it as a value, so that its definition stays in the lemmas. */
  ghost predicate IsCourse(s: Setup, goal: Progress, on: Standing -> bool) {
    forall c {:trigger OnCourse(s, goal, c)} :: on(c) == OnCourse(s, goal, c)
  }

  lemma CourseAsValue(s: Setup, goal: Progress) returns (on: Standing -> bool)
    ensures IsCourse(s, goal, on)
  {
    on := c => OnCourse(s, goal, c);
  }

  /** From the start of the table all of it is ahead. */
  lemma AllAhead(before: Rows)
    ensures IdsAfter(before, None) == IdOrder(before) && AllIn(IdOrder(before), before)
  {
    assert NotPassed(before, None) == before.Keys;
    OrderIsOrdered(before.Keys, ById(before));
  }

  lemma LogStarts(total: nat)
    ensures ShownAt([0], 0, total)
  {
  }

  lemma CourseStarts(s: Setup, goal: Progress, on: Standing -> bool, before: Rows) returns (left: nat)
    requires IsCourse(s, goal, on) && goal == LoopOrStay(s, Progress(before, {}, 0, 0, 0), IdOrder(before))
    ensures on(Standing(Progress(before, {}, 0, 0, 0), None, 0, [0], left))
  {
    AllAhead(before);
    LogStarts(|before|);
    left := |IdOrder(before)|;
    var c := Standing(Progress(before, {}, 0, 0, 0), None, 0, [0], left);
    OnCourseFromParts(s, goal, c, IdOrder(before));
    assert OnCourse(s, goal, c);
  }

  /** The page is part of the table; an empty one means that the loop has reached its goal. */
  lemma CourseAtPage(s: Setup, goal: Progress, on: Standing -> bool, c: Standing, page: seq<nat>)
    requires s.take > 0 && IsCourse(s, goal, on) && on(c) && page == PageAfter(c.p.rows, c.cursor, s.take)
    ensures AllIn(page, c.p.rows)
    ensures page == [] ==> c.p == goal && BelowHundred(c.log)
  {
    assert OnCourse(s, goal, c);
  }

  /** The cursor on the last row of a page leaves the rest, in the table after the page as well. */
  lemma RestBehindPage(s: Setup, p: Progress, q: Progress, cursor: Option<nat>, page: seq<nat>)
    requires s.take > 0 && page == PageAfter(p.rows, cursor, s.take) && page != [] && q.rows.Keys == p.rows.Keys
    ensures var rest := IdsAfter(p.rows, cursor);
      && page == rest[..Min(s.take, |rest|)] && |page| == Min(s.take, |rest|)
      && IdsAfter(q.rows, Some(page[|page| - 1])) == rest[|page|..]
  {
    CursorMoves(p.rows, cursor, |page|);
    CursorSeesOnlyIds(p.rows, q.rows, Some(page[|page| - 1]));
    assert IdsAfter(p.rows, cursor)[|page| - 1] == page[|page| - 1];
  }

  /** The loop goes on with the rest after one page. */
  lemma LoopAfterPage(s: Setup, p: Progress, rest: seq<nat>, m: nat)
    requires s.take > 0 && AllIn(rest, p.rows) && rest != [] && m == Min(s.take, |rest|)
    ensures AllIn(rest[..m], p.rows)
    ensures AllIn(rest[m..], Turn(s, p, rest[..m]).rows)
    ensures LoopOrStay(s, Turn(s, p, rest[..m]), rest[m..]) == LoopOrStay(s, p, rest)
  {
  }

  lemma RestAfterPage(s: Setup, p: Progress, q: Progress, cursor: Option<nat>, page: seq<nat>)
    requires s.take > 0 && page == PageAfter(p.rows, cursor, s.take) && page != []
    requires AllIn(IdsAfter(p.rows, cursor), p.rows)
    requires AllIn(page, p.rows) && q == Turn(s, p, page)
    ensures var rest := IdsAfter(p.rows, cursor);
      && IdsAfter(q.rows, Some(page[|page| - 1])) == rest[|page|..] && |page| <= |rest|
      && AllIn(rest[|page|..], q.rows) && LoopOrStay(s, q, rest[|page|..]) == LoopOrStay(s, p, rest)
  {
    RestBehindPage(s, p, q, cursor, page);
    LoopAfterPage(s, p, IdsAfter(p.rows, cursor), |page|);
  }

  lemma LogAdvances(log: seq<nat>, processed: nat, more: nat, total: nat)
    requires ShownAt(log, processed, total)
    ensures ShownAt(log + [Shown(processed + more, total)], processed + more, total)
  {
    PercentGrows(processed, processed + more, total);
    ClimbsExtends(log, Shown(processed + more, total));
  }

  lemma OnCourseFromParts(s: Setup, goal: Progress, c: Standing, rest: seq<nat>)
    requires rest == IdsAfter(c.p.rows, c.cursor) && AllIn(rest, c.p.rows) && LoopOrStay(s, c.p, rest) == goal
    requires c.left == |rest| && ShownAt(c.log, c.processed, |c.p.rows|)
    ensures OnCourse(s, goal, c)
  {
  }

  lemma TurnIs(s: Setup, p: Progress, page: seq<nat>, batch: seq<Prepared>, rows: Rows, seen: set<Key>, v: nat, i: nat,
               d: nat)
    requires AllIn(page, p.rows) && batch == Items(s, p.rows, page)
    requires
      var known := FetchedKeys(batch, s.contacts);
      var vs := Verdicts(batch, known, p.seen);
      && seen == SeenAfter(batch, known, p.seen) && rows == MarkAll(p.rows, Writes(page, batch, vs))
      && v == CountOf(vs, Valid) && i == CountOf(vs, Invalid) && d == CountOf(vs, Duplicate)
    ensures Progress(rows, seen, p.valid + v, p.invalid + i, p.duplicate + d) == Turn(s, p, page)
  {
  }

  function TurnOrStay(s: Setup, p: Progress, page: seq<nat>): Progress {
    if AllIn(page, p.rows) then Turn(s, p, page) else p
  }

  /** `turn` is Turn on this page; carried as a value like `on`. */
  ghost predicate IsTurn(s: Setup, page: seq<nat>, turn: Progress -> Progress) {
    forall p {:trigger TurnOrStay(s, p, page)} :: turn(p) == TurnOrStay(s, p, page)
  }

  lemma TurnAsValue(s: Setup, page: seq<nat>) returns (turn: Progress -> Progress)
    ensures IsTurn(s, page, turn)
  {
    turn := p => TurnOrStay(s, p, page);
  }

  lemma PageAdvances(s: Setup, goal: Progress, c: Standing, page: seq<nat>, q: Progress, log: seq<nat>)
    returns (next: Standing)
    requires s.take > 0 && OnCourse(s, goal, c)
    requires page == PageAfter(c.p.rows, c.cursor, s.take) && page != [] && AllIn(page, c.p.rows)
    requires q == Turn(s, c.p, page) && log == c.log + [Shown(c.processed + |page|, |q.rows|)]
    ensures next == Standing(q, Some(page[|page| - 1]), c.processed + |page|, log, next.left)
    ensures next.left < c.left && OnCourse(s, goal, next)
  {
    var rest := IdsAfter(c.p.rows, c.cursor);
    RestAfterPage(s, c.p, q, c.cursor, page);
    SameSize(q.rows, c.p.rows);
    LogAdvances(c.log, c.processed, |page|, |q.rows|);
    next := Standing(q, Some(page[|page| - 1]), c.processed + |page|, log, |rest| - |page|);
    OnCourseFromParts(s, goal, next, rest[|page|..]);
  }

  /** A page judged and the progress shown. */
  lemma CourseAdvances(s: Setup, goal: Progress, on: Standing -> bool, turn: Progress -> Progress, c: Standing,
                       page: seq<nat>, q: Progress, log: seq<nat>)
    returns (next: Standing)
    requires s.take > 0 && IsCourse(s, goal, on) && IsTurn(s, page, turn) && on(c)
    requires page == PageAfter(c.p.rows, c.cursor, s.take) && page != [] && AllIn(page, c.p.rows)
    requires q == turn(c.p) && log == c.log + [Shown(c.processed + |page|, |q.rows|)]
    ensures next == Standing(q, Some(page[|page| - 1]), c.processed + |page|, log, next.left)
    ensures next.left < c.left && on(next)
  {
    assert OnCourse(s, goal, c) && turn(c.p) == TurnOrStay(s, c.p, page);
    next := PageAdvances(s, goal, c, page, q, log);
    assert on(next) == OnCourse(s, goal, next);
  }

  /** What the loop over the whole table comes to. */
  lemma GoalMeans(s: Setup, before: Rows, goal: Progress)
    requires s.take > 0 && goal == LoopOrStay(s, Progress(before, {}, 0, 0, 0), IdOrder(before))
    ensures goal.rows == MappedRows(s, before)
    ensures Counters(goal.valid, goal.invalid, goal.duplicate) == MappingCounters(s, before)
  {
    LoopMeans(s, Progress(before, {}, 0, 0, 0), IdOrder(before));
  }

  /** The import tables of one workspace, and the record of one import job. */
  class ImportStore {
    var rows: Rows
    var contacts: Contacts
    var status: JobStatus
    var validRows: nat
    var invalidRows: nat
    var duplicateRows: nat
    var skippedRows: nat
    var progress: nat
    ghost var progressLog: seq<nat>

    constructor (rows: Rows, contacts: Contacts)
      ensures this.rows == rows && this.contacts == contacts && status == Uploaded && progressLog == []
    {
      this.rows, this.contacts, status, progressLog := rows, contacts, Uploaded, [];
      validRows, invalidRows, duplicateRows, skippedRows, progress := 0, 0, 0, 0, 0;
    }

    method PreparePage(page: seq<nat>, tools: Tools, mapping: seq<Column>,
                       importId: string) returns (batch: seq<Prepared>)
      requires AllIn(page, rows)
      ensures batch == ItemsOf(rows, page, tools, mapping, importId)
    {
      batch := [];
      for j := 0 to |page|
        invariant batch == ItemsOf(rows, page[..j], tools, mapping, importId)
      {
        ItemsSnoc(rows, page, j, tools, mapping, importId);
        var values := FillValues(rows[page[j]].raw, mapping);
        batch := batch + [FromValues(tools, values, importId)];
      }
      assert page[..|page|] == page;
    }

    static method JudgeRow(item: Prepared, known: set<Key>, seen: set<Key>) returns (verdict: Verdict, after: set<Key>)
      ensures verdict == Judge(item, known, seen) && after == Remember(item, verdict, seen)
    {
      after := seen;
      if item.Unusable? {
        verdict := Malformed;
      } else if !(KeySet(item.value) !! seen) || !(KeySet(item.value) !! known) {
        verdict := if KeySet(item.value) !! known then Repeated else Known;
      } else {
        verdict := Fresh;
        after := seen + KeySet(item.value);
      }
    }

    method JudgePage(page: seq<nat>, batch: seq<Prepared>, known: set<Key>, start: set<Key>)
      returns (seen: set<Key>, valid: nat, invalid: nat, duplicate: nat)
      requires |batch| == |page| && AllIn(page, rows)
      modifies this`rows
      ensures var vs := Verdicts(batch, known, start);
        && seen == SeenAfter(batch, known, start)
        && rows == MarkAll(old(rows), Writes(page, batch, vs))
        && valid == CountOf(vs, Valid) && invalid == CountOf(vs, Invalid) && duplicate == CountOf(vs, Duplicate)
    {
      seen, valid, invalid, duplicate := start, 0, 0, 0;
      ghost var vs := Verdicts(batch, known, start);
      ghost var ws := Writes(page, batch, vs);
      assert batch[..0] == [];
      for j := 0 to |page|
        invariant seen == SeenAfter(batch[..j], known, start)
        invariant rows == MarkAll(old(rows), ws[..j])
        invariant valid == CountOf(vs[..j], Valid)
        invariant invalid == CountOf(vs[..j], Invalid)
        invariant duplicate == CountOf(vs[..j], Duplicate)
      {
        VerdictAt(batch, known, start, j);
        MarkAllSnoc(old(rows), ws, j);
        CountSnoc(vs, j, Valid);
        CountSnoc(vs, j, Invalid);
        CountSnoc(vs, j, Duplicate);
        var verdict, after := JudgeRow(batch[j], known, seen);
        seen := after;
        match verdict {
          case Fresh => valid := valid + 1;
          case Malformed => invalid := invalid + 1;
          case _ => duplicate := duplicate + 1;
        }
        rows := rows[page[j] := Mark(rows[page[j]], batch[j], verdict)];
      }
      assert batch[..|page|] == batch && vs[..|page|] == vs && ws[..|page|] == ws;
    }

    /** Prepare a page, look its keys up, judge it. */
    method MapPage(ghost s: Setup, page: seq<nat>, tools: Tools, mapping: seq<Column>, importId: string,
                   start: set<Key>, valid0: nat, invalid0: nat, duplicate0: nat)
      returns (seen: set<Key>, valid: nat, invalid: nat, duplicate: nat)
      requires s == Setup(contacts, tools, mapping, importId, s.take) && AllIn(page, rows)
      modifies this`rows
      ensures Progress(rows, seen, valid, invalid, duplicate)
           == Turn(s, Progress(old(rows), start, valid0, invalid0, duplicate0), page)
    {
      var batch := PreparePage(page, tools, mapping, importId);
      var known := FetchedKeys(batch, contacts);
      var v, i, d;
      seen, v, i, d := JudgePage(page, batch, known, start);
      valid, invalid, duplicate := valid0 + v, invalid0 + i, duplicate0 + d;
      TurnIs(s, Progress(old(rows), start, valid0, invalid0, duplicate0), page, batch, rows, seen, v, i, d);
    }

    /** The write of counters and progress after a page. */
    method SaveProgress(processed: nat, total: nat, valid: nat, invalid: nat, duplicate: nat)
      modifies this`validRows, this`invalidRows, this`duplicateRows, this`progress, this`progressLog
      ensures validRows == valid && invalidRows == invalid && duplicateRows == duplicate
      ensures progress == Shown(processed, total) && progressLog == old(progressLog) + [progress]
    {
      validRows, invalidRows, duplicateRows, progress := valid, invalid, duplicate, Shown(processed, total);
      progressLog := progressLog + [progress];
    }

    /** MapPage, with its effect as a value. */
    method MapPageAs(ghost s: Setup, ghost turn: Progress -> Progress, page: seq<nat>,
                     tools: Tools, mapping: seq<Column>, importId: string,
                     start: set<Key>, valid0: nat, invalid0: nat, duplicate0: nat)
      returns (seen: set<Key>, valid: nat, invalid: nat, duplicate: nat)
      requires s == Setup(contacts, tools, mapping, importId, s.take) && AllIn(page, rows) && IsTurn(s, page, turn)
      modifies this`rows
      ensures Progress(rows, seen, valid, invalid, duplicate)
           == turn(Progress(old(rows), start, valid0, invalid0, duplicate0))
    {
      seen, valid, invalid, duplicate := MapPage(s, page, tools, mapping, importId, start, valid0, invalid0,
                                                 duplicate0);
      ghost var p := Progress(old(rows), start, valid0, invalid0, duplicate0);
      assert turn(p) == TurnOrStay(s, p, page);
    }

    /** A page that is not empty, judged and counted. */
    method TakePage(ghost s: Setup, ghost goal: Progress, ghost on: Standing -> bool, ghost c: Standing, page: seq<nat>,
                    tools: Tools, mapping: seq<Column>, importId: string, ghost cursor: Option<nat>,
                    start: set<Key>, processed0: nat, valid0: nat, invalid0: nat, duplicate0: nat)
      returns (seen: set<Key>, processed: nat, valid: nat, invalid: nat, duplicate: nat, ghost next: Standing)
      requires s == Setup(contacts, tools, mapping, importId, s.take) && s.take > 0 && IsCourse(s, goal, on) && on(c)
      requires c == Standing(Progress(rows, start, valid0, invalid0, duplicate0), cursor, processed0, progressLog,
                             c.left)
      requires page == PageAfter(rows, cursor, s.take) && page != [] && AllIn(page, rows)
      modifies this`rows, this`validRows, this`invalidRows, this`duplicateRows, this`progress, this`progressLog
      ensures on(next) && next.left < c.left
      ensures next == Standing(Progress(rows, seen, valid, invalid, duplicate), Some(page[|page| - 1]), processed,
                               progressLog, next.left)
    {
      ghost var turn := TurnAsValue(s, page);
      seen, valid, invalid, duplicate :=
        MapPageAs(s, turn, page, tools, mapping, importId, start, valid0, invalid0, duplicate0);
      ghost var q := Progress(rows, seen, valid, invalid, duplicate);
      processed := processed0 + |page|;
      SaveProgress(processed, |rows|, valid, invalid, duplicate);
      next := CourseAdvances(s, goal, on, turn, c, page, q, progressLog);
    }

    /** The page query. */
    method FetchPage(ghost s: Setup, ghost goal: Progress, ghost on: Standing -> bool, ghost c: Standing,
                     cursor: Option<nat>, take: nat) returns (page: seq<nat>)
      requires take == s.take && take > 0 && IsCourse(s, goal, on) && on(c) && c.p.rows == rows && c.cursor == cursor
      ensures page == PageAfter(rows, cursor, take) && AllIn(page, rows)
      ensures page == [] ==> c.p == goal && BelowHundred(c.log)
    {
      page := PageAfter(rows, cursor, take);
      CourseAtPage(s, goal, on, c, page);
    }

    /** One turn of the cursor loop: a page fetched and, unless it is empty, taken. */
    method MapTurn(ghost s: Setup, ghost goal: Progress, ghost on: Standing -> bool, ghost c: Standing,
                   tools: Tools, mapping: seq<Column>, importId: string, take: nat, cursor: Option<nat>,
                   start: set<Key>, processed0: nat, valid0: nat, invalid0: nat, duplicate0: nat)
      returns (last: Option<nat>, seen: set<Key>, processed: nat, valid: nat, invalid: nat, duplicate: nat,
               ghost next: Standing)
      requires s == Setup(contacts, tools, mapping, importId, take) && take > 0 && IsCourse(s, goal, on) && on(c)
      requires c == Standing(Progress(rows, start, valid0, invalid0, duplicate0), cursor, processed0, progressLog,
                             c.left)
      modifies this`rows, this`validRows, this`invalidRows, this`duplicateRows, this`progress, this`progressLog
      ensures last.None? ==> c.p == goal && BelowHundred(progressLog) && rows == old(rows)
      ensures last.None? ==> valid == valid0 && invalid == invalid0 && duplicate == duplicate0
      ensures last.Some? ==> on(next) && next.left < c.left
      ensures last.Some? ==>
        next == Standing(Progress(rows, seen, valid, invalid, duplicate), last, processed, progressLog, next.left)
    {
      next, seen, processed, valid, invalid, duplicate := c, start, processed0, valid0, invalid0, duplicate0;
      var page := FetchPage(s, goal, on, c, cursor, take);
      if |page| == 0 { return None, seen, processed, valid, invalid, duplicate, next; }
      seen, processed, valid, invalid, duplicate, next :=
        TakePage(s, goal, on, c, page, tools, mapping, importId, cursor, start, processed0, valid0, invalid0,
                 duplicate0);
      last := Some(page[|page| - 1]);
    }

    /** The cursor loop, one page after the other until a page comes back empty. */
    method RunCursor(ghost s: Setup, ghost goal: Progress, ghost on: Standing -> bool, ghost first: Standing,
                     tools: Tools, mapping: seq<Column>, importId: string, take: nat)
      returns (valid: nat, invalid: nat, duplicate: nat)
      requires s == Setup(contacts, tools, mapping, importId, take) && take > 0 && IsCourse(s, goal, on) && on(first)
      requires first == Standing(Progress(rows, {}, 0, 0, 0), None, 0, progressLog, first.left)
      modifies this`rows, this`validRows, this`invalidRows, this`duplicateRows, this`progress, this`progressLog
      ensures rows == goal.rows && valid == goal.valid && invalid == goal.invalid && duplicate == goal.duplicate
      ensures BelowHundred(progressLog)
    {
      var seen: set<Key> := {};
      var cursor: Option<nat> := None;
      var processed: nat := 0;
      ghost var c := first;
      valid, invalid, duplicate := 0, 0, 0;
      while true
        invariant on(c)
        invariant c == Standing(Progress(rows, seen, valid, invalid, duplicate), cursor, processed, progressLog, c.left)
        decreases c.left
      {
        var last;
        last, seen, processed, valid, invalid, duplicate, c :=
          MapTurn(s, goal, on, c, tools, mapping, importId, take, cursor, seen, processed, valid, invalid, duplicate);
        if last.None? { break; }
        cursor := last;
      }
    }

    /** The loop from the start of the table. */
    method MapAll(ghost s: Setup, ghost before: Rows, tools: Tools, mapping: seq<Column>, importId: string, take: nat)
      returns (valid: nat, invalid: nat, duplicate: nat)
      requires s == Setup(contacts, tools, mapping, importId, take) && take > 0
      requires before == rows && progressLog == [0]
      modifies this`rows, this`validRows, this`invalidRows, this`duplicateRows, this`progress, this`progressLog
      ensures rows == MappedRows(s, before)
      ensures Counters(valid, invalid, duplicate) == MappingCounters(s, before)
      ensures BelowHundred(progressLog)
    {
      ghost var goal := LoopOrStay(s, Progress(before, {}, 0, 0, 0), IdOrder(before));
      ghost var on := CourseAsValue(s, goal);
      ghost var left := CourseStarts(s, goal, on, before);
      ghost var first := Standing(Progress(before, {}, 0, 0, 0), None, 0, [0], left);
      valid, invalid, duplicate := RunCursor(s, goal, on, first, tools, mapping, importId, take);
      GoalMeans(s, before, goal);
    }

    /** The first write: the counters and progress back to 0. */
    method Restart()
      modifies this`status, this`validRows, this`invalidRows, this`duplicateRows, this`progress, this`progressLog
      ensures status == Mapping && progress == 0 && progressLog == [0]
      ensures validRows == 0 && invalidRows == 0 && duplicateRows == 0
    {
      status, progress, validRows, invalidRows, duplicateRows := Mapping, 0, 0, 0, 0;
      progressLog := [0];
    }

    /** The last write: the counters, and progress 100. */
    method Finish(valid: nat, invalid: nat, duplicate: nat)
      requires BelowHundred(progressLog)
      modifies this`status, this`validRows, this`invalidRows, this`duplicateRows, this`skippedRows
      modifies this`progress, this`progressLog
      ensures status == JobStatus.Ready && progress == 100
      ensures validRows == valid && invalidRows == invalid && duplicateRows == duplicate
      ensures skippedRows == invalid + duplicate
      ensures Climbs(progressLog) && progressLog != [] && progressLog[|progressLog| - 1] == 100
    {
      status, validRows, invalidRows, duplicateRows := JobStatus.Ready, valid, invalid, duplicate;
      skippedRows, progress := invalid + duplicate, 100;
      ClimbsExtends(progressLog, 100);
      progressLog := progressLog + [100];
    }

    /** applyMapping; the source's page size is 500. */
    method ApplyMapping(ghost s: Setup, tools: Tools, mapping: seq<Column>, importId: string, take: nat)
      requires s == Setup(contacts, tools, mapping, importId, take) && take > 0
      modifies this
      ensures contacts == old(contacts)
      ensures rows == MappedRows(s, old(rows))
      ensures Counters(validRows, invalidRows, duplicateRows) == MappingCounters(s, old(rows))
      ensures status == JobStatus.Ready && skippedRows == invalidRows + duplicateRows
      ensures progress == 100 && Climbs(progressLog) && progressLog != [] && progressLog[|progressLog| - 1] == 100
    {
      ghost var before := rows;
      Restart();
      var valid, invalid, duplicate := MapAll(s, before, tools, mapping, importId, take);
      Finish(valid, invalid, duplicate);
    }
  }

  lemma SameSize(a: Rows, b: Rows)
    requires a.Keys == b.Keys
    ensures |a| == |b|
  {
    assert |a.Keys| == |b.Keys|;
  }
}
