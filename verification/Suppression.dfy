/**
 Opting out. Contacts, suppression entries and messages of all workspaces, and every step that touches
 consent or suppression: the webhook, the contact operations, imports, administrators, and delivery.
 */
module Suppression {
  import opened Options
  import opened ImportModel

  // ----- The safety decision -----

  datatype Capability = Supported | NotSupported | NotConfigured | PermissionRequired

  datatype Safety = Safety(
    consent: Consent,
    suppressed: bool,
    hasPermission: bool,
    capability: Capability,
    withinRate: bool,
    promotional: bool
  )

  datatype Decision =
    | Allowed
    | ContactSuppressed
    | ConsentRequired
    | PermissionDenied
    | PlatformNotConfigured
    | PlatformNotSupported
    | RateLimit

  /** evaluateMessageSafety. */
  function Evaluate(c: Safety): Decision {
    if c.suppressed || c.consent == OptedOut then ContactSuppressed
    else if c.promotional && c.consent != OptedIn then ConsentRequired
    else if !c.hasPermission then PermissionDenied
    else if c.capability == NotConfigured then PlatformNotConfigured
    else if c.capability != Supported then PlatformNotSupported
    else if !c.withinRate then RateLimit
    else Allowed
  }

  /** A message is allowed exactly when nothing at all speaks against it, whatever the order of the tests. */
  lemma AllowedIff(c: Safety)
    ensures Evaluate(c) == Allowed <==>
      !c.suppressed && c.consent != OptedOut && (c.promotional ==> c.consent == OptedIn)
      && c.hasPermission && c.capability == Supported && c.withinRate
  {
  }

  /** Why a message is not allowed: the first of these that applies. */
  lemma DecisionIs(c: Safety)
    ensures var out := c.suppressed || c.consent == OptedOut; var unasked := c.promotional && c.consent != OptedIn;
      && (Evaluate(c) == ContactSuppressed <==> out)
      && (Evaluate(c) == ConsentRequired <==> !out && unasked)
      && (Evaluate(c) == PermissionDenied <==> !out && !unasked && !c.hasPermission)
      && (Evaluate(c) == PlatformNotConfigured <==>
            !out && !unasked && c.hasPermission && c.capability == NotConfigured)
      && (Evaluate(c) == PlatformNotSupported <==>
            !out && !unasked && c.hasPermission && c.capability in {NotSupported, PermissionRequired})
      && (Evaluate(c) == RateLimit <==>
            !out && !unasked && c.hasPermission && c.capability == Supported && !c.withinRate)
  {
  }

  // ----- The tables -----

  datatype Person = Person(
    workspace: nat,
    platform: Platform,
    userId: Option<string>,
    phone: Option<string>,
    consent: Consent,
    suppressed: bool,
    doNotContact: bool,
    archived: bool
  )

  /** `workspace` is None for an entry of global scope. */
  datatype Entry = Entry(
    workspace: Option<nat>,
    platform: Option<Platform>,
    userId: Option<string>,
    phone: Option<string>
  )

  /**
   Whom a message is addressed to: the contact's user id as it was then or, where there was none, the contact's own id.
  */
  datatype Receiver = User(id: string) | OwnId(contact: nat)

  /** A queued message carries the platform of the account it was written for. */
  datatype Message = Message(workspace: nat, contact: nat, platform: Platform, receiver: Receiver, promotional: bool)

  /** A send that reached the platform, with the contact as the worker read it. */
  datatype Send = Send(message: Message, person: Person)

  datatype State = State(
    people: map<nat, Person>,
    entries: map<nat, Entry>,
    messages: map<nat, Message>,
    sends: seq<Send>
  )

  datatype Operation = OptIn | OptOut | SuppressOnly | Archive

  datatype Upsert = Upsert(
    workspace: nat,
    platform: Platform,
    userId: Option<string>,
    phone: Option<string>,
    consent: Consent
  )

  /** What account, limiter and platform say when a message is delivered; an unacknowledged send is tried again. */
  datatype Line = Line(
    otherBlock: bool,
    hasPermission: bool,
    capability: Capability,
    rateAllowed: bool,
    acknowledged: bool
  )

  datatype Event =
    | Withdraw(workspace: nat, userId: string, newId: nat, entry: nat)
    | SetConsent(workspace: nat, person: nat, consent: Consent)
    | Bulk(workspace: nat, people: set<nat>, operation: Operation)
    | Save(input: Upsert, legacy: bool, found: Option<nat>, newId: nat)
    | ImportRow(input: Upsert, newId: nat)
    | AddEntry(entry: nat, value: Entry)
    | Unsuppress(workspace: nat, entry: nat)
    | RemoveGlobal(entry: nat)
    | Write(message: nat, person: nat, platform: Platform, promotional: bool)
    | Deliver(message: nat, line: Line)

  predicate Holds(p: Person, workspace: nat, platform: Platform, userId: Option<string>) {
    p.workspace == workspace && p.platform == platform && Present(userId) && p.userId == userId
  }

  predicate HasPhone(p: Person, workspace: nat, phone: Option<string>) {
    p.workspace == workspace && Present(phone) && p.phone == phone
  }

  /** The unique key (workspace, platform, platform user id). */
  predicate Free(people: map<nat, Person>, workspace: nat, platform: Platform, userId: Option<string>,
                 but: Option<nat>) {
    forall p :: p in people && Some(p) != but ==> !Holds(people[p], workspace, platform, userId)
  }

  function WithConsent(p: Person, consent: Consent): Person {
    p.(consent := consent, suppressed := consent == OptedOut, doNotContact := consent == OptedOut)
  }

  // ----- The webhook -----

  predicate HasEntryFor(entries: map<nat, Entry>, workspace: nat, userId: string) {
    exists e :: e in entries && entries[e].workspace == Some(workspace) && entries[e].platform == Some(Zalo)
      && entries[e].userId == Some(userId)
  }

  function HolderOf(people: map<nat, Person>, workspace: nat, userId: string): set<nat> {
    set p | p in people && Holds(people[p], workspace, Zalo, Some(userId))
  }

  function OptOutAll(people: map<nat, Person>, holders: set<nat>): map<nat, Person> {
    map p | p in people ::
      if p in holders then people[p].(consent := OptedOut, suppressed := true, doNotContact := true) else people[p]
  }

  /** An unfollow or withdraw event: its contact is found or made, opted out, and entered once. */
  function OnWithdraw(s: State, workspace: nat, userId: string, newId: nat, entry: nat): State {
    if userId == "" || newId in s.people || entry in s.entries then s
    else
      var holders := HolderOf(s.people, workspace, userId);
      var people := if holders != {} then s.people
        else s.people[newId := Person(workspace, Zalo, Some(userId), None, Unknown, false, false, false)];
      s.(people := OptOutAll(people, if holders != {} then holders else {newId}),
         entries := if HasEntryFor(s.entries, workspace, userId) then s.entries
                    else s.entries[entry := Entry(Some(workspace), Some(Zalo), Some(userId), None)])
  }

  // ----- Contact operations -----

  function OnBulk(s: State, workspace: nat, people: set<nat>, operation: Operation): State {
    if !(people <= s.people.Keys) then s
    else if exists p <- people :: p in s.people && (s.people[p].workspace != workspace || s.people[p].archived) then s
    else
      s.(people := map p | p in s.people ::
           if p !in people then s.people[p]
           else
             match operation
             case Archive => s.people[p].(archived := true, doNotContact := false)
             case OptIn => WithConsent(s.people[p], OptedIn)
             case OptOut => WithConsent(s.people[p], OptedOut)
             case SuppressOnly => s.people[p].(suppressed := true, doNotContact := true))
  }

  /** The contact a save may have found: by either key, or, in the older import, by user id before phone. */
  predicate MayFind(s: State, input: Upsert, legacy: bool, found: Option<nat>) {
    if legacy && Present(input.userId) then
      match found
      case Some(p) => p in s.people && Holds(s.people[p], input.workspace, input.platform, input.userId)
      case None => forall p :: p in s.people ==> !Holds(s.people[p], input.workspace, input.platform, input.userId)
    else
      match found
      case Some(p) => p in s.people && !s.people[p].archived &&
        (Holds(s.people[p], input.workspace, input.platform, input.userId) || HasPhone(s.people[p], input.workspace,
                                                                                       input.phone))
      case None => forall p :: p in s.people && !s.people[p].archived ==>
        !Holds(s.people[p], input.workspace, input.platform, input.userId)
          && !HasPhone(s.people[p], input.workspace, input.phone)
  }

  /** A found contact takes the platform of the input, and its user id if there is one. */
  function Saved(p: Person, input: Upsert): Person {
    WithConsent(p, input.consent).(
      platform := input.platform,
      userId := if Present(input.userId) then input.userId else p.userId,
      phone := if Present(input.phone) then input.phone else p.phone,
      archived := false)
  }

  function Blank(input: Upsert): Person {
    WithConsent(Person(input.workspace, input.platform, if Present(input.userId) then input.userId else None,
                       if Present(input.phone) then input.phone else None, Unknown, false, false, false), input.consent)
  }

  function OnSave(s: State, input: Upsert, legacy: bool, found: Option<nat>, newId: nat): State {
    if !MayFind(s, input, legacy, found) || newId in s.people then s
    else
      match found
      case Some(p) =>
        if p !in s.people then s
        else
          var after := Saved(s.people[p], input);
          if Free(s.people, after.workspace, after.platform, after.userId,
                  Some(p)) then s.(people := s.people[p := after]) else s
      case None =>
        if Free(s.people, input.workspace, input.platform, input.userId,
                None) then s.(people := s.people[newId := Blank(input)]) else s
  }

  function OnImportRow(s: State, input: Upsert, newId: nat): State {
    if newId in s.people || !MayFind(s, input, false, None) || !Free(s.people, input.workspace, input.platform,
                                                                     input.userId, None) then s
    else s.(people := s.people[newId := Blank(input)])
  }

  // ----- Suppression entries -----

  /** An entry names a phone, or a platform with a user id. */
  predicate WellFormed(e: Entry) {
    && (Present(e.phone) || Present(e.userId)) && (Present(e.userId) ==> e.platform.Some?)
  }

  predicate Covers(e: Entry, p: Person) {
    && (e.workspace.None? || e.workspace == Some(p.workspace))
    && ((Present(p.phone) && e.phone == p.phone)
        || (Present(p.userId) && e.platform == Some(p.platform) && e.userId == p.userId))
  }

  /** Adding an entry marks the contacts it names; a global one opts them out as well. */
  function OnAddEntry(s: State, entry: nat, e: Entry): State {
    if entry in s.entries || !WellFormed(e) then s
    else
      s.(entries := s.entries[entry := e],
         people := map p | p in s.people ::
           if Covers(e, s.people[p]) && (e.workspace.None? || !s.people[p].archived)
           then s.people[p].(suppressed := true, doNotContact := true,
                             consent := if e.workspace.None? then OptedOut else s.people[p].consent)
           else s.people[p])
  }

  // ----- Delivery -----

  predicate Suppressed(s: State, p: Person) {
    (exists e :: e in s.entries && Covers(s.entries[e], p)) || p.suppressed || p.doNotContact
  }

  predicate MaySend(s: State, m: Message, p: Person, line: Line) {
    !line.otherBlock
    && Evaluate(Safety(p.consent, Suppressed(s, p), line.hasPermission, line.capability, true,
                       m.promotional)) == Allowed
  }

  /** A blocked message is done with; one over its rate waits; one that is sent is logged. */
  function OnDeliver(s: State, message: nat, line: Line): State {
    if message !in s.messages || s.messages[message].contact !in s.people then s
    else
      var m := s.messages[message];
      var p := s.people[m.contact];
      var done := s.(messages := s.messages - {message});
      if !MaySend(s, m, p, line) then done
      else if !line.rateAllowed then s
      else (if line.acknowledged then done else s).(sends := s.sends + [Send(m, p)])
  }

  /** A direct message or one of a campaign. Nothing compares the account's platform with the contact's. */
  function OnWrite(s: State, message: nat, person: nat, platform: Platform, promotional: bool): State {
    if message in s.messages || person !in s.people then s
    else
      var p := s.people[person];
      var receiver := match p.userId case Some(id) => User(id) case None => OwnId(person);
      s.(messages := s.messages[message := Message(p.workspace, person, platform, receiver, promotional)])
  }

  predicate MayUnsuppress(s: State, workspace: nat, entry: nat) {
    entry in s.entries && s.entries[entry].workspace == Some(workspace)
  }

  predicate MayRemoveGlobal(s: State, entry: nat) {
    entry in s.entries && s.entries[entry].workspace == None
  }

  function Step(s: State, e: Event): State {
    match e
    case Withdraw(workspace, userId, newId, entry) => OnWithdraw(s, workspace, userId, newId, entry)
    case SetConsent(workspace, p, consent) =>
      if p in s.people && s.people[p].workspace == workspace && !s.people[p].archived
      then s.(people := s.people[p := WithConsent(s.people[p], consent)]) else s
    case Bulk(workspace, people, operation) => OnBulk(s, workspace, people, operation)
    case Save(input, legacy, found, newId) => OnSave(s, input, legacy, found, newId)
    case ImportRow(input, newId) => OnImportRow(s, input, newId)
    case AddEntry(entry, value) => OnAddEntry(s, entry, value)
    case Unsuppress(workspace, entry) => if MayUnsuppress(s, workspace, entry) then s.(entries := s.entries - {entry})
      else s
    case RemoveGlobal(entry) => if MayRemoveGlobal(s, entry) then s.(entries := s.entries - {entry}) else s
    case Write(message, person, platform, promotional) => OnWrite(s, message, person, platform, promotional)
    case Deliver(message, line) => OnDeliver(s, message, line)
  }

  function Run(s: State, es: seq<Event>): State {
    if es == [] then s else Step(Run(s, es[..|es| - 1]), es[|es| - 1])
  }

  // ----- Suppression beats consent -----

  /** Entry `e` stands against the Zalo user `z` in the workspace. */
  predicate Stands(s: State, e: nat, workspace: nat, z: string) {
    && z != "" && e in s.entries && s.entries[e].platform == Some(Zalo) && s.entries[e].userId == Some(z)
    && (s.entries[e].workspace == Some(workspace) || s.entries[e].workspace == None)
  }

  /** An unfollow or withdraw event leaves an entry standing. */
  lemma WithdrawalStands(s: State, workspace: nat, z: string, newId: nat, entry: nat) returns (e: nat)
    requires z != "" && newId !in s.people && entry !in s.entries
    ensures Stands(Step(s, Withdraw(workspace, z, newId, entry)), e, workspace, z)
  {
    e := entry;
    if HasEntryFor(s.entries, workspace, z) {
      e :| e in s.entries && s.entries[e].workspace == Some(workspace) && s.entries[e].platform == Some(Zalo)
        && s.entries[e].userId == Some(z);
    }
  }

  /** An entry that is still there still stands. */
  lemma EntryStays(s: State, ev: Event, e: nat, workspace: nat, z: string)
    requires Stands(s, e, workspace, z) && e in Step(s, ev).entries
    ensures Stands(Step(s, ev), e, workspace, z)
  {
  }

  /** Only the removal that its scope and workspace allow ends an entry. */
  lemma OnlyRemovalLifts(s: State, ev: Event, e: nat)
    requires e in s.entries
    ensures e in Step(s, ev).entries <==>
      !(ev == RemoveGlobal(e) && s.entries[e].workspace.None?)
      && !(s.entries[e].workspace.Some? && ev == Unsuppress(s.entries[e].workspace.value, e))
  {
  }

  lemma StandingBlocks(s: State, e: nat, workspace: nat, z: string, m: Message, p: Person, line: Line)
    requires Stands(s, e, workspace, z) && Holds(p, workspace, Zalo, Some(z))
    ensures !MaySend(s, m, p, line)
  {
    assert Covers(s.entries[e], p);
  }

  predicate SendsNow(s: State, ev: Event) {
    ev.Deliver? && ev.message in s.messages && s.messages[ev.message].contact in s.people && ev.line.rateAllowed
    && MaySend(s, s.messages[ev.message], s.people[s.messages[ev.message].contact], ev.line)
  }

  /** Only a delivery that may send adds to the log, and it adds its message and contact. */
  lemma StepSends(s: State, ev: Event)
    ensures Step(s, ev).sends == s.sends +
      if SendsNow(s, ev) then [Send(s.messages[ev.message], s.people[s.messages[ev.message].contact])] else []
  {
  }

  /** The entry is there at the start, at the end and at every moment between. */
  ghost predicate StandsThroughout(s: State, es: seq<Event>, e: nat) {
    e in Run(s, es).entries && (es == [] || StandsThroughout(s, es[..|es| - 1], e))
  }

  lemma {:induction false} EntryStands(s: State, es: seq<Event>, e: nat, workspace: nat, z: string)
    requires Stands(s, e, workspace, z) && StandsThroughout(s, es, e)
    ensures Stands(Run(s, es), e, workspace, z)
  {
    if es != [] {
      EntryStands(s, es[..|es| - 1], e, workspace, z);
      EntryStays(Run(s, es[..|es| - 1]), es[|es| - 1], e, workspace, z);
    }
  }

  /**
   While an entry stands, no later step sends to a contact holding that Zalo id in that workspace, whatever
   consent edits, bulk actions, imports or saves come between.
   */
  lemma {:induction false} SuppressionBeatsConsent(s: State, es: seq<Event>, e: nat, workspace: nat, z: string)
    requires Stands(s, e, workspace, z) && StandsThroughout(s, es, e)
    ensures var u := Run(s, es);
      && |s.sends| <= |u.sends|
      && forall i :: |s.sends| <= i < |u.sends| ==> !Holds(u.sends[i].person, workspace, Zalo, Some(z))
  {
    if es != [] {
      var k := |es| - 1;
      var v := Run(s, es[..k]);
      SuppressionBeatsConsent(s, es[..k], e, workspace, z);
      EntryStands(s, es[..k], e, workspace, z);
      StepSends(v, es[k]);
      if SendsNow(v, es[k]) {
        var m := v.messages[es[k].message];
        if Holds(v.people[m.contact], workspace, Zalo, Some(z)) {
          StandingBlocks(v, e, workspace, z, m, v.people[m.contact], es[k].line);
        }
      }
    }
  }

  // ----- The receiver, who was copied into the message -----

  predicate AddressedTo(m: Message, workspace: nat, z: string) {
    m.workspace == workspace && m.platform == Zalo && m.receiver == User(z)
  }

  /** The account and the limiter let the message through. */
  predicate Clear(line: Line) {
    !line.otherBlock && line.hasPermission && line.capability == Supported && line.rateAllowed
  }

  /** Nothing suppresses the contact itself, and its consent fits the message. */
  predicate Consenting(s: State, p: Person, promotional: bool) {
    && !p.suppressed && !p.doNotContact && p.consent != OptedOut && (promotional ==> p.consent == OptedIn)
    && forall e :: e in s.entries ==> !Covers(s.entries[e], p)
  }

  /** A waiting message to the user whose contact has come to be, or always was, someone else. */
  predicate SlipsThrough(s: State, ev: Event, workspace: nat, z: string) {
    && ev.Deliver? && ev.message in s.messages && AddressedTo(s.messages[ev.message], workspace, z)
    && s.messages[ev.message].contact in s.people && Clear(ev.line)
    && var p := s.people[s.messages[ev.message].contact];
    !Holds(p, workspace, Zalo, Some(z)) && Consenting(s, p, s.messages[ev.message].promotional)
  }

  /**
   Under a standing entry a delivery addressed to the user goes out exactly if its contact does not hold the id,
   consents, and is free of suppression.
  */
  lemma SendsUnderEntryIff(s: State, ev: Event, e: nat, workspace: nat, z: string)
    requires Stands(s, e, workspace, z)
    requires ev.Deliver? && ev.message in s.messages && AddressedTo(s.messages[ev.message], workspace, z)
    ensures SendsNow(s, ev) <==> SlipsThrough(s, ev, workspace, z)
  {
    if s.messages[ev.message].contact in s.people {
      var p := s.people[s.messages[ev.message].contact];
      if Holds(p, workspace, Zalo, Some(z)) {
        StandingBlocks(s, e, workspace, z, s.messages[ev.message], p, ev.line);
      }
      AllowedIff(Safety(p.consent, Suppressed(s, p), ev.line.hasPermission, ev.line.capability, true,
                        s.messages[ev.message].promotional));
    }
  }

  /** The user has been sent something since the log held `n` sends. */
  ghost predicate ReachedSince(u: State, n: nat, workspace: nat, z: string) {
    exists i :: n <= i < |u.sends| && AddressedTo(u.sends[i].message, workspace, z)
  }

  /** Some event of the run is a delivery that slips through in the state it finds. */
  ghost predicate SomeSlipsThrough(s: State, es: seq<Event>, workspace: nat, z: string) {
    es != [] &&
    (SomeSlipsThrough(s, es[..|es| - 1], workspace, z) || SlipsThrough(Run(s, es[..|es| - 1]), es[|es| - 1], workspace,
                                                                       z))
  }

  /** Which event that is. */
  lemma {:induction false} SlipIsAt(s: State, es: seq<Event>, workspace: nat, z: string) returns (k: nat)
    requires SomeSlipsThrough(s, es, workspace, z)
    ensures k < |es| && SlipsThrough(Run(s, es[..k]), es[k], workspace, z)
  {
    var front := es[..|es| - 1];
    k := |front|;
    if SomeSlipsThrough(s, front, workspace, z) {
      k := SlipIsAt(s, front, workspace, z);
      assert front[..k] == es[..k];
    }
  }

  /**
   While the entry stands, the opted-out user is sent something exactly if some delivery addressed to it
   comes when the message's contact does not hold the id in that workspace, consents, and is free of suppression.
   */
  lemma {:induction false} ReachedUnderEntryIff(s: State, es: seq<Event>, e: nat, workspace: nat, z: string)
    requires Stands(s, e, workspace, z) && StandsThroughout(s, es, e)
    ensures |s.sends| <= |Run(s, es).sends|
    ensures ReachedSince(Run(s, es), |s.sends|, workspace, z) <==> SomeSlipsThrough(s, es, workspace, z)
  {
    if es != [] {
      var front, ev := es[..|es| - 1], es[|es| - 1];
      var v, n := Run(s, front), |s.sends|;
      ReachedUnderEntryIff(s, front, e, workspace, z);
      EntryStands(s, front, e, workspace, z);
      StepSends(v, ev);
      if ev.Deliver? && ev.message in v.messages && AddressedTo(v.messages[ev.message], workspace, z) {
        SendsUnderEntryIff(v, ev, e, workspace, z);
      }
      ReachedGrows(v, Step(v, ev), n, workspace, z);
    }
  }

  lemma ReachedGrows(v: State, u: State, n: nat, workspace: nat, z: string)
    requires n <= |v.sends| && v.sends <= u.sends && |u.sends| <= |v.sends| + 1
    ensures ReachedSince(u, n, workspace, z) <==>
      (ReachedSince(v, n, workspace, z)
       || (|u.sends| > |v.sends| && AddressedTo(u.sends[|v.sends|].message, workspace, z)))
  {
    if ReachedSince(v, n, workspace, z) {
      var i :| n <= i < |v.sends| && AddressedTo(v.sends[i].message, workspace, z);
      assert AddressedTo(u.sends[i].message, workspace, z);
    }
    if ReachedSince(u, n, workspace, z) {
      var i :| n <= i < |u.sends| && AddressedTo(u.sends[i].message, workspace, z);
      assert i < |v.sends| ==> AddressedTo(v.sends[i].message, workspace, z);
    }
  }

  // ----- What brings that about -----

  /** A save found a contact, by phone, under another platform or user id than the one it writes. */
  predicate Reidentifies(s: State, ev: Event) {
    ev.Save? && ev.found.Some? && ev.found.value in s.people &&
    var p := s.people[ev.found.value];
    Saved(p, ev.input).platform != p.platform || Saved(p, ev.input).userId != p.userId
  }

  /** A message is written for an account of another platform than its contact's. */
  predicate CrossesPlatforms(s: State, ev: Event) {
    ev.Write? && ev.person in s.people && s.people[ev.person].platform != ev.platform
  }

  predicate KeepsIdentities(s: State, es: seq<Event>) {
    es == [] ||
    (var v := Run(s, es[..|es| - 1]); var ev := es[|es| - 1];
     KeepsIdentities(s, es[..|es| - 1]) && !Reidentifies(v, ev) && !CrossesPlatforms(v, ev))
  }

  /** Each queued message to a user is addressed to its contact as the contact stands. */
  ghost predicate Addressed(s: State) {
    forall m :: m in s.messages ==> WellAddressed(s.people, s.messages[m])
  }

  predicate WellAddressed(people: map<nat, Person>, m: Message) {
    && m.contact in people && people[m.contact].workspace == m.workspace && people[m.contact].platform == m.platform
    && (m.receiver.User? ==> people[m.contact].userId == Some(m.receiver.id))
  }

  predicate SameIdentity(p: Person, q: Person) {
    p.workspace == q.workspace && p.platform == q.platform && p.userId == q.userId
  }

  lemma IdentitiesStay(s: State, ev: Event)
    requires !Reidentifies(s, ev)
    ensures forall p :: p in s.people ==> p in Step(s, ev).people && SameIdentity(s.people[p], Step(s, ev).people[p])
  {
  }

  lemma MessagesStay(s: State, ev: Event, m: nat)
    requires m in s.messages && m in Step(s, ev).messages
    ensures Step(s, ev).messages[m] == s.messages[m]
  {
  }

  lemma NewMessageIsWellAddressed(s: State, ev: Event, m: nat)
    requires m !in s.messages && m in Step(s, ev).messages && !CrossesPlatforms(s, ev)
    ensures WellAddressed(Step(s, ev).people, Step(s, ev).messages[m])
  {
  }

  lemma StepKeepsAddressed(s: State, ev: Event)
    requires Addressed(s) && !Reidentifies(s, ev) && !CrossesPlatforms(s, ev)
    ensures Addressed(Step(s, ev))
  {
    var u := Step(s, ev);
    IdentitiesStay(s, ev);
    forall m | m in u.messages ensures WellAddressed(u.people, u.messages[m]) {
      if m in s.messages {
        assert WellAddressed(s.people, s.messages[m]);
        MessagesStay(s, ev, m);
      } else {
        NewMessageIsWellAddressed(s, ev, m);
      }
    }
  }

  lemma {:induction false} RunKeepsAddressed(s: State, es: seq<Event>)
    requires Addressed(s) && KeepsIdentities(s, es)
    ensures Addressed(Run(s, es))
  {
    if es != [] {
      RunKeepsAddressed(s, es[..|es| - 1]);
      StepKeepsAddressed(Run(s, es[..|es| - 1]), es[|es| - 1]);
    }
  }

  lemma {:induction false} IdentitiesKeptBefore(s: State, es: seq<Event>, k: nat)
    requires KeepsIdentities(s, es) && k <= |es|
    ensures KeepsIdentities(s, es[..k])
  {
    if k < |es| {
      IdentitiesKeptBefore(s, es[..|es| - 1], k);
      assert es[..|es| - 1][..k] == es[..k];
    } else {
      assert es[..k] == es;
    }
  }

  /**
   While no save gives a contact another identity and no message crosses platforms, the opted-out user is sent nothing
   at all.
  */
  lemma OptedOutUserNotReached(s: State, es: seq<Event>, e: nat, workspace: nat, z: string)
    requires Stands(s, e, workspace, z) && StandsThroughout(s, es, e) && Addressed(s) && KeepsIdentities(s, es)
    ensures !ReachedSince(Run(s, es), |s.sends|, workspace, z)
  {
    ReachedUnderEntryIff(s, es, e, workspace, z);
    if SomeSlipsThrough(s, es, workspace, z) {
      var k := SlipIsAt(s, es, workspace, z);
      IdentitiesKeptBefore(s, es, k);
      RunKeepsAddressed(s, es[..k]);
      NoSlip(Run(s, es[..k]), es[k], workspace, z);
    }
  }

  lemma NoSlip(s: State, ev: Event, workspace: nat, z: string)
    requires Addressed(s) && z != ""
    ensures !SlipsThrough(s, ev, workspace, z)
  {
    if ev.Deliver? && ev.message in s.messages { assert WellAddressed(s.people, s.messages[ev.message]); }
  }

  lemma RunOne(s: State, es: seq<Event>, ev: Event)
    ensures Run(s, es + [ev]) == Step(Run(s, es), ev)
  {
    assert (es + [ev])[..|es|] == es;
  }

  const Line0: Line := Line(false, true, Supported, true, true)

  const Phone: string := "+84901234567"

  const Opted: Person := Person(0, Zalo, Some("z"), Some(Phone), OptedOut, true, true, false)

  const Entry0: Entry := Entry(Some(0), Some(Zalo), Some("z"), None)

  /** A message waits for user "z", who has withdrawn. */
  const Withdrawn: State :=
    State(map[0 := Opted], map[0 := Entry0], map[0 := Message(0, 0, Zalo, User("z"), true)], [])

  /** Someone saves the contact, found by its phone, as a consenting Facebook contact. */
  const Resave: Upsert := Upsert(0, Facebook, None, Some(Phone), OptedIn)

  lemma ResaveMovesTheContact()
    ensures Step(Withdrawn, Save(Resave, false, Some(0), 1)) == Withdrawn.(people := map[0 := Saved(Opted, Resave)])
    ensures Reidentifies(Withdrawn, Save(Resave, false, Some(0), 1))
  {
    assert Free(Withdrawn.people, 0, Facebook, Some("z"), Some(0));
  }

  /** A consenting contact of another platform with the same id: its message to the Zalo user slips through. */
  lemma OtherPlatformSlips(s: State, p: Person)
    requires s.people == map[0 := p] && s.entries == map[0 := Entry0]
    requires s.messages == map[0 := Message(0, 0, Zalo, User("z"), true)]
    requires p.platform == Facebook && p.consent == OptedIn && !p.suppressed && !p.doNotContact
    ensures SlipsThrough(s, Deliver(0, Line0), 0, "z")
  {
    assert !Covers(s.entries[0], p);
  }

  /** Two events, the second a delivery that slips through. */
  lemma ReachedInTwo(s: State, a: Event, b: Event, e: nat, workspace: nat, z: string)
    requires Stands(s, e, workspace, z) && e in Step(s, a).entries && SlipsThrough(Step(s, a), b, workspace, z)
    ensures StandsThroughout(s, [] + [a] + [b], e)
    ensures ReachedSince(Run(s, [] + [a] + [b]), |s.sends|, workspace, z)
  {
    var first, es := [] + [a], [] + [a] + [b];
    RunOne(s, [], a);
    RunOne(s, first, b);
    assert first[..|first| - 1] == [] && es[..|es| - 1] == first;
    assert StandsThroughout(s, first, e);
    ReachedUnderEntryIff(s, es, e, workspace, z);
  }

  /** Such a save does let the waiting message go to the Zalo user, with the entry standing. */
  lemma SavedUnderAnotherPlatform(es: seq<Event>)
    requires es == [] + [Save(Resave, false, Some(0), 1)] + [Deliver(0, Line0)]
    ensures Stands(Withdrawn, 0, 0, "z") && Addressed(Withdrawn) && StandsThroughout(Withdrawn, es, 0)
    ensures ReachedSince(Run(Withdrawn, es), 0, 0, "z")
  {
    var save := Save(Resave, false, Some(0), 1);
    ResaveMovesTheContact();
    OtherPlatformSlips(Step(Withdrawn, save), Saved(Opted, Resave));
    ReachedInTwo(Withdrawn, save, Deliver(0, Line0), 0, 0, "z");
  }

  /** A consenting Facebook contact whose id is "z", the id of a Zalo user who has withdrawn. */
  const Namesake: State :=
    State(map[0 := Person(0, Facebook, Some("z"), None, OptedIn, false, false, false)], map[0 := Entry0], map[], [])

  lemma WritingKeepsTheRest()
    ensures Step(Namesake, Write(0, 0, Zalo, true))
         == Namesake.(messages := map[0 := Message(0, 0, Zalo, User("z"), true)])
  {
  }

  /** So does a message to that contact through a Zalo account, with no save at all. */
  lemma WrittenAcrossPlatforms(es: seq<Event>)
    requires es == [] + [Write(0, 0, Zalo, true)] + [Deliver(0, Line0)]
    ensures Stands(Namesake, 0, 0, "z") && Addressed(Namesake) && StandsThroughout(Namesake, es, 0)
    ensures ReachedSince(Run(Namesake, es), 0, 0, "z")
  {
    var write := Write(0, 0, Zalo, true);
    WritingKeepsTheRest();
    OtherPlatformSlips(Step(Namesake, write), Namesake.people[0]);
    ReachedInTwo(Namesake, write, Deliver(0, Line0), 0, 0, "z");
  }

  // ----- The steps as the services take them -----

  class ContactStore {
    var people: map<nat, Person>
    var entries: map<nat, Entry>
    var messages: map<nat, Message>
    var sends: seq<Send>

    ghost function At(): State
      reads this
    {
      State(people, entries, messages, sends)
    }

    constructor ()
      ensures At() == State(map[], map[], map[], [])
    {
      people, entries, messages, sends := map[], map[], map[], [];
    }

    /** updateConsent; false stands for its not-found error. */
    method UpdateConsent(workspace: nat, person: nat, consent: Consent) returns (ok: bool)
      modifies this`people
      ensures At() == Step(old(At()), SetConsent(workspace, person, consent))
      ensures ok ==
        (person in old(people) && old(people)[person].workspace == workspace && !old(people)[person].archived)
    {
      ok := person in people && people[person].workspace == workspace && !people[person].archived;
      if ok { people := people[person := WithConsent(people[person], consent)]; }
    }

    /** The opt-out part of processZaloWebhook. */
    method ProcessWithdrawal(workspace: nat, userId: string, newId: nat, entry: nat)
      requires userId != "" && newId !in people && entry !in entries
      modifies this`people, this`entries
      ensures At() == Step(old(At()), Withdraw(workspace, userId, newId, entry))
      ensures exists e :: Stands(At(), e, workspace, userId)
    {
      ghost var s := At();
      ghost var e := WithdrawalStands(s, workspace, userId, newId, entry);
      var holders := HolderOf(people, workspace, userId);
      if holders == {} {
        people := people[newId := Person(workspace, Zalo, Some(userId), None, Unknown, false, false, false)];
        holders := {newId};
      }
      var known := HasEntryFor(entries, workspace, userId);
      people := OptOutAll(people, holders);
      if !known { entries := entries[entry := Entry(Some(workspace), Some(Zalo), Some(userId), None)]; }
      assert people == OnWithdraw(s, workspace, userId, newId, entry).people;
      assert Stands(At(), e, workspace, userId);
    }

    /** suppress, and addGlobalSuppression where no such entry exists. */
    method AddSuppression(entry: nat, e: Entry) returns (ok: bool)
      requires entry !in entries
      modifies this`people, this`entries
      ensures At() == Step(old(At()), AddEntry(entry, e)) && ok == WellFormed(e)
    {
      ok := WellFormed(e);
      if ok {
        entries := entries[entry := e];
        people := map p | p in people ::
          if Covers(e, people[p]) && (e.workspace.None? || !people[p].archived)
          then people[p].(suppressed := true, doNotContact := true, consent := if e.workspace.None? then OptedOut
            else people[p].consent)
          else people[p];
      }
    }

    /** unsuppress; false stands for its not-found error. */
    method LiftSuppression(workspace: nat, entry: nat) returns (ok: bool)
      modifies this`entries
      ensures At() == Step(old(At()), Unsuppress(workspace, entry)) && ok == MayUnsuppress(old(At()), workspace, entry)
    {
      ok := entry in entries && entries[entry].workspace == Some(workspace);
      if ok { entries := entries - {entry}; }
    }

    /** removeGlobalSuppression. */
    method LiftGlobalSuppression(entry: nat) returns (ok: bool)
      modifies this`entries
      ensures At() == Step(old(At()), RemoveGlobal(entry)) && ok == MayRemoveGlobal(old(At()), entry)
    {
      ok := entry in entries && entries[entry].workspace.None?;
      if ok { entries := entries - {entry}; }
    }

    /** The write of a message, by a direct send or a campaign. */
    method WriteMessage(message: nat, person: nat, platform: Platform, promotional: bool)
      requires message !in messages && person in people
      modifies this`messages
      ensures At() == Step(old(At()), Write(message, person, platform, promotional))
      ensures message in messages
      ensures WellAddressed(people, messages[message]) <==> people[person].platform == platform
    {
      var p := people[person];
      var receiver := if p.userId.Some? then User(p.userId.value) else OwnId(person);
      messages := messages[message := Message(p.workspace, person, platform, receiver, promotional)];
    }

    /** The safety part of processMessage, and the send. */
    method ProcessMessage(message: nat, line: Line) returns (sent: bool)
      modifies this`messages, this`sends
      ensures At() == Step(old(At()), Deliver(message, line))
      ensures sent == (|sends| > |old(sends)|)
    {
      sent := false;
      if message !in messages || messages[message].contact !in people { return; }
      var m := messages[message];
      var p := people[m.contact];
      if line.otherBlock { messages := messages - {message}; return; }
      var suppression := exists e :: e in entries && Covers(entries[e], p);
      var decision := Evaluate(Safety(p.consent, suppression || p.suppressed || p.doNotContact,
                                      line.hasPermission, line.capability, true, m.promotional));
      if decision != Allowed { messages := messages - {message}; return; }
      if !line.rateAllowed { return; }
      sends := sends + [Send(m, p)];
      sent := true;
      if line.acknowledged { messages := messages - {message}; }
    }
  }
}
