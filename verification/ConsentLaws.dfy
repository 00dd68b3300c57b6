/** What the consent operations write into the contacts, and what a contact's own consent means for later deliveries. */
module ConsentLaws {
  import opened Options
  import opened ImportModel
  import opened Suppression

  // ----- What each operation writes -----

  /** The contact as before, but for what is known of its consent. */
  predicate SameButConsent(p: Person, q: Person) {
    && q.workspace == p.workspace && q.platform == p.platform && q.userId == p.userId && q.phone == p.phone
    && q.archived == p.archived
  }

  /** The contact has this consent, and is suppressed and not to be contacted exactly if it opted out. */
  predicate Has(q: Person, consent: Consent) {
    && q.consent == consent
    && q.suppressed == (consent == OptedOut) && q.doNotContact == (consent == OptedOut)
  }

  /** All contacts but these are untouched, and so are entries, messages and sends. */
  ghost predicate OnlyTheseContacts(s: State, u: State, people: set<nat>) {
    && u.people.Keys == s.people.Keys && u.entries == s.entries && u.messages == s.messages && u.sends == s.sends
    && forall p :: p in s.people && p !in people ==> u.people[p] == s.people[p]
  }

  predicate Editable(s: State, workspace: nat, p: nat) {
    p in s.people && s.people[p].workspace == workspace && !s.people[p].archived
  }

  /** A consent edit writes the consent asked for to the contact named, and nothing else anywhere. */
  lemma ConsentEditWrites(s: State, workspace: nat, p: nat, consent: Consent)
    ensures var u := Step(s, SetConsent(workspace, p, consent));
      if Editable(s, workspace, p)
      then OnlyTheseContacts(s, u, {p}) && SameButConsent(s.people[p], u.people[p]) && Has(u.people[p], consent)
      else u == s
  {
  }

  /** What a bulk operation makes of each contact named. */
  predicate BulkResult(operation: Operation, p: Person, q: Person) {
    match operation
    case OptIn => SameButConsent(p, q) && Has(q, OptedIn)
    case OptOut => SameButConsent(p, q) && Has(q, OptedOut)
    case SuppressOnly => SameButConsent(p, q) && q.consent == p.consent && q.suppressed && q.doNotContact
    case Archive =>
      SameButConsent(p.(archived := true), q) && q.consent == p.consent && q.suppressed == p.suppressed
      && !q.doNotContact
  }

  /** A bulk operation does so to all contacts named, or, if one of them is not a live one here, to none. */
  lemma BulkWrites(s: State, workspace: nat, people: set<nat>, operation: Operation)
    ensures var u := Step(s, Bulk(workspace, people, operation));
      if forall p :: p in people ==> Editable(s, workspace, p)
      then OnlyTheseContacts(s, u, people)
           && forall p :: p in people ==> BulkResult(operation, s.people[p], u.people[p])
      else u == s
  {
    var u := Step(s, Bulk(workspace, people, operation));
    if forall p :: p in people ==> Editable(s, workspace, p) {
      assert people <= s.people.Keys;
      assert u.people.Keys == s.people.Keys;
    }
  }

  /** A save that goes through leaves one contact with the platform, consent, id and phone of its input. */
  lemma SaveWrites(s: State, input: Upsert, legacy: bool, found: Option<nat>, newId: nat)
    ensures var u := Step(s, Save(input, legacy, found, newId)); var p := if found.Some? then found.value else newId;
      u == s ||
      (&& p in u.people && u.entries == s.entries && u.messages == s.messages && u.sends == s.sends
       && u.people.Keys == s.people.Keys + {p}
       && (forall q :: q in s.people && q != p ==> u.people[q] == s.people[q])
       && Has(u.people[p], input.consent) && !u.people[p].archived && u.people[p].platform == input.platform
       && (Present(input.userId) ==> u.people[p].userId == input.userId)
       && (Present(input.phone) ==> u.people[p].phone == input.phone)
       && (found.Some? && p in s.people ==> u.people[p].workspace == s.people[p].workspace)
       && (found.None? ==> p !in s.people && u.people[p].workspace == input.workspace))
  {
  }

  /** Another contact, archived ones included, holds the id on the platform in the workspace. */
  ghost predicate Taken(s: State, workspace: nat, platform: Platform, userId: Option<string>, but: Option<nat>) {
    exists q :: q in s.people && Some(q) != but && s.people[q].workspace == workspace
      && s.people[q].platform == platform && userId != None && userId != Some("") && s.people[q].userId == userId
  }

  lemma TakenIsNotFree(s: State, workspace: nat, platform: Platform, userId: Option<string>, but: Option<nat>)
    ensures Taken(s, workspace, platform, userId, but) <==> !Free(s.people, workspace, platform, userId, but)
  {
    if !Free(s.people, workspace, platform, userId, but) {
      var q :| q in s.people && Some(q) != but && Holds(s.people[q], workspace, platform, userId);
      assert s.people[q].userId == userId;
    }
  }

  /** A save goes through exactly if no other contact holds the id the saved contact would have. */
  lemma SaveGoesThroughIff(s: State, input: Upsert, legacy: bool, found: Option<nat>, newId: nat)
    requires MayFind(s, input, legacy, found) && newId !in s.people
    ensures var u := Step(s, Save(input, legacy, found, newId));
      match found
      case None => newId in u.people <==> !Taken(s, input.workspace, input.platform, input.userId, None)
      case Some(p) =>
        p in s.people &&
        var id := if Present(input.userId) then input.userId else s.people[p].userId;
        if Taken(s, s.people[p].workspace, input.platform, id, found) then u == s
        else p in u.people && Has(u.people[p], input.consent) && u.people[p].userId == id
  {
    match found
    case None => TakenIsNotFree(s, input.workspace, input.platform, input.userId, None);
    case Some(p) =>
      var id := if Present(input.userId) then input.userId else s.people[p].userId;
      TakenIsNotFree(s, s.people[p].workspace, input.platform, id, found);
  }

  /**
   An imported row adds a contact of its own, which has the consent of its row, exactly if no live contact has its
   phone or id and no archived one its id.
  */
  lemma ImportRowWrites(s: State, input: Upsert, newId: nat)
    requires newId !in s.people
    ensures Step(s, Event.ImportRow(input, newId)) != s <==>
      !Taken(s, input.workspace, input.platform, input.userId, None) && !PhoneTaken(s, input.workspace, input.phone)
    ensures var u := Step(s, Event.ImportRow(input, newId));
      u == s ||
      (&& newId !in s.people && u == s.(people := s.people[newId := u.people[newId]])
       && newId in u.people && Has(u.people[newId], input.consent) && !u.people[newId].archived
       && u.people[newId].workspace == input.workspace && u.people[newId].platform == input.platform)
  {
    TakenIsNotFree(s, input.workspace, input.platform, input.userId, None);
    if PhoneTaken(s, input.workspace, input.phone) {
      var q :| q in s.people && !s.people[q].archived && s.people[q].workspace == input.workspace
        && input.phone != None && input.phone != Some("") && s.people[q].phone == input.phone;
      assert HasPhone(s.people[q], input.workspace, input.phone);
    }
  }

  ghost predicate PhoneTaken(s: State, workspace: nat, phone: Option<string>) {
    exists q :: q in s.people && !s.people[q].archived && s.people[q].workspace == workspace
      && phone != None && phone != Some("") && s.people[q].phone == phone
  }

  /** An unfollow or withdrawal opts out every contact that holds the id, or the one made for it, and no other. */
  lemma WithdrawalWrites(s: State, workspace: nat, z: string, newId: nat, entry: nat)
    requires z != "" && newId !in s.people && entry !in s.entries
    ensures var u := Step(s, Withdraw(workspace, z, newId, entry));
      && u.messages == s.messages && u.sends == s.sends
      && (forall p :: p in s.people ==>
            && p in u.people && SameButConsent(s.people[p], u.people[p])
            && (if Holds(s.people[p], workspace, Zalo, Some(z)) then Has(u.people[p], OptedOut)
                else u.people[p] == s.people[p]))
      && (newId in u.people <==> forall p :: p in s.people ==> !Holds(s.people[p], workspace, Zalo, Some(z)))
      && (newId in u.people ==>
            Holds(u.people[newId], workspace, Zalo, Some(z)) && Has(u.people[newId], OptedOut))
  {
    var u := Step(s, Withdraw(workspace, z, newId, entry));
    var holders := HolderOf(s.people, workspace, z);
    assert forall p :: p in holders <==> p in s.people && Holds(s.people[p], workspace, Zalo, Some(z));
  }

  /** An entry suppresses the live contacts it names; one of global scope opts them out, archived ones included. */
  lemma EntryWrites(s: State, entry: nat, e: Entry)
    requires entry !in s.entries && (Present(e.phone) || Present(e.userId))
    requires Present(e.userId) ==> e.platform != None
    ensures var u := Step(s, AddEntry(entry, e));
      && u.entries == s.entries[entry := e] && u.messages == s.messages && u.sends == s.sends
      && u.people.Keys == s.people.Keys
      && forall p :: p in s.people ==>
           && SameButConsent(s.people[p], u.people[p])
           && (if Covers(e, s.people[p]) && (e.workspace == None || !s.people[p].archived)
               then u.people[p].suppressed && u.people[p].doNotContact
                    && u.people[p].consent == (if e.workspace == None then OptedOut else s.people[p].consent)
               else u.people[p] == s.people[p])
  {
  }

  // ----- When a delivery sends -----

  /** Nothing at the account, the platform or the limiter speaks against a send. */
  predicate Clear(line: Line) {
    !line.otherBlock && line.hasPermission && line.capability == Supported && line.rateAllowed
  }

  /** The contact may be sent such a message, as far as its own record goes. */
  predicate Willing(p: Person, promotional: bool) {
    !p.suppressed && !p.doNotContact && (if promotional then p.consent == OptedIn else p.consent != OptedOut)
  }

  /** An entry names the contact, by phone or by platform and user id, in its workspace or everywhere. */
  ghost predicate Listed(s: State, p: Person) {
    exists e :: e in s.entries
      && (s.entries[e].workspace == None || s.entries[e].workspace == Some(p.workspace))
      && ((p.phone != None && p.phone != Some("") && s.entries[e].phone == p.phone)
          || (p.userId != None && p.userId != Some("") && s.entries[e].userId == p.userId
              && s.entries[e].platform == Some(p.platform)))
  }

  /** A delivery sends exactly if its message waits, line and contact agree, and no entry names the contact. */
  lemma DeliverySendsIff(s: State, message: nat, line: Line)
    ensures var u := Step(s, Deliver(message, line));
      u.sends != s.sends <==>
        && message in s.messages && s.messages[message].contact in s.people && Clear(line)
        && Willing(s.people[s.messages[message].contact], s.messages[message].promotional)
        && !Listed(s, s.people[s.messages[message].contact])
  {
    StepSends(s, Deliver(message, line));
    if message in s.messages && s.messages[message].contact in s.people {
      var p := s.people[s.messages[message].contact];
      AllowedIff(Safety(p.consent, Suppressed(s, p), line.hasPermission, line.capability, true,
                        s.messages[message].promotional));
      ListedIsCovered(s, p);
    }
  }

  lemma ListedIsCovered(s: State, p: Person)
    ensures Listed(s, p) <==> exists e :: e in s.entries && Covers(s.entries[e], p)
  {
    if Listed(s, p) {
      var e :| e in s.entries
        && (s.entries[e].workspace == None || s.entries[e].workspace == Some(p.workspace))
        && ((p.phone != None && p.phone != Some("") && s.entries[e].phone == p.phone)
            || (p.userId != None && p.userId != Some("") && s.entries[e].userId == p.userId
                && s.entries[e].platform == Some(p.platform)));
      assert Covers(s.entries[e], p);
    }
  }

  /** A message waits on only if the limiter held it up, or its send was not acknowledged. */
  lemma DeliveryEndsMessageIff(s: State, message: nat, line: Line)
    requires message in s.messages && s.messages[message].contact in s.people
    ensures var u := Step(s, Deliver(message, line)); var m := s.messages[message]; var p := s.people[m.contact];
      && (message in u.messages <==>
            Clear(line.(rateAllowed := true)) && Willing(p, m.promotional) && !Listed(s, p)
            && (!line.rateAllowed || !line.acknowledged))
      && (forall x :: x in s.messages && x != message ==> x in u.messages && u.messages[x] == s.messages[x])
  {
    DeliverySendsIff(s, message, line.(rateAllowed := true));
    StepSends(s, Deliver(message, line.(rateAllowed := true)));
  }

  // ----- Over runs, without any entry -----

  /** A consent edit, a bulk opt-in or opt-out, or a save, of this contact. */
  predicate EditsConsentOf(ev: Event, p: nat) {
    match ev
    case SetConsent(_, q, _) => q == p
    case Bulk(_, people, operation) => p in people && operation in {OptIn, OptOut}
    case Save(_, _, found, _) => found == Some(p)
    case _ => false
  }

  lemma StaysOut(s: State, ev: Event, p: nat)
    requires p in s.people && s.people[p].consent == OptedOut && !EditsConsentOf(ev, p)
    ensures p in Step(s, ev).people && Step(s, ev).people[p].consent == OptedOut
  {
  }

  lemma OutIsNotSent(s: State, ev: Event, p: nat)
    requires p in s.people && s.people[p].consent == OptedOut
    ensures s.sends <= Step(s, ev).sends
    ensures forall i :: |s.sends| <= i < |Step(s, ev).sends| ==> Step(s, ev).sends[i].message.contact != p
  {
    StepSends(s, ev);
  }

  /**
   Once a contact has opted out, nothing is sent to it until an operation edits its consent, whatever messages
   are written and delivered, and whether or not there is any suppression entry.
  */
  lemma {:induction false} OptOutHolds(s: State, es: seq<Event>, p: nat)
    requires p in s.people && s.people[p].consent == OptedOut
    requires forall ev <- es :: !EditsConsentOf(ev, p)
    ensures var u := Run(s, es);
      && p in u.people && u.people[p].consent == OptedOut && s.sends <= u.sends
      && forall i :: |s.sends| <= i < |u.sends| ==> u.sends[i].message.contact != p
  {
    if es != [] {
      var front, ev := es[..|es| - 1], es[|es| - 1];
      OptOutHolds(s, front, p);
      assert ev in es;
      StaysOut(Run(s, front), ev, p);
      OutIsNotSent(Run(s, front), ev, p);
    }
  }

  /** From the edit itself on. */
  lemma EditedOutIsNotReached(s: State, workspace: nat, p: nat, es: seq<Event>)
    requires Editable(s, workspace, p) && forall ev <- es :: !EditsConsentOf(ev, p)
    ensures var u := Run(Step(s, SetConsent(workspace, p, OptedOut)), es);
      && s.sends <= u.sends && forall i :: |s.sends| <= i < |u.sends| ==> u.sends[i].message.contact != p
  {
    ConsentEditWrites(s, workspace, p, OptedOut);
    OptOutHolds(Step(s, SetConsent(workspace, p, OptedOut)), es, p);
  }

  /** After an opt-in, a promotional message on a clear line is sent, exactly if no entry names the contact. */
  lemma EditedInIsReachedIff(s: State, workspace: nat, p: nat, message: nat, line: Line)
    requires Editable(s, workspace, p) && Clear(line)
    requires message in s.messages && s.messages[message].contact == p
    ensures var u := Step(s, SetConsent(workspace, p, OptedIn)); var v := Step(u, Deliver(message, line));
      if Listed(s, s.people[p]) then v.sends == s.sends
      else |v.sends| == |s.sends| + 1 && v.sends[|s.sends|].message == s.messages[message]
  {
    ConsentEditWrites(s, workspace, p, OptedIn);
    var u := Step(s, SetConsent(workspace, p, OptedIn));
    assert Listed(u, u.people[p]) <==> Listed(s, s.people[p]);
    DeliverySendsIff(u, message, line);
    StepSends(u, Deliver(message, line));
  }
}
