/** The fan-out of a campaign over its audience: what one run does, run again, and run after a cut. */
module FanOut {

  /** The statuses of a message; DELIVERED and READ are never written for a campaign message. */
  datatype Delivery = Queued | Sending | Sent | Undelivered | Blocked

  /** A row of the audience; `included` is its status INCLUDED. */
  datatype Member = Member(contact: nat, included: bool)

  /** What the fan-out looks at in a contact. */
  datatype Recipient = Recipient(synthetic: bool, samePlatform: bool, hasUserId: bool, suppressed: bool, optedIn: bool)

  /** Messages, campaign messages and send jobs by contact; a job holds the attempts made. */
  datatype Tables = Tables(
    messages: map<nat, Delivery>,
    links: map<nat, Delivery>,
    jobs: map<nat, nat>,
    queued: nat,
    blocked: nat
  )

  predicate MayReceive(r: Recipient, promotional: bool) {
    !r.synthetic && r.samePlatform && r.hasUserId && !r.suppressed && (!promotional || r.optedIn)
  }

  /** The contacts a run finds fit to receive the message. */
  function Fit(recipients: map<nat, Recipient>, promotional: bool): set<nat> {
    set c | c in recipients && MayReceive(recipients[c], promotional)
  }

  /** One turn of the fan-out loop. */
  function Serve(t: Tables, m: Member, fit: set<nat>): Tables {
    if !m.included then t.(links := t.links[m.contact := Blocked], blocked := t.blocked + 1)
    else if m.contact in t.messages then t
    else if m.contact in fit then
      t.(messages := t.messages[m.contact := Queued], links := t.links[m.contact := Queued],
         jobs := t.jobs[m.contact := 0], queued := t.queued + 1)
    else
      t.(messages := t.messages[m.contact := Blocked], links := t.links[m.contact := Blocked], blocked := t.blocked + 1)
  }

  function ServeAll(t: Tables, audience: seq<Member>, fit: set<nat>): Tables {
    if audience == [] then t
    else Serve(ServeAll(t, audience[..|audience| - 1], fit), audience[|audience| - 1], fit)
  }

  /** The audience has each contact once. */
  predicate Distinct(audience: seq<Member>) {
    forall i, j :: 0 <= i < j < |audience| ==> audience[i].contact != audience[j].contact
  }

  function ContactsOf(audience: seq<Member>): set<nat> {
    set i | 0 <= i < |audience| :: audience[i].contact
  }

  // ----- What a run leaves for each contact -----

  /** Two states of the tables that agree on everything kept for contact `c`. */
  predicate SameFor(t: Tables, u: Tables, c: nat) {
    && (c in t.messages <==> c in u.messages) && (c in t.links <==> c in u.links) && (c in t.jobs <==> c in u.jobs)
    && (c in t.messages && c in u.messages ==> t.messages[c] == u.messages[c])
    && (c in t.links && c in u.links ==> t.links[c] == u.links[c])
    && (c in t.jobs && c in u.jobs ==> t.jobs[c] == u.jobs[c])
  }

  lemma ServeTouchesOne(t: Tables, m: Member, fit: set<nat>, c: nat)
    requires c != m.contact
    ensures SameFor(t, Serve(t, m, fit), c)
  {
  }

  lemma ServeLooksAtOne(t: Tables, u: Tables, m: Member, fit: set<nat>)
    requires SameFor(t, u, m.contact)
    ensures SameFor(Serve(t, m, fit), Serve(u, m, fit), m.contact)
  {
  }

  /** A contact outside the audience is not touched. */
  lemma {:induction false} OthersUntouched(t: Tables, audience: seq<Member>, fit: set<nat>, c: nat)
    requires c !in ContactsOf(audience)
    ensures SameFor(t, ServeAll(t, audience, fit), c)
  {
    if audience != [] {
      var front, last := audience[..|audience| - 1], audience[|audience| - 1];
      assert last.contact in ContactsOf(audience);
      assert ContactsOf(front) <= ContactsOf(audience);
      OthersUntouched(t, front, fit, c);
      ServeTouchesOne(ServeAll(t, front, fit), last, fit, c);
    }
  }

  /** A member gets exactly what serving that member alone would give. */
  lemma {:induction false} EachServedAlone(t: Tables, audience: seq<Member>, fit: set<nat>, i: nat)
    requires Distinct(audience) && i < |audience|
    ensures SameFor(ServeAll(t, audience, fit), Serve(t, audience[i], fit), audience[i].contact)
  {
    var k := |audience| - 1;
    var front, last := audience[..k], audience[k];
    if i == k {
      assert last.contact !in ContactsOf(front);
      OthersUntouched(t, front, fit, last.contact);
      ServeLooksAtOne(t, ServeAll(t, front, fit), last, fit);
    } else {
      EachServedAlone(t, front, fit, i);
      ServeTouchesOne(ServeAll(t, front, fit), last, fit, audience[i].contact);
    }
  }

  lemma SameEverywhere(t: Tables, u: Tables)
    requires forall c: nat :: SameFor(t, u, c)
    ensures t.messages == u.messages && t.links == u.links && t.jobs == u.jobs
  {
    forall c: nat
      ensures (c in t.messages <==> c in u.messages) && (c in t.links <==> c in u.links)
      ensures (c in t.jobs <==> c in u.jobs)
    {
      assert SameFor(t, u, c);
    }
    forall c: nat | c in t.messages ensures t.messages[c] == u.messages[c] { assert SameFor(t, u, c); }
    forall c: nat | c in t.links ensures t.links[c] == u.links[c] { assert SameFor(t, u, c); }
    forall c: nat | c in t.jobs ensures t.jobs[c] == u.jobs[c] { assert SameFor(t, u, c); }
  }

  lemma ServedTwice(t: Tables, m: Member, fit: set<nat>, again: set<nat>)
    ensures SameFor(Serve(t, m, fit), Serve(Serve(t, m, fit), m, again), m.contact)
  {
  }

  lemma SameForIsTransitive(t: Tables, u: Tables, v: Tables, c: nat)
    requires SameFor(t, u, c) && SameFor(u, v, c)
    ensures SameFor(t, v, c) && SameFor(u, t, c)
  {
  }

  lemma MemberTwice(t: Tables, audience: seq<Member>, fit: set<nat>, again: set<nat>, i: nat)
    requires Distinct(audience) && i < |audience|
    ensures SameFor(ServeAll(t, audience, fit), ServeAll(ServeAll(t, audience, fit), audience, again),
                    audience[i].contact)
  {
    var m := audience[i];
    var u, one := ServeAll(t, audience, fit), Serve(t, m, fit);
    EachServedAlone(t, audience, fit, i);
    EachServedAlone(u, audience, again, i);
    ServedTwice(t, m, fit, again);
    ServeLooksAtOne(u, one, m, again);
    SameForIsTransitive(one, u, u, m.contact);
    SameForIsTransitive(Serve(one, m, again), Serve(u, m, again), ServeAll(u, audience, again), m.contact);
    SameForIsTransitive(u, one, Serve(one, m, again), m.contact);
    SameForIsTransitive(u, Serve(one, m, again), ServeAll(u, audience, again), m.contact);
  }

  lemma TwiceFor(t: Tables, audience: seq<Member>, fit: set<nat>, again: set<nat>, c: nat)
    requires Distinct(audience)
    ensures SameFor(ServeAll(t, audience, fit), ServeAll(ServeAll(t, audience, fit), audience, again), c)
  {
    if c in ContactsOf(audience) {
      var i :| 0 <= i < |audience| && audience[i].contact == c;
      MemberTwice(t, audience, fit, again, i);
    } else {
      OthersUntouched(ServeAll(t, audience, fit), audience, again, c);
    }
  }

  /** A second run, whoever it finds fit, changes no message, campaign message or job. */
  lemma RunTwiceIsRunOnce(t: Tables, audience: seq<Member>, fit: set<nat>, again: set<nat>)
    requires Distinct(audience)
    ensures var u := ServeAll(t, audience, fit); var v := ServeAll(u, audience, again);
      v.messages == u.messages && v.links == u.links && v.jobs == u.jobs
  {
    forall c: nat
      ensures SameFor(ServeAll(t, audience, fit), ServeAll(ServeAll(t, audience, fit), audience, again), c)
    {
      TwiceFor(t, audience, fit, again, c);
    }
    SameEverywhere(ServeAll(t, audience, fit), ServeAll(ServeAll(t, audience, fit), audience, again));
  }

  /** A message whose campaign message was never written: an earlier run was cut between the two. */
  predicate Orphan(t: Tables, m: Member) {
    m.included && m.contact in t.messages && m.contact !in t.links
  }

  /** A full run gives every member a campaign message, exactly when no orphan was left before it. */
  lemma FullRunLinksAllIff(t: Tables, audience: seq<Member>, fit: set<nat>)
    requires Distinct(audience)
    ensures (forall m <- audience :: m.contact in ServeAll(t, audience, fit).links) <==>
      (forall m <- audience :: !Orphan(t, m))
  {
    var u := ServeAll(t, audience, fit);
    forall i | 0 <= i < |audience| ensures audience[i].contact in u.links <==> !Orphan(t, audience[i]) {
      EachServedAlone(t, audience, fit, i);
    }
    if m :| m in audience && m.contact !in u.links {
      assert Orphan(t, m);
    }
  }

  /** A QUEUED campaign message nobody will send: an earlier run was cut before its job was queued. */
  predicate Stranded(t: Tables, m: Member) {
    m.contact in t.links && t.links[m.contact] == Queued && m.contact !in t.jobs
  }

  /** A full run neither strands an included member nor rescues one. */
  lemma FullRunStrands(t: Tables, audience: seq<Member>, fit: set<nat>, i: nat)
    requires Distinct(audience) && i < |audience| && audience[i].included
    requires audience[i].contact in t.links ==> audience[i].contact in t.messages
    ensures Stranded(ServeAll(t, audience, fit), audience[i]) <==> Stranded(t, audience[i])
  {
    EachServedAlone(t, audience, fit, i);
  }

  /**
   A full run queues a message for exactly the included members that had none and whose contact is a real one of
   this platform with a user id, free of suppression, and opted in if the campaign promotes.
  */
  lemma QueuedIff(t: Tables, audience: seq<Member>, recipients: map<nat, Recipient>, promotional: bool, i: nat)
    requires Distinct(audience) && i < |audience| && audience[i].contact !in t.messages
    ensures var c := audience[i].contact;
      var u := ServeAll(t, audience, Fit(recipients, promotional));
      (c in u.messages && u.messages[c] == Queued && c in u.jobs && u.jobs[c] == 0) <==>
        && audience[i].included && c in recipients
        && recipients[c].synthetic == false && recipients[c].samePlatform == true && recipients[c].hasUserId == true
        && recipients[c].suppressed == false && (promotional ==> recipients[c].optedIn == true)
  {
    EachServedAlone(t, audience, Fit(recipients, promotional), i);
  }

  ghost predicate Shown(links: map<nat, Delivery>, audience: seq<Member>, d: Delivery) {
    exists i :: 0 <= i < |audience| && audience[i].contact in links && links[audience[i].contact] == d
  }

  lemma StillShown(links: map<nat, Delivery>, after: map<nat, Delivery>, audience: seq<Member>, k: nat, d: Delivery)
    requires k < |audience| && Shown(links, audience[..k], d) && Distinct(audience)
    requires forall c :: c in links && c != audience[k].contact ==> c in after && after[c] == links[c]
    ensures Shown(after, audience, d)
  {
    var i :| 0 <= i < k && audience[..k][i].contact in links && links[audience[..k][i].contact] == d;
    assert audience[i].contact in after;
  }

  /** The counters of a run never claim what the campaign messages do not show. */
  lemma {:induction false} CountersShow(t: Tables, audience: seq<Member>, fit: set<nat>)
    requires Distinct(audience) && t.queued == 0 && t.blocked == 0
    ensures var u := ServeAll(t, audience, fit);
      (u.queued > 0 ==> Shown(u.links, audience, Queued)) && (u.blocked > 0 ==> Shown(u.links, audience, Blocked))
  {
    if audience != [] {
      var k := |audience| - 1;
      var before := ServeAll(t, audience[..k], fit);
      var u := Serve(before, audience[k], fit);
      CountersShow(t, audience[..k], fit);
      if before.queued > 0 { StillShown(before.links, u.links, audience, k, Queued); }
      if before.blocked > 0 { StillShown(before.links, u.links, audience, k, Blocked); }
      if u.queued > before.queued { assert audience[k].contact in u.links; }
      if u.blocked > before.blocked { assert audience[k].contact in u.links; }
    }
  }
}
