/**
 The life of one campaign: approval, fan-out, delivery of each message in up to five attempts, pausing
 and cancelling, and completion. Every handler call is one step.
 */
module Campaign {
  import opened Options
  import opened FanOut

  datatype Status = Draft | PendingApproval | Approved | Scheduled | Running | Paused | Completed | Cancelled | Failed

  datatype Stats = Stats(queued: nat, sent: nat, failed: nat, blocked: nat)

  /**
   `failing` holds the messages whose last attempt has thrown and whose final-failure handler is still
   to run; `statistics` is None while it holds a policy reason instead of counts. `fanned` records that
   a full fan-out has happened, and nothing reads it.
   */
  datatype State = State(
    status: Status,
    audience: seq<Member>,
    tables: Tables,
    failing: set<nat>,
    statistics: Option<Stats>,
    notices: nat,
    fanned: bool
  )

  /** How one attempt to deliver ends when the campaign is neither paused nor cancelled. */
  datatype Outcome = Blocks | RateLimited | Throws(sending: bool) | Sends

  datatype Event =
    | Approve
    | Schedule
    | Launch(admitted: bool)
    | Pause
    | Resume(admitted: bool)
    | Cancel
    | PauseAll
    | Process(policyBlock: bool, fit: set<nat>)
    | Deliver(contact: nat, token: bool, outcome: Outcome)
    | FinalFailure(contact: nat)

  const Attempts: nat := 5

  function With(links: map<nat, Delivery>, d: Delivery): set<nat> {
    set c | c in links && links[c] == d
  }

  function PendingOf(links: map<nat, Delivery>): nat {
    |With(links, Queued)| + |With(links, Sending)|
  }

  function Count(links: map<nat, Delivery>): Stats {
    Stats(|With(links, Queued)|, |With(links, Sent)|, |With(links, Undelivered)|, |With(links, Blocked)|)
  }

  // ----- Delivery -----

  predicate SameCampaign(s: State, u: State) {
    u.audience == s.audience && u.fanned == s.fanned
  }

  /** updateCampaignProgress. */
  function Progress(s: State, c: nat, d: Delivery): (u: State)
    ensures SameCampaign(s, u) && (s.status in {Completed, Cancelled} || u.status != Completed ==> u.status == s.status)
  {
    if c !in s.tables.links then s
    else
      var links := s.tables.links[c := d];
      var u := s.(tables := s.tables.(links := links));
      if PendingOf(links) == 0 then
        if s.status in {Completed, Cancelled} then u
        else u.(status := Completed, statistics := Some(Count(links)), notices := s.notices + 1)
      else u.(statistics := Some(Count(links)))
  }

  function WithoutJob(t: Tables, c: nat): Tables {
    t.(jobs := t.jobs - {c})
  }

  /** The message reaches its end, its job with it, and the campaign hears of it. */
  function Settle(s: State, c: nat, d: Delivery): (u: State)
    ensures SameCampaign(s, u) && (s.status in {Completed, Cancelled} || u.status != Completed ==> u.status == s.status)
  {
    Progress(s.(tables := WithoutJob(s.tables.(messages := s.tables.messages[c := d]), c)), c, d)
  }

  /** A thrown attempt is retried, until the attempts are used up. */
  function Throw(s: State, c: nat, sending: bool): (u: State)
    requires c in s.tables.jobs
    ensures SameCampaign(s, u) && u.status == s.status
  {
    var t := if sending then s.tables.(messages := s.tables.messages[c := Sending]) else s.tables;
    if s.tables.jobs[c] + 1 < Attempts then s.(tables := t.(jobs := t.jobs[c := s.tables.jobs[c] + 1]))
    else s.(tables := WithoutJob(t, c), failing := s.failing + {c})
  }

  /** processMessage. */
  function DeliverOne(s: State, c: nat, token: bool, outcome: Outcome): (u: State)
    requires c in s.tables.jobs
    ensures SameCampaign(s, u) && (s.status in {Completed, Cancelled} || u.status != Completed ==> u.status == s.status)
  {
    if c !in s.tables.messages || s.tables.messages[c] in {Sent, Blocked} then s.(tables := WithoutJob(s.tables, c))
    else if s.status == Paused then (if token then s else Throw(s, c, false))
    else if s.status == Cancelled then Settle(s, c, Blocked)
    else
      match outcome
      case Blocks => Settle(s, c, Blocked)
      case RateLimited => if token then s else Throw(s, c, false)
      case Throws(sending) => Throw(s, c, sending)
      case Sends => Settle(s, c, Sent)
  }

  /** The failed handler, after the last attempt. */
  function FailOne(s: State, c: nat): (u: State)
    ensures SameCampaign(s, u) && (s.status in {Completed, Cancelled} || u.status != Completed ==> u.status == s.status)
  {
    var t := s.tables;
    var messages :=
      if c in t.messages && t.messages[c] in {Queued, Sending} then t.messages[c := Undelivered] else t.messages;
    Progress(s.(tables := t.(messages := messages), failing := s.failing - {c}), c, Undelivered)
  }

  // ----- Fan-out -----

  /** The statistics at the end of a run; a missing group falls back to the loop's own count. */
  function RunStats(t: Tables): Stats {
    var n := Count(t.links);
    Stats(if n.queued == 0 then t.queued else n.queued, n.sent, n.failed,
      if n.blocked == 0 then t.blocked else n.blocked)
  }

  function RunStatus(links: map<nat, Delivery>): Status {
    if PendingOf(links) > 0 then Running else if |With(links, Sent)| > 0 then Completed else Failed
  }

  /** processCampaign. */
  function ProcessOne(s: State, policyBlock: bool, fit: set<nat>): State {
    if s.status !in {Approved, Scheduled, Running} then s
    else if policyBlock then s.(status := Paused, statistics := None)
    else
      var t := ServeAll(s.tables.(queued := 0, blocked := 0), s.audience, fit);
      s.(tables := t, status := RunStatus(t.links), statistics := Some(RunStats(t)), fanned := true)
  }

  function Step(s: State, e: Event): State {
    match e
    case Approve => if s.status in {Draft, PendingApproval} then s.(status := Approved) else s
    case Schedule => if s.status == Approved then s.(status := Scheduled) else s
    case Launch(admitted) => if admitted && s.status in {Approved, Scheduled, Paused} then s.(status := Running) else s
    case Pause => if s.status in {Running, Scheduled} then s.(status := Paused) else s
    case Resume(admitted) => if admitted && s.status == Paused then s.(status := Running) else s
    case Cancel =>
      if s.status in {Draft, PendingApproval, Approved, Scheduled, Running, Paused} then s.(status := Cancelled) else s
    case PauseAll => if s.status in {Running, Scheduled} then s.(status := Paused) else s
    case Process(policyBlock, fit) => ProcessOne(s, policyBlock, fit)
    case Deliver(c, token, outcome) => if c in s.tables.jobs then DeliverOne(s, c, token, outcome) else s
    case FinalFailure(c) => if c in s.failing then FailOne(s, c) else s
  }

  function Run(s: State, es: seq<Event>): State {
    if es == [] then s else Step(Run(s, es[..|es| - 1]), es[|es| - 1])
  }

  /** A new campaign over an audience. */
  function Created(audience: seq<Member>): State {
    State(Draft, audience, Tables(map[], map[], map[], 0, 0), {}, Some(Stats(0, 0, 0, 0)), 0, false)
  }

  // ----- What every reachable state satisfies -----

  predicate Open(d: Delivery) {
    d in {Queued, Sending}
  }

  /** A campaign message shows its message; one still on its way shows QUEUED. */
  function Shows(d: Delivery): Delivery {
    if Open(d) then Queued else d
  }

  ghost predicate MemberInv(s: State, m: Member) {
    var t, c := s.tables, m.contact;
    && c in t.links
    && (m.included ==>
          && c in t.messages && t.links[c] == Shows(t.messages[c])
          && (Open(t.messages[c]) <==> c in t.jobs || c in s.failing))
    && (!m.included ==> t.links[c] == Blocked && c !in t.messages && c !in t.jobs && c !in s.failing)
    && (c in t.jobs ==> t.jobs[c] < Attempts && c !in s.failing)
  }

  ghost predicate FannedInv(s: State) {
    && (forall m <- s.audience :: MemberInv(s, m))
    && s.tables.links.Keys == ContactsOf(s.audience)
    && s.tables.jobs.Keys + s.failing <= ContactsOf(s.audience)
    && (PendingOf(s.tables.links) == 0 ==> s.status in {Completed, Cancelled, Failed})
    && (s.status == Completed ==> PendingOf(s.tables.links) == 0)
    && (s.status == Failed ==> PendingOf(s.tables.links) == 0)
  }

  predicate Empty(t: Tables) {
    t.messages == map[] && t.links == map[] && t.jobs == map[]
  }

  ghost predicate Inv(s: State) {
    && Distinct(s.audience)
    && (if s.fanned then FannedInv(s) else Empty(s.tables) && s.failing == {} && s.status !in {Completed, Failed})
    && s.notices == (if s.status == Completed then 1 else 0)
    && (s.fanned && s.statistics.Some? ==> Total(s.statistics.value) == |ContactsOf(s.audience)|)
    && (s.status == Completed ==> s.statistics == Some(Count(s.tables.links)))
    && (s.fanned && s.statistics.Some? && !CancelledAndDone(s) ==> s.statistics == Some(Count(s.tables.links)))
  }

  /** A cancelled campaign with nothing left to do; its last progress update writes no statistics. */
  ghost predicate CancelledAndDone(s: State) {
    s.status == Cancelled && PendingOf(s.tables.links) == 0
  }

  function Total(n: Stats): nat {
    n.queued + n.sent + n.failed + n.blocked
  }

  // ----- Counting -----

  predicate NoneSending(links: map<nat, Delivery>) {
    forall c :: c in links ==> links[c] != Sending
  }

  lemma NonePending(links: map<nat, Delivery>)
    ensures PendingOf(links) == 0 <==> forall c :: c in links ==> !Open(links[c])
  {
    assert forall c :: c in links ==> (c in With(links, Queued) + With(links, Sending) <==> Open(links[c]));
    assert PendingOf(links) == 0 <==> With(links, Queued) + With(links, Sending) == {};
  }

  lemma FourApart(a: set<nat>, b: set<nat>, c: set<nat>, d: set<nat>, all: set<nat>)
    requires all == a + b + c + d && a !! b && a !! c && a !! d && b !! c && b !! d && c !! d
    ensures |all| == |a| + |b| + |c| + |d|
  {
    assert |a + b| == |a| + |b|;
    assert |a + b + c| == |a + b| + |c|;
    assert |a + b + c + d| == |a + b + c| + |d|;
  }

  lemma KeysSplit(links: map<nat, Delivery>)
    requires NoneSending(links)
    ensures links.Keys == With(links, Queued) + With(links, Sent) + With(links, Undelivered) + With(links, Blocked)
    ensures With(links, Sending) == {}
  {
  }

  lemma PendingIsQueued(links: map<nat, Delivery>)
    requires NoneSending(links)
    ensures PendingOf(links) == |With(links, Queued)|
  {
    KeysSplit(links);
    assert |With(links, Sending)| == 0;
  }

  lemma CountsAddUp(links: map<nat, Delivery>)
    requires NoneSending(links)
    ensures Total(Count(links)) == |links.Keys| && PendingOf(links) == Count(links).queued
  {
    var q, s, f, b := With(links, Queued), With(links, Sent), With(links, Undelivered), With(links, Blocked);
    assert q !! s && q !! f && q !! b && s !! f && s !! b && f !! b;
    KeysSplit(links);
    FourApart(q, s, f, b, links.Keys);
    PendingIsQueued(links);
  }

  lemma FannedShowsNoSending(s: State)
    requires FannedInv(s)
    ensures NoneSending(s.tables.links)
  {
    forall c | c in s.tables.links ensures s.tables.links[c] != Sending {
      assert c in s.tables.links.Keys;
      var i :| 0 <= i < |s.audience| && s.audience[i].contact == c;
      assert MemberInv(s, s.audience[i]);
    }
  }

  // ----- Delivery keeps the invariant -----

  lemma MemberAt(s: State, c: nat) returns (m: Member)
    requires FannedInv(s) && (c in s.tables.jobs || c in s.failing)
    ensures m in s.audience && m.contact == c && m.included && MemberInv(s, m)
    ensures c in s.tables.links && s.tables.links[c] == Queued
    ensures PendingOf(s.tables.links) > 0
  {
    assert c in s.tables.jobs.Keys + s.failing;
    var i :| 0 <= i < |s.audience| && s.audience[i].contact == c;
    m := s.audience[i];
    assert MemberInv(s, m);
    NonePending(s.tables.links);
  }

  /** Nothing but the row of one member has changed, and that row is settled. */
  ghost predicate Settled(s: State, u: State, c: nat, d: Delivery) {
    && u.audience == s.audience && u.fanned
    && c in s.tables.messages && u.tables.messages == s.tables.messages[c := d]
    && u.tables.links == s.tables.links[c := d]
    && u.tables.jobs == s.tables.jobs - {c} && u.failing == s.failing - {c}
    && (if PendingOf(u.tables.links) == 0 && s.status !in {Completed, Cancelled}
        then u.status == Completed && u.notices == s.notices + 1 && u.statistics == Some(Count(u.tables.links))
        else u.status == s.status && u.notices == s.notices)
    && (if PendingOf(u.tables.links) == 0 && s.status in {Completed, Cancelled} then u.statistics == s.statistics
        else u.statistics == Some(Count(u.tables.links)))
  }

  lemma SettledMember(s: State, u: State, c: nat, d: Delivery, m: Member)
    requires MemberInv(s, m) && Settled(s, u, c, d) && d in {Sent, Undelivered, Blocked}
    requires m.contact == c ==> m.included
    ensures MemberInv(u, m)
  {
  }

  lemma SettledKeeps(s: State, u: State, c: nat, d: Delivery)
    requires Inv(s) && s.fanned && Settled(s, u, c, d) && d in {Sent, Undelivered, Blocked}
    requires c in s.tables.jobs || c in s.failing
    ensures Inv(u)
  {
    var m := MemberAt(s, c);
    forall x <- u.audience ensures MemberInv(u, x) {
      assert MemberInv(s, x);
      if x.contact == c { SameContactSameMember(s.audience, x, m); }
      SettledMember(s, u, c, d, x);
    }
    assert u.tables.links.Keys == s.tables.links.Keys;
    assert FannedInv(u);
    FannedShowsNoSending(u);
    CountsAddUp(u.tables.links);
  }

  lemma SameContactSameMember(audience: seq<Member>, a: Member, b: Member)
    requires Distinct(audience) && a in audience && b in audience && a.contact == b.contact
    ensures a == b
  {
    var i :| 0 <= i < |audience| && audience[i] == a;
    var j :| 0 <= j < |audience| && audience[j] == b;
    assert i == j;
  }

  lemma SettleIsSettled(s: State, c: nat, d: Delivery)
    requires Inv(s) && s.fanned && c in s.tables.jobs
    ensures Settled(s, Settle(s, c, d), c, d)
  {
    var m := MemberAt(s, c);
  }

  lemma FailIsSettled(s: State, c: nat)
    requires Inv(s) && s.fanned && c in s.failing
    ensures Settled(s, FailOne(s, c), c, Undelivered)
  {
    var m := MemberAt(s, c);
  }

  lemma ThrowKeeps(s: State, c: nat, sending: bool)
    requires Inv(s) && s.fanned && c in s.tables.jobs
    ensures Inv(Throw(s, c, sending))
  {
    var m := MemberAt(s, c);
    var u := Throw(s, c, sending);
    forall x <- u.audience ensures MemberInv(u, x) {
      assert MemberInv(s, x);
      if x.contact == c { SameContactSameMember(s.audience, x, m); }
    }
  }

  lemma SettleKeeps(s: State, c: nat, d: Delivery)
    requires Inv(s) && s.fanned && c in s.tables.jobs && d in {Sent, Blocked}
    ensures Inv(Settle(s, c, d))
  {
    SettleIsSettled(s, c, d);
    SettledKeeps(s, Settle(s, c, d), c, d);
  }

  /** The attempt is put off: the campaign is paused or the account is over its rate. */
  predicate Defers(s: State, token: bool, outcome: Outcome) {
    token && (s.status == Paused || (s.status != Cancelled && outcome.RateLimited?))
  }

  /** Which of the four things an attempt may do. */
  lemma DeliverIsOneOf(s: State, c: nat, token: bool, outcome: Outcome)
    requires c in s.tables.jobs && c in s.tables.messages && Open(s.tables.messages[c])
    ensures var u := DeliverOne(s, c, token, outcome);
      if Defers(s, token, outcome) then u == s
      else u == Settle(s, c, Blocked) || u == Settle(s, c, Sent) || u == Throw(s, c, false) || u == Throw(s, c, true)
  {
  }

  lemma DeliverKeeps(s: State, c: nat, token: bool, outcome: Outcome)
    requires Inv(s) && c in s.tables.jobs
    ensures Inv(DeliverOne(s, c, token, outcome))
  {
    var m := MemberAt(s, c);
    DeliverIsOneOf(s, c, token, outcome);
    var u := DeliverOne(s, c, token, outcome);
    if u == Settle(s, c, Blocked) {
      SettleKeeps(s, c, Blocked);
    } else if u == Settle(s, c, Sent) {
      SettleKeeps(s, c, Sent);
    } else if u == Throw(s, c, false) {
      ThrowKeeps(s, c, false);
    } else if u == Throw(s, c, true) {
      ThrowKeeps(s, c, true);
    }
  }

  // ----- Fan-out keeps the invariant -----

  lemma FirstRunMember(s: State, fit: set<nat>, i: nat)
    requires Inv(s) && !s.fanned && i < |s.audience|
    ensures MemberInv(s.(tables := ServeAll(s.tables.(queued := 0, blocked := 0), s.audience, fit)), s.audience[i])
    ensures var links := ServeAll(s.tables.(queued := 0, blocked := 0), s.audience, fit).links;
      links[s.audience[i].contact] != Sent
  {
    EachServedAlone(s.tables.(queued := 0, blocked := 0), s.audience, fit, i);
  }

  lemma OnlyAudience(t: Tables, audience: seq<Member>, fit: set<nat>)
    requires Empty(t)
    ensures var u := ServeAll(t, audience, fit);
      u.links.Keys <= ContactsOf(audience) && u.jobs.Keys <= ContactsOf(audience)
  {
    var u := ServeAll(t, audience, fit);
    forall c | c in u.links || c in u.jobs ensures c in ContactsOf(audience) {
      if c !in ContactsOf(audience) { OthersUntouched(t, audience, fit, c); }
    }
  }

  lemma FirstRunKeeps(s: State, fit: set<nat>)
    requires Inv(s) && !s.fanned && s.status in {Approved, Scheduled, Running}
    ensures Inv(ProcessOne(s, false, fit))
  {
    var t := s.tables.(queued := 0, blocked := 0);
    var u := ProcessOne(s, false, fit);
    assert u.tables == ServeAll(t, s.audience, fit);
    OnlyAudience(t, s.audience, fit);
    forall i | 0 <= i < |s.audience|
      ensures MemberInv(u, u.audience[i]) && u.tables.links[u.audience[i].contact] != Sent
    {
      FirstRunMember(s, fit, i);
    }
    assert u.tables.links.Keys == ContactsOf(u.audience);
    assert With(u.tables.links, Sent) == {};
    assert FannedInv(u);
    FannedShowsNoSending(u);
    CountsAddUp(u.tables.links);
    RunStatsAreCounts(t, s.audience, fit);
  }

  lemma RunStatsAreCounts(t: Tables, audience: seq<Member>, fit: set<nat>)
    requires Distinct(audience) && t.queued == 0 && t.blocked == 0
    ensures var u := ServeAll(t, audience, fit); RunStats(u) == Count(u.links)
  {
    var u := ServeAll(t, audience, fit);
    CountersShow(t, audience, fit);
    if Shown(u.links, audience, Queued) {
      var i :| 0 <= i < |audience| && audience[i].contact in u.links && u.links[audience[i].contact] == Queued;
      assert audience[i].contact in With(u.links, Queued);
    }
    if Shown(u.links, audience, Blocked) {
      var i :| 0 <= i < |audience| && audience[i].contact in u.links && u.links[audience[i].contact] == Blocked;
      assert audience[i].contact in With(u.links, Blocked);
    }
  }

  lemma ServedAlready(s: State, fit: set<nat>, c: nat)
    requires Inv(s) && s.fanned
    ensures var t := s.tables.(queued := 0, blocked := 0); SameFor(t, ServeAll(t, s.audience, fit), c)
  {
    var t := s.tables.(queued := 0, blocked := 0);
    if c in ContactsOf(s.audience) {
      var i :| 0 <= i < |s.audience| && s.audience[i].contact == c;
      assert MemberInv(s, s.audience[i]);
      EachServedAlone(t, s.audience, fit, i);
    } else {
      OthersUntouched(t, s.audience, fit, c);
    }
  }

  /**
   Once fanned out, a campaign that may be processed again still has pending messages, and running again changes
   nothing.
  */
  lemma LaterRunKeeps(s: State, fit: set<nat>)
    requires Inv(s) && s.fanned && s.status in {Approved, Scheduled, Running}
    ensures var u := ProcessOne(s, false, fit);
      && u.tables.messages == s.tables.messages && u.tables.links == s.tables.links && u.tables.jobs == s.tables.jobs
      && u.status == Running && Inv(u)
  {
    var t := s.tables.(queued := 0, blocked := 0);
    forall c: nat ensures SameFor(t, ServeAll(t, s.audience, fit), c) { ServedAlready(s, fit, c); }
    SameEverywhere(t, ServeAll(t, s.audience, fit));
    var u := ProcessOne(s, false, fit);
    forall m <- u.audience ensures MemberInv(u, m) { assert MemberInv(s, m); }
    FannedShowsNoSending(s);
    CountsAddUp(s.tables.links);
    RunStatsAreCounts(t, s.audience, fit);
  }

  lemma StepKeeps(s: State, e: Event)
    requires Inv(s)
    ensures Inv(Step(s, e))
  {
    match e
    case Process(policyBlock, fit) =>
      if s.status in {Approved, Scheduled, Running} && !policyBlock {
        if s.fanned { LaterRunKeeps(s, fit); } else { FirstRunKeeps(s, fit); }
      }
    case Deliver(c, token, outcome) => if c in s.tables.jobs { DeliverKeeps(s, c, token, outcome); }
    case FinalFailure(c) =>
      if c in s.failing {
        FailIsSettled(s, c);
        SettledKeeps(s, FailOne(s, c), c, Undelivered);
      }
    case _ => StatusOnly(s, e);
  }

  /** The operations of users, administrators and the scheduler change only the status. */
  lemma StatusOnly(s: State, e: Event)
    requires Inv(s) && !e.Process? && !e.Deliver? && !e.FinalFailure?
    ensures Step(s, e) == s.(status := Step(s, e).status) && Inv(Step(s, e))
  {
    var u := Step(s, e);
    if s.fanned {
      forall m <- u.audience ensures MemberInv(u, m) { assert MemberInv(s, m); }
    }
  }

  lemma AudienceStays(s: State, e: Event)
    ensures Step(s, e).audience == s.audience && (s.fanned ==> Step(s, e).fanned)
  {
  }

  lemma {:induction false} ReachableInv(audience: seq<Member>, es: seq<Event>)
    requires Distinct(audience)
    ensures Inv(Run(Created(audience), es)) && Run(Created(audience), es).audience == audience
  {
    if es != [] {
      ReachableInv(audience, es[..|es| - 1]);
      StepKeeps(Run(Created(audience), es[..|es| - 1]), es[|es| - 1]);
      AudienceStays(Run(Created(audience), es[..|es| - 1]), es[|es| - 1]);
    }
  }

  /**
   In every run: after a full fan-out there is exactly one campaign message per audience member, the
   counts written add up to the audience, COMPLETED means nothing is pending, and nothing pending means
   the campaign has ended.
   */
  lemma CampaignsAddUp(audience: seq<Member>, es: seq<Event>)
    requires Distinct(audience)
    ensures var s := Run(Created(audience), es);
      && (s.fanned ==> s.tables.links.Keys == ContactsOf(audience))
      && (s.fanned && s.statistics.Some? ==> Total(s.statistics.value) == |audience|)
      && (s.status == Completed ==> s.fanned && PendingOf(s.tables.links) == 0)
      && (s.fanned && PendingOf(s.tables.links) == 0 ==> s.status in {Completed, Cancelled, Failed})
      && s.notices <= 1 && (s.notices == 1 <==> s.status == Completed)
  {
    ReachableInv(audience, es);
    AudienceSize(audience);
  }

  lemma {:induction false} AudienceSize(audience: seq<Member>)
    requires Distinct(audience)
    ensures |ContactsOf(audience)| == |audience|
  {
    if audience == [] {
      assert ContactsOf(audience) == {};
    } else {
      var k := |audience| - 1;
      AudienceSize(audience[..k]);
      assert audience[k].contact !in ContactsOf(audience[..k]);
      assert audience == audience[..k] + [audience[k]];
      assert ContactsOf(audience) == ContactsOf(audience[..k]) + {audience[k].contact};
    }
  }

  function MessagesThat(messages: map<nat, Delivery>, d: Delivery): set<nat> {
    set c | c in messages && messages[c] == d
  }

  function Excluded(audience: seq<Member>): set<nat> {
    set i | 0 <= i < |audience| && !audience[i].included :: audience[i].contact
  }

  lemma IsExcluded(audience: seq<Member>, m: Member)
    requires Distinct(audience) && m in audience
    ensures m.contact in Excluded(audience) <==> !m.included
  {
    if m.contact in Excluded(audience) {
      var i :| 0 <= i < |audience| && !audience[i].included && audience[i].contact == m.contact;
      SameContactSameMember(audience, audience[i], m);
    } else {
      var i :| 0 <= i < |audience| && audience[i] == m;
    }
  }

  predicate MessageIs(s: State, c: nat, d: Delivery) {
    c in s.tables.messages && s.tables.messages[c] == d
  }

  lemma LinkShows(s: State, c: nat)
    requires Inv(s) && s.fanned
    ensures c in s.tables.links <==> c in ContactsOf(s.audience)
    ensures c in s.tables.links ==>
      && (s.tables.links[c] == Sent <==> MessageIs(s, c, Sent))
      && (s.tables.links[c] == Undelivered <==> MessageIs(s, c, Undelivered))
      && (s.tables.links[c] == Blocked <==> MessageIs(s, c, Blocked) || c in Excluded(s.audience))
      && (s.tables.links[c] == Queued <==> MessageIs(s, c, Queued) || MessageIs(s, c, Sending))
    ensures c in Excluded(s.audience) ==> c in ContactsOf(s.audience)
  {
    assert c in s.tables.links <==> c in s.tables.links.Keys;
    if c in ContactsOf(s.audience) {
      var i :| 0 <= i < |s.audience| && s.audience[i].contact == c;
      assert MemberInv(s, s.audience[i]);
      IsExcluded(s.audience, s.audience[i]);
    }
  }

  lemma LinksShowSettled(s: State, d: Delivery)
    requires Inv(s) && s.fanned && d in {Sent, Undelivered}
    ensures With(s.tables.links, d) == MessagesThat(s.tables.messages, d) * ContactsOf(s.audience)
  {
    forall c: nat
      ensures c in With(s.tables.links, d) <==> MessageIs(s, c, d) && c in ContactsOf(s.audience)
    {
      LinkShows(s, c);
    }
  }

  lemma LinksShowBlocked(s: State)
    requires Inv(s) && s.fanned
    ensures With(s.tables.links, Blocked)
         == MessagesThat(s.tables.messages, Blocked) * ContactsOf(s.audience) + Excluded(s.audience)
  {
    forall c: nat
      ensures c in With(s.tables.links, Blocked)
        <==> (MessageIs(s, c, Blocked) && c in ContactsOf(s.audience)) || c in Excluded(s.audience)
    {
      LinkShows(s, c);
    }
  }

  function OpenMessages(messages: map<nat, Delivery>): set<nat> {
    set c | c in messages && Open(messages[c])
  }

  lemma LinksShowOpen(s: State)
    requires Inv(s) && s.fanned
    ensures With(s.tables.links, Queued) == OpenMessages(s.tables.messages) * ContactsOf(s.audience)
  {
    forall c: nat
      ensures c in With(s.tables.links, Queued)
        <==> c in OpenMessages(s.tables.messages) && c in ContactsOf(s.audience)
    {
      LinkShows(s, c);
    }
  }

  lemma LinksShowMessages(s: State)
    requires Inv(s) && s.fanned
    ensures var mine := ContactsOf(s.audience);
      Count(s.tables.links) == Stats(
        |OpenMessages(s.tables.messages) * mine|,
        |MessagesThat(s.tables.messages, Sent) * mine|,
        |MessagesThat(s.tables.messages, Undelivered) * mine|,
        |MessagesThat(s.tables.messages, Blocked) * mine + Excluded(s.audience)|)
  {
    LinksShowOpen(s);
    LinksShowSettled(s, Sent);
    LinksShowSettled(s, Undelivered);
    LinksShowBlocked(s);
  }

  /**
   From the fan-out on, unless they hold a policy reason, the statistics count the messages as they stand, each
   under its own status; only what cancelled campaigns do last is not counted.
  */
  lemma StatisticsCount(audience: seq<Member>, es: seq<Event>)
    requires Distinct(audience)
    ensures var s := Run(Created(audience), es); var mine := ContactsOf(audience);
      s.fanned && s.statistics.Some? && !CancelledAndDone(s) ==>
        s.statistics.value == Stats(
          |OpenMessages(s.tables.messages) * mine|,
          |MessagesThat(s.tables.messages, Sent) * mine|,
          |MessagesThat(s.tables.messages, Undelivered) * mine|,
          |MessagesThat(s.tables.messages, Blocked) * mine + Excluded(audience)|)
  {
    ReachableInv(audience, es);
    var s := Run(Created(audience), es);
    if s.fanned { LinksShowMessages(s); }
  }

  /** A run leaves RUNNING while anything is pending; else COMPLETED if something was sent, and FAILED if not. */
  lemma RunStatusMeans(links: map<nat, Delivery>)
    ensures RunStatus(links) == Running <==> exists c :: c in links && links[c] in {Queued, Sending}
    ensures RunStatus(links) == Completed <==>
      (forall c :: c in links ==> links[c] !in {Queued, Sending}) && exists c :: c in links && links[c] == Sent
    ensures RunStatus(links) == Failed <==> forall c :: c in links ==> links[c] !in {Queued, Sending, Sent}
  {
    NonePending(links);
    assert |With(links, Sent)| > 0 <==> With(links, Sent) != {};
    if c :| c in links && links[c] == Sent { assert c in With(links, Sent); }
    if With(links, Sent) != {} {
      var c :| c in With(links, Sent);
    }
  }

  /** The first fan-out leaves the campaign RUNNING if it queued a message, and FAILED if it had none to queue. */
  lemma FirstRunStatus(s: State, fit: set<nat>)
    requires Inv(s) && !s.fanned && s.status in {Approved, Scheduled, Running}
    ensures ProcessOne(s, false, fit).status ==
      if exists m <- s.audience :: m.included && m.contact in fit then Running else Failed
  {
    var t := s.tables.(queued := 0, blocked := 0);
    var u := ProcessOne(s, false, fit);
    assert u.tables == ServeAll(t, s.audience, fit);
    NonePending(u.tables.links);
    forall i | 0 <= i < |s.audience|
      ensures s.audience[i].contact in u.tables.links && u.tables.links[s.audience[i].contact] ==
        if s.audience[i].included && s.audience[i].contact in fit then Queued else Blocked
    {
      EachServedAlone(t, s.audience, fit, i);
    }
    OnlyAudience(t, s.audience, fit);
    forall c | c in u.tables.links ensures u.tables.links[c] in {Queued, Blocked} {
      assert c in u.tables.links.Keys && c in ContactsOf(s.audience);
    }
    assert With(u.tables.links, Sent) == {};
  }

  /** The statistics of a completed campaign count its messages, each under its own status. */
  lemma CompletedStatistics(audience: seq<Member>, es: seq<Event>)
    requires Distinct(audience) && Run(Created(audience), es).status == Completed
    ensures var s := Run(Created(audience), es); var mine := ContactsOf(audience);
      s.statistics == Some(Stats(0,
        |MessagesThat(s.tables.messages, Sent) * mine|,
        |MessagesThat(s.tables.messages, Undelivered) * mine|,
        |MessagesThat(s.tables.messages, Blocked) * mine + Excluded(audience)|))
  {
    ReachableInv(audience, es);
    LinksShowMessages(Run(Created(audience), es));
    FannedShowsNoSending(Run(Created(audience), es));
    CountsAddUp(Run(Created(audience), es).tables.links);
  }

  lemma EndedStays(s: State, e: Event)
    requires s.status in {Completed, Cancelled}
    ensures Step(s, e).status == s.status
  {
  }

  /** COMPLETED and CANCELLED are never left. */
  lemma {:induction false} EndedForGood(s: State, es: seq<Event>)
    requires s.status in {Completed, Cancelled}
    ensures Run(s, es).status == s.status
  {
    if es != [] {
      EndedForGood(s, es[..|es| - 1]);
      EndedStays(Run(s, es[..|es| - 1]), es[|es| - 1]);
    }
  }
}
