/** What the tables of a campaign say about its past: which events, in any run, lead a message to each status. */
module CampaignHistory {
  import opened Options
  import opened FanOut
  import opened Campaign

  function After(audience: seq<Member>, es: seq<Event>): State {
    Run(Created(audience), es)
  }

  /** Some event of the run happened in a state in which it was such an event. */
  ghost predicate Ever(audience: seq<Member>, es: seq<Event>, such: (State, Event) -> bool) {
    exists k :: 0 <= k < |es| && such(After(audience, es[..k]), es[k])
  }

  lemma EverStep(audience: seq<Member>, front: seq<Event>, e: Event, such: (State, Event) -> bool)
    ensures After(audience, front + [e]) == Step(After(audience, front), e)
    ensures Ever(audience, front + [e], such) <==> Ever(audience, front, such) || such(After(audience, front), e)
  {
    var es := front + [e];
    assert es[..|front|] == front && es[|front|] == e;
    if Ever(audience, front, such) {
      var k :| 0 <= k < |front| && such(After(audience, front[..k]), front[k]);
      assert es[..k] == front[..k] && es[k] == front[k];
    }
    if k :| 0 <= k < |es| && such(After(audience, es[..k]), es[k]) {
      if k < |front| { assert es[..k] == front[..k] && es[k] == front[k]; }
    }
  }

  lemma SplitLast(es: seq<Event>)
    requires es != []
    ensures es == es[..|es| - 1] + [es[|es| - 1]]
  {
  }

  // ----- The events that matter to one message -----

  /** An attempt to deliver a message that is still to be sent. */
  predicate Attempted(s: State, e: Event, c: nat) {
    && e.Deliver? && e.contact == c && c in s.tables.jobs
    && (MessageIs(s, c, Queued) || MessageIs(s, c, Sending))
  }

  /** The platform took the message, in a campaign neither paused nor cancelled. */
  predicate SendsIt(s: State, e: Event, c: nat) {
    Attempted(s, e, c) && s.status != Paused && s.status != Cancelled && e.outcome == Sends
  }

  /** The attempt was blocked, or came after the campaign was cancelled. */
  predicate BlocksIt(s: State, e: Event, c: nat) {
    Attempted(s, e, c) && (s.status == Cancelled || (s.status != Paused && e.outcome == Blocks))
  }

  /** The first full fan-out found the contact unfit to receive the message. */
  predicate FindsUnfit(s: State, e: Event, c: nat) {
    e.Process? && !e.policyBlock && s.status in {Approved, Scheduled, Running} && !s.fanned && c !in e.fit
  }

  /** The attempt threw, and counts as one of the five; without its token a deferred one throws too. */
  predicate ThrowsIt(s: State, e: Event, c: nat) {
    && Attempted(s, e, c) && s.status != Cancelled
    && (if s.status == Paused then !e.token else e.outcome.Throws? || (e.outcome == RateLimited && !e.token))
  }

  /** The handler of the last failure ran. */
  predicate GivesUp(s: State, e: Event, c: nat) {
    e == FinalFailure(c) && c in s.failing
  }

  function SendingIt(c: nat): (State, Event) -> bool {
    (s, e) => SendsIt(s, e, c)
  }

  function BlockingIt(c: nat): (State, Event) -> bool {
    (s, e) => BlocksIt(s, e, c) || FindsUnfit(s, e, c)
  }

  function GivingUp(c: nat): (State, Event) -> bool {
    (s, e) => GivesUp(s, e, c)
  }

  // ----- One step -----

  lemma FirstRunMessage(s: State, fit: set<nat>, c: nat)
    requires Inv(s) && !s.fanned && s.status in {Approved, Scheduled, Running}
    ensures var u := ProcessOne(s, false, fit);
      && !MessageIs(u, c, Sent) && !MessageIs(u, c, Undelivered) && u.failing == {}
      && (c in u.tables.jobs ==> u.tables.jobs[c] == 0)
      && (forall m <- s.audience :: m.included && m.contact == c ==>
            c in u.tables.messages && (MessageIs(u, c, Blocked) <==> c !in fit)
            && (MessageIs(u, c, Queued) <==> c in fit))
  {
    var t := s.tables.(queued := 0, blocked := 0);
    if c in ContactsOf(s.audience) {
      var i :| 0 <= i < |s.audience| && s.audience[i].contact == c;
      EachServedAlone(t, s.audience, fit, i);
      forall m <- s.audience | m.contact == c ensures m == s.audience[i] {
        SameContactSameMember(s.audience, m, s.audience[i]);
      }
    } else {
      OthersUntouched(t, s.audience, fit, c);
      forall m <- s.audience ensures m.contact != c {
        var i :| 0 <= i < |s.audience| && s.audience[i] == m;
        assert m.contact in ContactsOf(s.audience);
      }
    }
  }

  /** How the status of one message changes in a step; `unfit` says that the first fan-out blocks it. */
  ghost predicate Moves(s: State, e: Event, u: State, c: nat, unfit: bool) {
    && (MessageIs(u, c, Sent) <==> MessageIs(s, c, Sent) || SendsIt(s, e, c))
    && (MessageIs(u, c, Undelivered) <==> MessageIs(s, c, Undelivered) || GivesUp(s, e, c))
    && (MessageIs(u, c, Blocked) <==> MessageIs(s, c, Blocked) || BlocksIt(s, e, c) || unfit)
  }

  lemma SettleWrites(s: State, c: nat, d: Delivery)
    requires Inv(s) && s.fanned && c in s.tables.jobs
    ensures Settle(s, c, d).tables.messages == s.tables.messages[c := d]
  {
    SettleIsSettled(s, c, d);
  }

  /** The message of `c` and no other may change, and it stays on its way. */
  ghost predicate StaysOpen(s: State, u: State, c: nat) {
    && c in s.tables.messages && c in u.tables.messages && Open(u.tables.messages[c])
    && u.tables.messages == s.tables.messages[c := u.tables.messages[c]]
  }

  lemma ThrowStaysOpen(s: State, c: nat, sending: bool)
    requires c in s.tables.jobs && c in s.tables.messages && Open(s.tables.messages[c])
    ensures StaysOpen(s, Throw(s, c, sending), c)
  {
    var m := s.tables.messages;
    assert m == m[c := m[c]];
  }

  /** What an attempt comes to. */
  lemma AttemptIs(s: State, e: Event, c: nat)
    requires Attempted(s, e, c)
    ensures SendsIt(s, e, c) ==> Step(s, e) == Settle(s, c, Sent)
    ensures BlocksIt(s, e, c) ==> Step(s, e) == Settle(s, c, Blocked)
    ensures ThrowsIt(s, e, c) ==> Step(s, e) == Throw(s, c, s.status != Paused && e.outcome == Throws(true))
    ensures !SendsIt(s, e, c) && !BlocksIt(s, e, c) && !ThrowsIt(s, e, c) ==> Step(s, e) == s
  {
  }

  lemma SettlingWrites(s: State, e: Event, c: nat)
    requires Inv(s) && Attempted(s, e, c)
    ensures SendsIt(s, e, c) ==> Step(s, e).tables.messages == s.tables.messages[c := Sent]
    ensures BlocksIt(s, e, c) ==> Step(s, e).tables.messages == s.tables.messages[c := Blocked]
  {
    AttemptIs(s, e, c);
    var m := MemberAt(s, c);
    if SendsIt(s, e, c) { SettleWrites(s, c, Sent); }
    if BlocksIt(s, e, c) { SettleWrites(s, c, Blocked); }
  }

  lemma OthersStayOpen(s: State, e: Event, c: nat)
    requires Attempted(s, e, c) && !SendsIt(s, e, c) && !BlocksIt(s, e, c)
    ensures StaysOpen(s, Step(s, e), c)
  {
    AttemptIs(s, e, c);
    if ThrowsIt(s, e, c) {
      ThrowStaysOpen(s, c, s.status != Paused && e.outcome == Throws(true));
    } else {
      var messages := s.tables.messages;
      assert messages == messages[c := messages[c]];
    }
  }

  lemma OnlyAttempts(s: State, e: Event)
    requires Inv(s) && e.Deliver?
    ensures e.contact in s.tables.jobs <==> Attempted(s, e, e.contact)
  {
    if e.contact in s.tables.jobs { var m := MemberAt(s, e.contact); }
  }

  lemma OwnAttemptMoves(s: State, e: Event, c: nat)
    requires Inv(s) && Attempted(s, e, c)
    ensures Moves(s, e, Step(s, e), c, false)
  {
    SettlingWrites(s, e, c);
    if !SendsIt(s, e, c) && !BlocksIt(s, e, c) { OthersStayOpen(s, e, c); }
  }

  lemma OtherAttemptMoves(s: State, e: Event, c: nat)
    requires Inv(s) && e.Deliver? && e.contact != c && Attempted(s, e, e.contact)
    ensures Moves(s, e, Step(s, e), c, false)
  {
    SettlingWrites(s, e, e.contact);
    if !SendsIt(s, e, e.contact) && !BlocksIt(s, e, e.contact) { OthersStayOpen(s, e, e.contact); }
  }

  lemma DeliverMoves(s: State, e: Event, c: nat)
    requires Inv(s) && e.Deliver?
    ensures Moves(s, e, Step(s, e), c, false)
  {
    OnlyAttempts(s, e);
    if e.contact in s.tables.jobs {
      if e.contact == c { OwnAttemptMoves(s, e, c); } else { OtherAttemptMoves(s, e, c); }
    } else {
      assert Step(s, e) == s;
    }
  }

  lemma FailureWrites(s: State, c: nat)
    requires Inv(s) && c in s.failing
    ensures c in s.tables.messages && Open(s.tables.messages[c])
    ensures FailOne(s, c).tables.messages == s.tables.messages[c := Undelivered]
  {
    var m := MemberAt(s, c);
    FailIsSettled(s, c);
  }

  lemma FailureMoves(s: State, e: Event, c: nat)
    requires Inv(s) && e.FinalFailure?
    ensures Moves(s, e, Step(s, e), c, false)
  {
    if e.contact in s.failing {
      FailureWrites(s, e.contact);
      assert Step(s, e) == FailOne(s, e.contact);
    }
  }

  lemma ProcessMoves(s: State, e: Event, m: Member)
    requires Inv(s) && e.Process? && m in s.audience && m.included
    ensures Moves(s, e, Step(s, e), m.contact, FindsUnfit(s, e, m.contact))
  {
    if s.status in {Approved, Scheduled, Running} && !e.policyBlock {
      if s.fanned { LaterRunKeeps(s, e.fit); } else { FirstRunMessage(s, e.fit, m.contact); }
    }
  }

  lemma MemberMoves(s: State, e: Event, m: Member)
    requires Inv(s) && m in s.audience && m.included
    ensures Moves(s, e, Step(s, e), m.contact, FindsUnfit(s, e, m.contact))
  {
    match e
    case Process(_, _) => ProcessMoves(s, e, m);
    case Deliver(_, _, _) => DeliverMoves(s, e, m.contact);
    case FinalFailure(_) => FailureMoves(s, e, m.contact);
    case _ => StatusOnly(s, e);
  }

  // ----- The laws -----

  /**
   In every run, for every included member: its message is SENT exactly if some attempt on it, made while the
   campaign was neither paused nor cancelled, was taken by the platform; BLOCKED exactly if the first fan-out
   found the contact unfit, an attempt was blocked, or one was made after the campaign was cancelled; and FAILED
   exactly if its final-failure handler ran.
  */
  lemma {:induction false} StatusTellsHistory(audience: seq<Member>, es: seq<Event>, m: Member)
    requires Distinct(audience) && m in audience && m.included
    ensures var s, c := After(audience, es), m.contact;
      && (MessageIs(s, c, Sent) <==> Ever(audience, es, SendingIt(c)))
      && (MessageIs(s, c, Blocked) <==> Ever(audience, es, BlockingIt(c)))
      && (MessageIs(s, c, Undelivered) <==> Ever(audience, es, GivingUp(c)))
  {
    var c := m.contact;
    if es != [] {
      var front, e := es[..|es| - 1], es[|es| - 1];
      SplitLast(es);
      StatusTellsHistory(audience, front, m);
      ReachableInv(audience, front);
      MemberMoves(After(audience, front), e, m);
      EverStep(audience, front, e, SendingIt(c));
      EverStep(audience, front, e, BlockingIt(c));
      EverStep(audience, front, e, GivingUp(c));
    }
  }

  /** The attempt threw after it had marked the message SENDING. */
  predicate LeavesSending(s: State, e: Event, c: nat) {
    Attempted(s, e, c) && s.status != Paused && s.status != Cancelled && e.outcome == Throws(true)
  }

  function LeavingSending(c: nat): (State, Event) -> bool {
    (s, e) => LeavesSending(s, e, c)
  }

  /** A message on its way is SENDING once an attempt has left it so, and QUEUED till then. */
  ghost predicate MovesSending(s: State, e: Event, u: State, c: nat) {
    MessageIs(u, c, Sending) <==>
      (MessageIs(u, c, Queued) || MessageIs(u, c, Sending)) && (MessageIs(s, c, Sending) || LeavesSending(s, e, c))
  }

  lemma ThrowMarks(s: State, c: nat, sending: bool)
    requires c in s.tables.jobs && c in s.tables.messages && Open(s.tables.messages[c])
    ensures MessageIs(Throw(s, c, sending), c, Sending) <==> MessageIs(s, c, Sending) || sending
  {
  }

  lemma DeliverMovesSending(s: State, e: Event, c: nat)
    requires Inv(s) && e.Deliver?
    ensures MovesSending(s, e, Step(s, e), c)
  {
    OnlyAttempts(s, e);
    var d := e.contact;
    if d in s.tables.jobs {
      AttemptIs(s, e, d);
      SettlingWrites(s, e, d);
      if !SendsIt(s, e, d) && !BlocksIt(s, e, d) { OthersStayOpen(s, e, d); }
      if ThrowsIt(s, e, d) { ThrowMarks(s, d, s.status != Paused && e.outcome == Throws(true)); }
    } else {
      assert Step(s, e) == s;
    }
  }

  lemma ProcessMovesSending(s: State, e: Event, m: Member)
    requires Inv(s) && e.Process? && m in s.audience && m.included
    ensures MovesSending(s, e, Step(s, e), m.contact)
  {
    if s.status in {Approved, Scheduled, Running} && !e.policyBlock {
      if s.fanned { LaterRunKeeps(s, e.fit); } else { FirstRunMessage(s, e.fit, m.contact); }
    }
  }

  lemma FailureMovesSending(s: State, e: Event, c: nat)
    requires Inv(s) && e.FinalFailure?
    ensures MovesSending(s, e, Step(s, e), c)
  {
    if e.contact in s.failing {
      FailureWrites(s, e.contact);
      assert Step(s, e) == FailOne(s, e.contact);
    }
  }

  lemma MemberMovesSending(s: State, e: Event, m: Member)
    requires Inv(s) && m in s.audience && m.included
    ensures MovesSending(s, e, Step(s, e), m.contact)
  {
    match e
    case Process(_, _) => ProcessMovesSending(s, e, m);
    case Deliver(_, _, _) => DeliverMovesSending(s, e, m.contact);
    case FinalFailure(_) => FailureMovesSending(s, e, m.contact);
    case _ => StatusOnly(s, e);
  }

  /** A waiting message is SENDING exactly if some attempt on it threw after marking it so, and else QUEUED. */
  lemma {:induction false} SendingIff(audience: seq<Member>, es: seq<Event>, m: Member)
    requires Distinct(audience) && m in audience && m.included
    ensures var s, c := After(audience, es), m.contact;
      MessageIs(s, c, Queued) || MessageIs(s, c, Sending) ==>
        (MessageIs(s, c, Sending) <==> Ever(audience, es, LeavingSending(c)))
    ensures Ever(audience, es, LeavingSending(m.contact)) ==> m.contact in After(audience, es).tables.messages
  {
    var c := m.contact;
    if es != [] {
      var front, e := es[..|es| - 1], es[|es| - 1];
      SplitLast(es);
      SendingIff(audience, front, m);
      ReachableInv(audience, front);
      MemberMovesSending(After(audience, front), e, m);
      MemberMoves(After(audience, front), e, m);
      StaysWritten(After(audience, front), e, m);
      EverStep(audience, front, e, LeavingSending(c));
    }
  }

  lemma WrittenIffFanned(s: State, m: Member)
    requires Inv(s) && m in s.audience && m.included
    ensures m.contact in s.tables.messages <==> s.fanned
  {
    if s.fanned { assert MemberInv(s, m); }
  }

  /** A message is written before any attempt on it, and stays. */
  lemma StaysWritten(s: State, e: Event, m: Member)
    requires Inv(s) && m in s.audience && m.included
    ensures m.contact in s.tables.messages ==> m.contact in Step(s, e).tables.messages
  {
    WrittenIffFanned(s, m);
    StepKeeps(s, e);
    AudienceStays(s, e);
    WrittenIffFanned(Step(s, e), m);
  }

  /** Once a campaign is cancelled, no message becomes SENT that was not sent by then. */
  lemma NothingSentAfterCancel(audience: seq<Member>, es: seq<Event>, k: nat, m: Member)
    requires Distinct(audience) && m in audience && m.included && k <= |es|
    requires After(audience, es[..k]).status == Cancelled && MessageIs(After(audience, es), m.contact, Sent)
    ensures MessageIs(After(audience, es[..k]), m.contact, Sent)
  {
    var c := m.contact;
    StatusTellsHistory(audience, es, m);
    StatusTellsHistory(audience, es[..k], m);
    var j := WhenIt(audience, es, SendingIt(c));
    if j < k { HappenedBy(audience, es, SendingIt(c), j, k); } else { CancelledStays(audience, es, k, j); }
  }

  lemma WhenIt(audience: seq<Member>, es: seq<Event>, such: (State, Event) -> bool) returns (j: nat)
    requires Ever(audience, es, such)
    ensures j < |es| && such(After(audience, es[..j]), es[j])
  {
    j :| 0 <= j < |es| && such(After(audience, es[..j]), es[j]);
  }

  lemma HappenedBy(audience: seq<Member>, es: seq<Event>, such: (State, Event) -> bool, j: nat, k: nat)
    requires j < k <= |es| && such(After(audience, es[..j]), es[j])
    ensures Ever(audience, es[..k], such)
  {
    assert es[..k][..j] == es[..j] && es[..k][j] == es[j];
  }

  lemma {:induction false} CancelledStays(audience: seq<Member>, es: seq<Event>, k: nat, j: nat)
    requires k <= j <= |es| && After(audience, es[..k]).status == Cancelled
    ensures After(audience, es[..j]).status == Cancelled
    decreases j
  {
    if k < j {
      CancelledStays(audience, es, k, j - 1);
      EverStep(audience, es[..j - 1], es[j - 1], SendingIt(0));
      assert es[..j] == es[..j - 1] + [es[j - 1]];
      EndedStays(After(audience, es[..j - 1]), es[j - 1]);
    }
  }

  // ----- Five throws, no more and no fewer -----

  /** How often an attempt on the message has thrown. */
  function ThrownOn(audience: seq<Member>, es: seq<Event>, c: nat): nat {
    if es == [] then 0
    else
      ThrownOn(audience, es[..|es| - 1], c)
      + if ThrowsIt(After(audience, es[..|es| - 1]), es[|es| - 1], c) then 1 else 0
  }

  /** The attempts a job has used up are the throws so far; with five of them the message has failed or is about to. */
  ghost predicate Tally(s: State, c: nat, n: nat) {
    && n <= 5 && (n == 5 <==> c in s.failing || MessageIs(s, c, Undelivered))
    && (c in s.tables.jobs ==> s.tables.jobs[c] == n)
    && (!s.fanned ==> n == 0)
  }

  lemma ThrowTallies(s: State, e: Event, c: nat, n: nat)
    requires Inv(s) && Tally(s, c, n) && ThrowsIt(s, e, c)
    ensures Tally(Step(s, e), c, n + 1)
  {
    AttemptIs(s, e, c);
    var m := MemberAt(s, c);
    ThrowStaysOpen(s, c, s.status != Paused && e.outcome == Throws(true));
  }

  lemma SettleTallies(s: State, c: nat, d: Delivery, x: nat, n: nat)
    requires Inv(s) && s.fanned && c in s.tables.jobs && d in {Sent, Blocked} && Tally(s, x, n)
    ensures Tally(Settle(s, c, d), x, n)
  {
    SettleIsSettled(s, c, d);
    var m := MemberAt(s, c);
  }

  lemma ThrowLeavesOthers(s: State, c: nat, sending: bool, x: nat, n: nat)
    requires c in s.tables.jobs && c in s.tables.messages && Open(s.tables.messages[c]) && Tally(s, x, n) && x != c
    ensures Tally(Throw(s, c, sending), x, n)
  {
    ThrowStaysOpen(s, c, sending);
  }

  lemma DeliverTallies(s: State, e: Event, c: nat, n: nat)
    requires Inv(s) && e.Deliver? && Tally(s, c, n)
    ensures Tally(Step(s, e), c, n + if ThrowsIt(s, e, c) then 1 else 0)
  {
    OnlyAttempts(s, e);
    var d := e.contact;
    if d in s.tables.jobs {
      var m := MemberAt(s, d);
      AttemptIs(s, e, d);
      if SendsIt(s, e, d) {
        SettleTallies(s, d, Sent, c, n);
      } else if BlocksIt(s, e, d) {
        SettleTallies(s, d, Blocked, c, n);
      } else if ThrowsIt(s, e, d) {
        if d == c { ThrowTallies(s, e, c, n); }
        else { ThrowLeavesOthers(s, d, s.status != Paused && e.outcome == Throws(true), c, n); }
      }
    }
  }

  lemma FailureTallies(s: State, e: Event, c: nat, n: nat)
    requires Inv(s) && e.FinalFailure? && Tally(s, c, n)
    ensures Tally(Step(s, e), c, n)
  {
    if e.contact in s.failing { FailIsSettled(s, e.contact); }
  }

  lemma ProcessTallies(s: State, e: Event, c: nat, n: nat)
    requires Inv(s) && e.Process? && Tally(s, c, n)
    ensures Tally(Step(s, e), c, n)
  {
    if s.status in {Approved, Scheduled, Running} && !e.policyBlock {
      if s.fanned { LaterRunKeeps(s, e.fit); } else { FirstRunMessage(s, e.fit, c); }
    }
  }

  lemma StepTallies(s: State, e: Event, c: nat, n: nat)
    requires Inv(s) && Tally(s, c, n)
    ensures Tally(Step(s, e), c, n + if ThrowsIt(s, e, c) then 1 else 0)
  {
    match e
    case Process(_, _) => ProcessTallies(s, e, c, n);
    case Deliver(_, _, _) => DeliverTallies(s, e, c, n);
    case FinalFailure(_) => FailureTallies(s, e, c, n);
    case _ => StatusOnly(s, e);
  }

  lemma {:induction false} RunTallies(audience: seq<Member>, es: seq<Event>, c: nat)
    requires Distinct(audience)
    ensures Tally(After(audience, es), c, ThrownOn(audience, es, c))
  {
    if es != [] {
      RunTallies(audience, es[..|es| - 1], c);
      ReachableInv(audience, es[..|es| - 1]);
      StepTallies(After(audience, es[..|es| - 1]), es[|es| - 1], c, ThrownOn(audience, es[..|es| - 1], c));
    }
  }

  /** A message is FAILED exactly if five attempts on it threw and its final-failure handler ran. */
  lemma FailedIff(audience: seq<Member>, es: seq<Event>, m: Member)
    requires Distinct(audience) && m in audience && m.included
    ensures var s, c := After(audience, es), m.contact;
      && ThrownOn(audience, es, c) <= 5
      && (MessageIs(s, c, Undelivered) <==> ThrownOn(audience, es, c) == 5 && Ever(audience, es, GivingUp(c)))
  {
    RunTallies(audience, es, m.contact);
    StatusTellsHistory(audience, es, m);
  }

  /** A fan-out that the policy let run. */
  function FanningOut(): (State, Event) -> bool {
    (s: State, e: Event) => e.Process? && !e.policyBlock && s.status in {Approved, Scheduled, Running}
  }

  lemma FansOut(s: State, e: Event)
    ensures Step(s, e).fanned <==> s.fanned || FanningOut()(s, e)
  {
  }

  lemma {:induction false} FannedIff(audience: seq<Member>, es: seq<Event>)
    ensures After(audience, es).fanned <==> Ever(audience, es, FanningOut())
  {
    if es != [] {
      var front, e := es[..|es| - 1], es[|es| - 1];
      SplitLast(es);
      FannedIff(audience, front);
      EverStep(audience, front, e, FanningOut());
      FansOut(After(audience, front), e);
    }
  }

  /** An included member has a message exactly if some fan-out has run, and one that none of these ended waits. */
  lemma WaitingIff(audience: seq<Member>, es: seq<Event>, m: Member)
    requires Distinct(audience) && m in audience && m.included
    ensures var s, c := After(audience, es), m.contact;
      && (c in s.tables.messages <==> Ever(audience, es, FanningOut()))
      && (MessageIs(s, c, Queued) || MessageIs(s, c, Sending) <==>
            Ever(audience, es, FanningOut()) && !Ever(audience, es, SendingIt(c))
            && !Ever(audience, es, BlockingIt(c)) && !Ever(audience, es, GivingUp(c)))
  {
    StatusTellsHistory(audience, es, m);
    FannedIff(audience, es);
    ReachableInv(audience, es);
    if After(audience, es).fanned { assert MemberInv(After(audience, es), m); }
  }

  /** While messages wait, each has a live job, or its last attempt has thrown. */
  lemma WaitingIsCarried(audience: seq<Member>, es: seq<Event>, m: Member)
    requires Distinct(audience) && m in audience && m.included
    ensures var s, c := After(audience, es), m.contact;
      (MessageIs(s, c, Queued) || MessageIs(s, c, Sending)) <==>
        (c in s.tables.jobs && s.tables.jobs[c] == ThrownOn(audience, es, c) < 5)
        || (c in s.failing && ThrownOn(audience, es, c) == 5)
  {
    ReachableInv(audience, es);
    RunTallies(audience, es, m.contact);
    var s := After(audience, es);
    if s.fanned { assert MemberInv(s, m); }
  }

  /** When a workspace is blocked its running and scheduled campaigns are paused, and nothing else changes. */
  lemma BlockingPauses(s: State)
    ensures Step(s, PauseAll) == s.(status := Step(s, PauseAll).status)
    ensures Step(s, PauseAll).status == if s.status == Running || s.status == Scheduled then Paused else s.status
  {
  }

  // ----- Nothing without approval, nothing cancelled by itself -----

  function Approving(): (State, Event) -> bool {
    (s: State, e: Event) => e == Approve && s.status in {Draft, PendingApproval}
  }

  function Cancelling(): (State, Event) -> bool {
    (s: State, e: Event) => e == Cancel && s.status in {Draft, PendingApproval, Approved, Scheduled, Running, Paused}
  }

  lemma {:induction false} OnlyApprovedLeaveDraft(audience: seq<Member>, es: seq<Event>)
    requires Distinct(audience)
    ensures var s := After(audience, es);
      s.fanned || s.status !in {Draft, Cancelled} ==> Ever(audience, es, Approving())
  {
    if es != [] {
      var front, e := es[..|es| - 1], es[|es| - 1];
      SplitLast(es);
      OnlyApprovedLeaveDraft(audience, front);
      ReachableInv(audience, front);
      EverStep(audience, front, e, Approving());
      if !Ever(audience, es, Approving()) { StaysDraft(After(audience, front), e); }
    }
  }

  lemma StaysDraft(s: State, e: Event)
    requires Inv(s) && !s.fanned && s.status in {Draft, Cancelled} && !Approving()(s, e)
    ensures var u := Step(s, e); !u.fanned && u.status in {Draft, Cancelled}
  {
    if e.Deliver? { assert e.contact !in s.tables.jobs; }
  }

  /** No message is ever written for a campaign nobody approved. */
  lemma NothingUnapproved(audience: seq<Member>, es: seq<Event>)
    requires Distinct(audience) && After(audience, es).tables.messages != map[]
    ensures Ever(audience, es, Approving())
  {
    ReachableInv(audience, es);
    OnlyApprovedLeaveDraft(audience, es);
  }

  lemma CancelMoves(s: State, e: Event)
    ensures Step(s, e).status == Cancelled <==> s.status == Cancelled || Cancelling()(s, e)
  {
  }

  /** A campaign is CANCELLED exactly if somebody cancelled it before it had ended. */
  lemma {:induction false} CancelledIff(audience: seq<Member>, es: seq<Event>)
    ensures After(audience, es).status == Cancelled <==> Ever(audience, es, Cancelling())
  {
    if es != [] {
      var front, e := es[..|es| - 1], es[|es| - 1];
      SplitLast(es);
      CancelledIff(audience, front);
      EverStep(audience, front, e, Cancelling());
      CancelMoves(After(audience, front), e);
    }
  }
}
