/** Delivery ends: under fair scheduling and finitely many deferrals every campaign message is settled. */
module CampaignTermination {
  import opened FanOut
  import opened Campaign

  /** What a message still owes: the attempts left to its job and its final-failure handler. */
  function Weight(s: State, c: nat): nat {
    if c in s.tables.jobs then (if s.tables.jobs[c] < Attempts then 1 + Attempts - s.tables.jobs[c] else 1)
    else if c in s.failing then 1 else 0
  }

  function Work(s: State, n: nat): nat
    requires n <= |s.audience|
  {
    if n == 0 then 0 else Work(s, n - 1) + Weight(s, s.audience[n - 1].contact)
  }

  function WorkOf(s: State): nat {
    Work(s, |s.audience|)
  }

  /** An attempt that puts the job off: the campaign is paused or the account is over its rate. */
  predicate Deferral(s: State, e: Event) {
    e.Deliver? && Defers(s, e.token, e.outcome)
  }

  ghost predicate Lowers(s: State, u: State, c: nat) {
    Weight(u, c) < Weight(s, c) && forall x: nat :: x != c ==> Weight(u, x) == Weight(s, x)
  }

  lemma SettleLowers(s: State, c: nat, d: Delivery)
    requires Inv(s) && c in s.tables.jobs
    ensures Lowers(s, Settle(s, c, d), c)
  {
    var m := MemberAt(s, c);
  }

  lemma ThrowLowers(s: State, c: nat, sending: bool)
    requires Inv(s) && c in s.tables.jobs
    ensures Lowers(s, Throw(s, c, sending), c)
  {
    var m := MemberAt(s, c);
  }

  lemma DeliverLowers(s: State, c: nat, token: bool, outcome: Outcome)
    requires Inv(s) && c in s.tables.jobs
    ensures
      if Defers(s, token, outcome) then DeliverOne(s, c, token, outcome) == s
      else Lowers(s, DeliverOne(s, c, token, outcome), c)
  {
    var m := MemberAt(s, c);
    DeliverIsOneOf(s, c, token, outcome);
    SettleLowers(s, c, Blocked);
    SettleLowers(s, c, Sent);
    ThrowLowers(s, c, false);
    ThrowLowers(s, c, true);
  }

  lemma FailLowers(s: State, c: nat)
    requires Inv(s) && c in s.failing
    ensures Lowers(s, FailOne(s, c), c)
  {
    var m := MemberAt(s, c);
  }

  lemma ProcessAddsNoWork(s: State, policyBlock: bool, fit: set<nat>, c: nat)
    requires Inv(s) && s.fanned
    ensures Weight(ProcessOne(s, policyBlock, fit), c) == Weight(s, c)
  {
    if s.status in {Approved, Scheduled, Running} && !policyBlock { LaterRunKeeps(s, fit); }
  }

  /** No step adds work for any contact. */
  lemma StepAddsNoWork(s: State, e: Event, c: nat)
    requires Inv(s) && s.fanned
    ensures Weight(Step(s, e), c) <= Weight(s, c)
  {
    if e.Process? {
      ProcessAddsNoWork(s, e.policyBlock, e.fit, c);
    } else if e.Deliver? {
      if e.contact in s.tables.jobs { DeliverLowers(s, e.contact, e.token, e.outcome); }
    } else if e.FinalFailure? {
      if e.contact in s.failing { FailLowers(s, e.contact); }
    } else {
      StatusOnly(s, e);
    }
  }

  lemma {:induction false} SumLowers(s: State, u: State, n: nat)
    requires s.audience == u.audience && n <= |s.audience| && forall c: nat :: Weight(u, c) <= Weight(s, c)
    ensures Work(u, n) <= Work(s, n)
    ensures (exists i :: 0 <= i < n && Weight(u, s.audience[i].contact) < Weight(s, s.audience[i].contact)) ==>
      Work(u, n) < Work(s, n)
  {
    if n > 0 { SumLowers(s, u, n - 1); }
  }

  lemma {:induction false} NoWork(s: State, n: nat)
    requires n <= |s.audience| && Work(s, n) == 0
    ensures forall i :: 0 <= i < n ==> Weight(s, s.audience[i].contact) == 0
  {
    if n > 0 { NoWork(s, n - 1); }
  }

  lemma {:induction false} SomeWork(s: State, n: nat) returns (i: nat)
    requires n <= |s.audience| && Work(s, n) > 0
    ensures i < n && Weight(s, s.audience[i].contact) > 0
  {
    i := n - 1;
    if Weight(s, s.audience[n - 1].contact) == 0 { i := SomeWork(s, n - 1); }
  }

  // ----- At most five attempts -----

  /** A delivery that is neither deferred nor in vain. */
  predicate IsAttempt(s: State, e: Event, c: nat) {
    e.Deliver? && e.contact == c && c in s.tables.jobs && !Defers(s, e.token, e.outcome)
  }

  function AttemptsMade(s: State, es: seq<Event>, c: nat): nat {
    if es == [] then 0
    else AttemptsMade(s, es[..|es| - 1], c) + if IsAttempt(Run(s, es[..|es| - 1]), es[|es| - 1], c) then 1 else 0
  }

  /** The attempts a contact's message still has; all of them while it is not written. */
  function AttemptsLeft(s: State, c: nat): nat {
    if !s.fanned then Attempts
    else if c in s.tables.jobs && s.tables.jobs[c] < Attempts then Attempts - s.tables.jobs[c]
    else 0
  }

  lemma SettleUsesUp(s: State, c: nat, d: Delivery)
    requires Inv(s) && c in s.tables.jobs
    ensures AttemptsLeft(Settle(s, c, d), c) < AttemptsLeft(s, c)
    ensures forall x: nat :: x != c ==> AttemptsLeft(Settle(s, c, d), x) == AttemptsLeft(s, x)
  {
    var m := MemberAt(s, c);
  }

  lemma ThrowUsesOne(s: State, c: nat, sending: bool)
    requires Inv(s) && c in s.tables.jobs
    ensures AttemptsLeft(Throw(s, c, sending), c) + 1 == AttemptsLeft(s, c)
    ensures forall x: nat :: x != c ==> AttemptsLeft(Throw(s, c, sending), x) == AttemptsLeft(s, x)
  {
    var m := MemberAt(s, c);
  }

  /** One attempt fewer for the message attempted, and as many as before for any other. */
  ghost predicate Spends(s: State, u: State, d: nat, c: nat) {
    if c == d then AttemptsLeft(u, c) < AttemptsLeft(s, c) else AttemptsLeft(u, c) == AttemptsLeft(s, c)
  }

  lemma SettleSpends(s: State, d: nat, result: Delivery, c: nat)
    requires Inv(s) && d in s.tables.jobs
    ensures Spends(s, Settle(s, d, result), d, c)
  {
    SettleUsesUp(s, d, result);
  }

  lemma ThrowSpends(s: State, d: nat, sending: bool, c: nat)
    requires Inv(s) && d in s.tables.jobs
    ensures Spends(s, Throw(s, d, sending), d, c)
  {
    ThrowUsesOne(s, d, sending);
  }

  lemma DeliveryUsesUp(s: State, e: Event, c: nat)
    requires Inv(s) && e.Deliver? && e.contact in s.tables.jobs
    ensures AttemptsLeft(Step(s, e), c) + (if IsAttempt(s, e, c) then 1 else 0) <= AttemptsLeft(s, c)
  {
    var d := e.contact;
    var m := MemberAt(s, d);
    DeliverIsOneOf(s, d, e.token, e.outcome);
    SettleSpends(s, d, Blocked, c);
    SettleSpends(s, d, Sent, c);
    ThrowSpends(s, d, false, c);
    ThrowSpends(s, d, true, c);
  }

  lemma ProcessUsesNone(s: State, e: Event, c: nat)
    requires Inv(s) && e.Process?
    ensures AttemptsLeft(Step(s, e), c) <= AttemptsLeft(s, c)
  {
    if s.fanned && s.status in {Approved, Scheduled, Running} && !e.policyBlock { LaterRunKeeps(s, e.fit); }
  }

  lemma StepUsesUp(s: State, e: Event, c: nat)
    requires Inv(s)
    ensures AttemptsLeft(Step(s, e), c) + (if IsAttempt(s, e, c) then 1 else 0) <= AttemptsLeft(s, c)
  {
    if e.Deliver? {
      if e.contact in s.tables.jobs { DeliveryUsesUp(s, e, c); }
    } else if e.Process? {
      ProcessUsesNone(s, e, c);
    } else if e.FinalFailure? {
      if e.contact in s.failing { var m := MemberAt(s, e.contact); }
    } else {
      StatusOnly(s, e);
    }
  }

  lemma {:induction false} AttemptsAreUsedUp(s: State, es: seq<Event>, c: nat)
    requires Inv(s)
    ensures Inv(Run(s, es)) && AttemptsMade(s, es, c) + AttemptsLeft(Run(s, es), c) <= AttemptsLeft(s, c)
  {
    if es != [] {
      AttemptsAreUsedUp(s, es[..|es| - 1], c);
      StepUsesUp(Run(s, es[..|es| - 1]), es[|es| - 1], c);
      StepKeeps(Run(s, es[..|es| - 1]), es[|es| - 1]);
    }
  }

  /**
   In every run of a campaign, however often it is paused, resumed and fanned out, a message is attempted at most five
   times.
  */
  lemma AtMostFiveAttempts(audience: seq<Member>, es: seq<Event>, c: nat)
    requires Distinct(audience)
    ensures AttemptsMade(Created(audience), es, c) <= 5
  {
    ReachableInv(audience, []);
    AttemptsAreUsedUp(Created(audience), es, c);
  }

  // ----- Infinite runs -----

  ghost predicate IsRun(states: nat -> State, events: nat -> Event) {
    forall t: nat {:trigger events(t)} :: states(t + 1) == Step(states(t), events(t))
  }

  ghost predicate Alive(s: State) {
    Inv(s) && s.fanned && s.status != Failed
  }

  lemma AliveStays(s: State, e: Event)
    requires Alive(s)
    ensures Alive(Step(s, e)) && Step(s, e).audience == s.audience
  {
    StepKeeps(s, e);
    AudienceStays(s, e);
    NeverFails(s, e);
  }

  /** A run of a campaign that has been fanned out and has a message to send. */
  ghost predicate FannedRun(states: nat -> State, events: nat -> Event) {
    IsRun(states, events) && Alive(states(0))
  }

  lemma NextState(states: nat -> State, events: nat -> Event, t: nat)
    requires FannedRun(states, events)
    ensures states(t + 1) == Step(states(t), events(t))
  {
  }

  predicate Acts(s: State, e: Event, c: nat) {
    (e.Deliver? && e.contact == c && c in s.tables.jobs) || (e.FinalFailure? && e.contact == c && c in s.failing)
  }

  /** A job in the queue is taken up again in time, and so is the handler of a job that has failed for good. */
  ghost predicate Fair(states: nat -> State, events: nat -> Event) {
    forall t: nat, c: nat {:trigger TakenUp(states, events, t, c)} ::
      Weight(states(t), c) > 0 ==> TakenUp(states, events, t, c)
  }

  ghost predicate TakenUp(states: nat -> State, events: nat -> Event, t: nat, c: nat) {
    exists u: nat :: t <= u && (Acts(states(u), events(u), c) || Weight(states(u), c) == 0)
  }

  ghost predicate NoMoreDeferrals(states: nat -> State, events: nat -> Event, from: nat) {
    forall t: nat {:trigger events(t)} :: t >= from ==> !Deferral(states(t), events(t))
  }

  lemma {:induction false} StaysFanned(states: nat -> State, events: nat -> Event, t: nat)
    requires FannedRun(states, events)
    ensures Alive(states(t)) && states(t).audience == states(0).audience
  {
    if t > 0 {
      StaysFanned(states, events, t - 1);
      AliveStays(states(t - 1), events(t - 1));
      NextState(states, events, t - 1);
    }
  }

  /** Once fanned out, a campaign that has not FAILED never does. */
  lemma NeverFails(s: State, e: Event)
    requires Inv(s) && s.fanned && s.status != Failed
    ensures Step(s, e).status != Failed
  {
    if e.Process? && s.status in {Approved, Scheduled, Running} && !e.policyBlock { LaterRunKeeps(s, e.fit); }
  }

  lemma NoWorkAddedNow(states: nat -> State, events: nat -> Event, t: nat, c: nat)
    requires FannedRun(states, events)
    ensures Weight(states(t + 1), c) <= Weight(states(t), c)
  {
    StaysFanned(states, events, t);
    StepAddsNoWork(states(t), events(t), c);
    NextState(states, events, t);
  }

  lemma {:induction false} NeverGrows(f: nat -> nat, t: nat, u: nat)
    requires t <= u && forall k: nat :: f(k + 1) <= f(k)
    ensures f(u) <= f(t)
    decreases u
  {
    if t < u {
      NeverGrows(f, t, u - 1);
      assert f(u - 1 + 1) <= f(u - 1);
    }
  }

  lemma NoWorkAdded(states: nat -> State, events: nat -> Event, t: nat, u: nat, c: nat)
    requires FannedRun(states, events) && t <= u
    ensures Weight(states(u), c) <= Weight(states(t), c)
  {
    var weight: nat -> nat := k => Weight(states(k), c);
    forall k: nat ensures weight(k + 1) <= weight(k) { NoWorkAddedNow(states, events, k, c); }
    NeverGrows(weight, t, u);
  }

  lemma WorkFalls(states: nat -> State, events: nat -> Event, t: nat, u: nat)
    requires FannedRun(states, events) && t <= u
    ensures states(t).audience == states(u).audience && WorkOf(states(u)) <= WorkOf(states(t))
    ensures (exists i :: 0 <= i < |states(t).audience|
              && Weight(states(u), states(t).audience[i].contact) < Weight(states(t), states(t).audience[i].contact))
            ==> WorkOf(states(u)) < WorkOf(states(t))
  {
    StaysFanned(states, events, t);
    StaysFanned(states, events, u);
    forall c: nat ensures Weight(states(u), c) <= Weight(states(t), c) { NoWorkAdded(states, events, t, u, c); }
    SumLowers(states(t), states(u), |states(t).audience|);
  }

  lemma ActLowers(s: State, e: Event, c: nat)
    requires Inv(s) && Acts(s, e, c) && !Deferral(s, e)
    ensures Weight(Step(s, e), c) < Weight(s, c)
  {
    if e.Deliver? {
      assert Step(s, e) == DeliverOne(s, c, e.token, e.outcome);
      assert e == Deliver(c, e.token, e.outcome);
      DeliverLowers(s, c, e.token, e.outcome);
    } else {
      assert Step(s, e) == FailOne(s, c);
      FailLowers(s, c);
    }
  }

  lemma ActingLowers(states: nat -> State, events: nat -> Event, from: nat, u: nat, c: nat)
    requires FannedRun(states, events) && NoMoreDeferrals(states, events, from) && u >= from
    requires Acts(states(u), events(u), c)
    ensures Weight(states(u + 1), c) < Weight(states(u), c)
  {
    StaysFanned(states, events, u);
    ActLowers(states(u), events(u), c);
    NextState(states, events, u);
  }

  lemma PickTime(states: nat -> State, events: nat -> Event, t: nat, c: nat) returns (v: nat)
    requires Fair(states, events) && Weight(states(t), c) > 0
    ensures t <= v && (Acts(states(v), events(v), c) || Weight(states(v), c) == 0)
  {
    assert TakenUp(states, events, t, c);
    v :| t <= v && (Acts(states(v), events(v), c) || Weight(states(v), c) == 0);
  }

  lemma LessOwedAfter(states: nat -> State, events: nat -> Event, from: nat, t: nat, c: nat, v: nat)
    requires FannedRun(states, events) && NoMoreDeferrals(states, events, from) && from <= t <= v
    requires Weight(states(t), c) > 0 && (Acts(states(v), events(v), c) || Weight(states(v), c) == 0)
    ensures Weight(states(v + 1), c) < Weight(states(t), c)
  {
    NoWorkAdded(states, events, t, v, c);
    if Weight(states(v), c) == 0 {
      NoWorkAddedNow(states, events, v, c);
    } else {
      ActingLowers(states, events, from, v, c);
    }
  }

  /** A message that is owed something will be owed less. */
  lemma LessOwedLater(states: nat -> State, events: nat -> Event, from: nat, t: nat, c: nat) returns (u: nat)
    requires FannedRun(states, events) && Fair(states, events) && NoMoreDeferrals(states, events, from) && t >= from
    requires Weight(states(t), c) > 0
    ensures u > t && Weight(states(u), c) < Weight(states(t), c)
  {
    var v := PickTime(states, events, t, c);
    LessOwedAfter(states, events, from, t, c, v);
    u := v + 1;
  }

  /** While there is work there will be less. */
  lemma LessWorkLater(states: nat -> State, events: nat -> Event, from: nat, t: nat) returns (u: nat)
    requires FannedRun(states, events) && Fair(states, events) && NoMoreDeferrals(states, events, from) && t >= from
    requires WorkOf(states(t)) > 0
    ensures u > t && WorkOf(states(u)) < WorkOf(states(t))
  {
    var i := SomeWork(states(t), |states(t).audience|);
    u := LessOwedLater(states, events, from, t, states(t).audience[i].contact);
    WorkFalls(states, events, t, u);
  }

  lemma {:induction false} WorkEnds(states: nat -> State, events: nat -> Event, from: nat, t: nat) returns (u: nat)
    requires FannedRun(states, events)
    requires Fair(states, events) && NoMoreDeferrals(states, events, from) && t >= from
    ensures u >= t && WorkOf(states(u)) == 0
    decreases WorkOf(states(t))
  {
    u := t;
    if WorkOf(states(t)) > 0 {
      u := LessWorkLater(states, events, from, t);
      u := WorkEnds(states, events, from, u);
    }
  }

  /** Every campaign message is SENT, FAILED or BLOCKED and the campaign COMPLETED or CANCELLED. */
  ghost predicate Over(s: State) {
    && (forall c :: c in s.tables.links ==> s.tables.links[c] in {Sent, Undelivered, Blocked})
    && s.status in {Completed, Cancelled}
  }

  lemma NoWorkIsOver(s: State)
    requires Inv(s) && s.fanned && s.status != Failed && WorkOf(s) == 0
    ensures Over(s)
  {
    NoWork(s, |s.audience|);
    forall c | c in s.tables.links ensures s.tables.links[c] in {Sent, Undelivered, Blocked} {
      assert c in s.tables.links.Keys;
      var i :| 0 <= i < |s.audience| && s.audience[i].contact == c;
      assert MemberInv(s, s.audience[i]);
    }
    NonePending(s.tables.links);
  }

  /**
   Once the fan-out has left a campaign RUNNING, every fair run with finitely many deferrals reaches a time
   from which the campaign is over for good.
   */
  lemma CampaignsEnd(states: nat -> State, events: nat -> Event, from: nat) returns (end: nat)
    requires FannedRun(states, events) && states(0).status == Running
    requires Fair(states, events) && NoMoreDeferrals(states, events, from)
    ensures forall t: nat :: t >= end ==> Over(states(t))
  {
    end := WorkEnds(states, events, from, from);
    forall t: nat | t >= end ensures Over(states(t)) {
      WorkFalls(states, events, end, t);
      StaysFanned(states, events, t);
      NoWorkIsOver(states(t));
    }
  }
}
