/** The handlers of the worker and the campaign operations of the API, each shown to be one step of the campaign. */
module CampaignWorker {
  import opened Options
  import opened FanOut
  import opened Campaign

  function Included(audience: seq<Member>): nat {
    if audience == [] then 0
    else Included(audience[..|audience| - 1]) + if audience[|audience| - 1].included then 1 else 0
  }

  lemma {:induction false} IncludedCounts(audience: seq<Member>)
    ensures Included(audience) == |set i | 0 <= i < |audience| && audience[i].included|
  {
    if audience != [] {
      var k := |audience| - 1;
      IncludedCounts(audience[..k]);
      assert (set i | 0 <= i < |audience| && audience[i].included)
        == (set i | 0 <= i < k && audience[..k][i].included) + (if audience[k].included then {k} else {});
    }
  }

  datatype Action = DoPause | DoResume | DoCancel

  function EventOf(action: Action, admitted: bool): Event {
    match action
    case DoPause => Pause
    case DoResume => Resume(admitted)
    case DoCancel => Cancel
  }

  /** Why nothing may go out: another reason, or a quota that `more` messages would pass. */
  predicate PolicyBlocks(otherReason: bool, daily: nat, monthly: nat, dailyLimit: int, monthlyLimit: int, more: nat) {
    otherReason || daily + more > dailyLimit || monthly + more > monthlyLimit
  }

  lemma ServeCreates(t: Tables, m: Member, fit: set<nat>)
    ensures |Serve(t, m, fit).messages| == |t.messages| + if m.included && m.contact !in t.messages then 1 else 0
  {
    var u := Serve(t, m, fit);
    assert |u.messages| == |u.messages.Keys| && |t.messages| == |t.messages.Keys|;
    if m.included && m.contact !in t.messages { assert u.messages.Keys == t.messages.Keys + {m.contact}; }
  }

  /** What has not ended can be cancelled. */
  lemma NotEndedIff(s: Status)
    ensures s in {Draft, PendingApproval, Approved, Scheduled, Running, Paused}
      <==> s != Completed && s != Cancelled && s != Failed
  {
  }

  class CampaignStore {
    var status: Status
    var audience: seq<Member>
    var tables: Tables
    var failing: set<nat>
    var statistics: Option<Stats>
    var notices: nat
    var sentToday: nat
    var sentThisMonth: nat
    ghost var fanned: bool

    ghost function At(): State
      reads this
    {
      State(status, audience, tables, failing, statistics, notices, fanned)
    }

    /** Both counts of outbound messages have grown by `n`. */
    predicate SentGrew(today: nat, thisMonth: nat, n: int)
      reads this
    {
      sentToday - today == n && sentThisMonth - thisMonth == n
    }

    constructor (audience: seq<Member>, sentToday: nat, sentThisMonth: nat)
      ensures At() == Created(audience)
    {
      status, this.audience, tables, failing := Draft, audience, Tables(map[], map[], map[], 0, 0), {};
      statistics, notices, fanned := Some(Stats(0, 0, 0, 0)), 0, false;
      this.sentToday, this.sentThisMonth := sentToday, sentThisMonth;
    }

    method CountIncluded() returns (n: nat)
      ensures n == Included(audience)
    {
      n := 0;
      for i := 0 to |audience|
        invariant n == Included(audience[..i])
      {
        assert audience[..i + 1][..i] == audience[..i];
        if audience[i].included { n := n + 1; }
      }
      assert audience[..|audience|] == audience;
    }

    /** One turn of the fan-out loop; outbound messages are counted as they are created. */
    method ServeMember(m: Member, recipients: map<nat, Recipient>, promotional: bool)
      modifies this`tables, this`sentToday, this`sentThisMonth
      ensures tables == Serve(old(tables), m, Fit(recipients, promotional))
      ensures SentGrew(old(sentToday), old(sentThisMonth), |tables.messages| - |old(tables).messages|)
    {
      ServeCreates(tables, m, Fit(recipients, promotional));
      var c := m.contact;
      if !m.included {
        tables := tables.(links := tables.links[c := Blocked], blocked := tables.blocked + 1);
        return;
      }
      if c in tables.messages { return; }
      var allowed := c in recipients && MayReceive(recipients[c], promotional);
      var state := if allowed then Queued else Blocked;
      tables := tables.(messages := tables.messages[c := state]);
      sentToday, sentThisMonth := sentToday + 1, sentThisMonth + 1;
      tables := tables.(links := tables.links[c := state]);
      if allowed {
        tables := tables.(jobs := tables.jobs[c := 0], queued := tables.queued + 1);
      } else {
        tables := tables.(blocked := tables.blocked + 1);
      }
    }

    /** The fan-out loop. */
    method ServeAudience(recipients: map<nat, Recipient>, promotional: bool)
      modifies this`tables, this`sentToday, this`sentThisMonth
      ensures tables == ServeAll(old(tables), audience, Fit(recipients, promotional))
      ensures SentGrew(old(sentToday), old(sentThisMonth), |tables.messages| - |old(tables).messages|)
      ensures |tables.messages| - |old(tables).messages| <= Included(audience)
    {
      for i := 0 to |audience|
        invariant tables == ServeAll(old(tables), audience[..i], Fit(recipients, promotional))
        invariant SentGrew(old(sentToday), old(sentThisMonth), |tables.messages| - |old(tables).messages|)
        invariant |tables.messages| - |old(tables).messages| <= Included(audience[..i])
      {
        assert audience[..i + 1][..i] == audience[..i];
        ServeCreates(tables, audience[i], Fit(recipients, promotional));
        ServeMember(audience[i], recipients, promotional);
      }
      assert audience[..|audience|] == audience;
    }

    /**
     processCampaign. `otherReason` stands for the block reasons that do not count messages. A run that
     passes the policy check creates one outbound message for each included member that had none, and
     leaves both counts within their limits.
     */
    method ProcessCampaign(recipients: map<nat, Recipient>, promotional: bool, otherReason: bool, dailyLimit: int,
                           monthlyLimit: int)
      returns (ran: bool)
      modifies this
      ensures var blocked := PolicyBlocks(otherReason, old(sentToday), old(sentThisMonth), dailyLimit, monthlyLimit,
                                          Included(audience));
        && At() == Step(old(At()), Process(blocked, Fit(recipients, promotional)))
        && ran == (old(status) in {Approved, Scheduled, Running} && !blocked)
      ensures SentGrew(old(sentToday), old(sentThisMonth), |tables.messages| - |old(tables).messages|)
      ensures ran ==> sentToday <= dailyLimit && sentThisMonth <= monthlyLimit
      ensures var more := |set i | 0 <= i < |old(audience)| && old(audience)[i].included|;
        ran == (old(status) in {Approved, Scheduled, Running} && !otherReason
                && old(sentToday) + more <= dailyLimit && old(sentThisMonth) + more <= monthlyLimit)
    {
      IncludedCounts(audience);
      ran := false;
      if status !in {Approved, Scheduled, Running} { return; }
      var more := CountIncluded();
      if PolicyBlocks(otherReason, sentToday, sentThisMonth, dailyLimit, monthlyLimit, more) {
        status, statistics := Paused, None;
        return;
      }
      ran := true;
      RunFanOut(recipients, promotional);
    }

    /** A run that has passed the policy check. */
    method RunFanOut(recipients: map<nat, Recipient>, promotional: bool)
      requires status in {Approved, Scheduled, Running}
      modifies this
      ensures At() == ProcessOne(old(At()), false, Fit(recipients, promotional))
      ensures SentGrew(old(sentToday), old(sentThisMonth), |tables.messages| - |old(tables).messages|)
      ensures |tables.messages| - |old(tables).messages| <= Included(old(audience))
    {
      status := Running;
      tables := tables.(queued := 0, blocked := 0);
      ServeAudience(recipients, promotional);
      status, statistics, fanned := RunStatus(tables.links), Some(RunStats(tables)), true;
    }

    method UpdateCampaignProgress(c: nat, d: Delivery)
      modifies this`tables, this`status, this`statistics, this`notices
      ensures At() == Progress(old(At()), c, d)
    {
      if c !in tables.links { return; }
      tables := tables.(links := tables.links[c := d]);
      var counts := Count(tables.links);
      if PendingOf(tables.links) == 0 {
        if status !in {Completed, Cancelled} {
          status, statistics, notices := Completed, Some(counts), notices + 1;
        }
      } else {
        statistics := Some(counts);
      }
    }

    /** The writes that end a message and its job, and the progress update after them. */
    method SettleMessage(c: nat, d: Delivery)
      modifies this`tables, this`status, this`statistics, this`notices
      ensures At() == Settle(old(At()), c, d)
    {
      tables := tables.(messages := tables.messages[c := d]);
      tables := WithoutJob(tables, c);
      UpdateCampaignProgress(c, d);
    }

    method ProcessMessage(c: nat, token: bool, outcome: Outcome)
      modifies this
      ensures At() == Step(old(At()), Deliver(c, token, outcome))
    {
      if c !in tables.jobs { return; }
      if c !in tables.messages || tables.messages[c] in {Sent, Blocked} {
        tables := WithoutJob(tables, c);
        return;
      }
      if status == Paused {
        if !token { FailAttempt(c); }
        return;
      }
      if status == Cancelled || outcome.Blocks? {
        SettleMessage(c, Blocked);
        return;
      }
      if outcome.RateLimited? {
        if !token { FailAttempt(c); }
        return;
      }
      if outcome.Sends? || outcome.sending { tables := tables.(messages := tables.messages[c := Sending]); }
      if outcome.Throws? { FailAttempt(c); } else { SettleMessage(c, Sent); }
    }

    /** The queue's account of a thrown attempt. */
    method FailAttempt(c: nat)
      requires c in tables.jobs
      modifies this`tables, this`failing
      ensures At() == Throw(old(At()), c, false)
    {
      if tables.jobs[c] + 1 < Attempts {
        tables := tables.(jobs := tables.jobs[c := tables.jobs[c] + 1]);
      } else {
        tables, failing := WithoutJob(tables, c), failing + {c};
      }
    }

    /** The failed handler of the message worker. */
    method OnFailed(c: nat)
      modifies this
      ensures At() == Step(old(At()), FinalFailure(c))
    {
      if c !in failing { return; }
      failing := failing - {c};
      if c in tables.messages && tables.messages[c] in {Queued, Sending} {
        tables := tables.(messages := tables.messages[c := Undelivered]);
      }
      UpdateCampaignProgress(c, Undelivered);
    }

    method ApproveCampaign() returns (ok: bool)
      modifies this`status
      ensures At() == Step(old(At()), Approve) && ok == (old(status) in {Draft, PendingApproval})
      ensures status == if ok then Approved else old(status)
    {
      ok := status in {Draft, PendingApproval};
      if ok { status := Approved; }
    }

    method ScheduleCampaign(inFuture: bool) returns (ok: bool)
      modifies this`status
      ensures ok == (old(status) == Approved && inFuture)
      ensures At() == if ok then Step(old(At()), Schedule) else old(At())
      ensures status == if ok then Scheduled else old(status)
    {
      ok := status == Approved && inFuture;
      if ok { status := Scheduled; }
    }

    method LaunchCampaign(recipientsValid: bool, admitted: bool) returns (ok: bool)
      modifies this`status
      ensures ok == (old(status) in {Approved, Scheduled, Paused} && recipientsValid && admitted)
      ensures At() == Step(old(At()), Launch(recipientsValid && admitted))
      ensures status == if ok then Running else old(status)
    {
      ok := false;
      if status !in {Approved, Scheduled, Paused} { return; }
      if !recipientsValid || !admitted { return; }
      status := Running;
      ok := true;
    }

    method SetStatus(action: Action, admitted: bool) returns (ok: bool)
      modifies this`status
      ensures At() == Step(old(At()), EventOf(action, admitted))
      ensures action == DoPause ==> ok == (old(status) in {Running, Scheduled}) && (ok ==> status == Paused)
      ensures action == DoResume ==> ok == (old(status) == Paused && admitted) && (ok ==> status == Running)
      ensures action == DoCancel ==>
        ok == (old(status) !in {Completed, Cancelled, Failed}) && (ok ==> status == Cancelled)
      ensures !ok ==> status == old(status)
    {
      NotEndedIff(status);
      var allowed := match action
        case DoPause => {Running, Scheduled}
        case DoResume => {Paused}
        case DoCancel => {Draft, PendingApproval, Approved, Scheduled, Running, Paused};
      ok := status in allowed && (action.DoResume? ==> admitted);
      if ok {
        status := match action case DoPause => Paused case DoResume => Running case DoCancel => Cancelled;
      }
    }
  }
}
