/**
 Who may send how much: the API's policy and the worker's own, written apart. Both are functions of one
 snapshot of the database and one reading of the clock.
 */
module OutboundPolicy {
  import opened Options
  import S = Subscriptions

  datatype Json =
    | Null
    | Bool(bool)
    | Number(value: real)
    | Text(text: string)
    | Array(items: seq<Json>)
    | Object(fields: map<string, Json>)

  /** A subscription with the message limits of its plan. */
  datatype Subscription = Subscription(
    startAt: int,
    endAt: int,
    status: S.Status,
    overrides: Json,
    planPerDay: int,
    planPerMonth: int
  )

  /** A workspace that is not deleted, with its newest subscription. */
  datatype Workspace = Workspace(active: bool, suspendedAt: Option<int>, newest: Option<Subscription>)

  datatype Snapshot = Snapshot(paused: bool, workspace: Option<Workspace>, today: nat, month: nat, now: int)

  datatype Refusal =
    | SystemPaused | TenantNotFound | TenantSuspended | NotConfigured | NotStarted | Disabled | HasExpired
    | BadStorageOverride | DailyQuota | MonthlyQuota

  datatype Block =
    | OutboundPaused
    | TenantBlocked
    | SubscriptionMissing
    | SubscriptionOver
    | DailyExceeded
    | MonthlyExceeded

  // ----- Overrides -----

  /** SubscriptionPolicyService.override for a limit that is a number. */
  function OverrideNumber(overrides: Json, key: string, fallback: int): real {
    if overrides.Object? && key in overrides.fields && overrides.fields[key].Number? then overrides.fields[key].value
    else fallback as real
  }

  predicate Integral(x: real) {
    x == x.Floor as real
  }

  /** The storage limit is a BigInt: reading it throws on a fraction, or on a text that is no integer. */
  predicate StorageReadable(overrides: Json, integerText: string -> bool) {
    overrides.Object? && "maxStorageBytes" in overrides.fields ==>
      match overrides.fields["maxStorageBytes"]
      case Number(x) => Integral(x)
      case Text(t) => integerText(t)
      case _ => true
  }

  // ----- The API -----

  function EffectiveStatus(sub: Subscription, now: int): S.Status {
    match S.LifecycleOf(sub.endAt, now)
    case Over => S.Expired
    case EndingSoon => if sub.status in {S.Active, S.Expiring} then S.Expiring else sub.status
    case LiveNow => if sub.status in {S.Active, S.Expiring} then S.Active else sub.status
  }

  /** resolveEntitlements with enforceActive. */
  function Unentitled(s: Snapshot, integerText: string -> bool): Option<Refusal> {
    if s.workspace.None? then Some(TenantNotFound)
    else if !s.workspace.value.active || s.workspace.value.suspendedAt.Some? then Some(TenantSuspended)
    else if s.workspace.value.newest.None? then Some(NotConfigured)
    else
      var sub := s.workspace.value.newest.value;
      var status := EffectiveStatus(sub, s.now);
      if sub.startAt > s.now then Some(NotStarted)
      else if status in {S.Suspended, S.Cancelled} then Some(Disabled)
      else if status == S.Expired then Some(HasExpired)
      else if !StorageReadable(sub.overrides, integerText) then Some(BadStorageOverride)
      else None
  }

  /** assertOutboundAllowed: None admits `more` messages. */
  function ApiRefusal(s: Snapshot, more: nat, integerText: string -> bool): Option<Refusal> {
    if s.paused then Some(SystemPaused)
    else if Unentitled(s, integerText).Some? then Unentitled(s, integerText)
    else if s.workspace.None? || s.workspace.value.newest.None? then None
    else
      var sub := s.workspace.value.newest.value;
      if (s.today + more) as real > OverrideNumber(sub.overrides, "maxMessagesPerDay", sub.planPerDay)
      then Some(DailyQuota)
      else if (s.month + more) as real > OverrideNumber(sub.overrides, "maxMessagesPerMonth", sub.planPerMonth)
      then Some(MonthlyQuota)
      else None
  }

  /** The one write of the API's check: a subscription found to be over is marked EXPIRED. */
  function AfterCheck(s: Snapshot, integerText: string -> bool): Option<Workspace> {
    if !s.paused && Unentitled(s, integerText) == Some(HasExpired) && s.workspace.Some?
      && s.workspace.value.newest.Some?
    then Some(s.workspace.value.(newest := Some(s.workspace.value.newest.value.(status := S.Expired))))
    else s.workspace
  }

  // ----- The worker -----

  /** The worker's reading of an override: its own object test, its own type test. */
  function WorkerLimit(overrides: Json, key: string, planLimit: int): real {
    var fields := match overrides case Object(fields) => fields case _ => map[];
    if key !in fields then planLimit as real
    else match fields[key] case Number(x) => x case _ => planLimit as real
  }

  /** outboundBlockReason. */
  function WorkerBlock(s: Snapshot, more: nat): Option<Block> {
    if s.paused then Some(OutboundPaused)
    else
      match s.workspace
      case None => Some(TenantBlocked)
      case Some(w) =>
        if !w.active || w.suspendedAt.Some? then Some(TenantBlocked)
        else
          match w.newest
          case None => Some(SubscriptionMissing)
          case Some(sub) =>
            if sub.status in {S.Suspended, S.Cancelled, S.Expired} || sub.endAt <= s.now then Some(SubscriptionOver)
            else if (s.today + more) as real > WorkerLimit(sub.overrides, "maxMessagesPerDay", sub.planPerDay)
            then Some(DailyExceeded)
            else if (s.month + more) as real > WorkerLimit(sub.overrides, "maxMessagesPerMonth", sub.planPerMonth)
            then Some(MonthlyExceeded)
            else None
  }

  // ----- What each answer means -----

  predicate Subscribed(s: Snapshot) {
    s.workspace.Some? && s.workspace.value.newest.Some?
  }

  /** The overrides hold this number under the key. */
  predicate Overrides(overrides: Json, key: string, x: real) {
    match overrides
    case Object(fields) => key in fields && fields[key] == Number(x)
    case _ => false
  }

  /** More than the number in the overrides, or than the plan allows where there is none. */
  ghost predicate PassesLimit(n: nat, overrides: Json, key: string, plan: int) {
    (exists x :: Overrides(overrides, key, x) && n as real > x)
    || ((forall x :: !Overrides(overrides, key, x)) && n > plan)
  }

  /** When the reason applies, whatever else does. */
  ghost predicate Applies(r: Refusal, s: Snapshot, more: nat, integerText: string -> bool) {
    match r
    case SystemPaused => s.paused
    case TenantNotFound => s.workspace == None
    case TenantSuspended =>
      s.workspace.Some? && (s.workspace.value.active == false || s.workspace.value.suspendedAt != None)
    case NotConfigured => s.workspace.Some? && s.workspace.value.newest == None
    case NotStarted => Subscribed(s) && s.now < s.workspace.value.newest.value.startAt
    case Disabled =>
      Subscribed(s) && s.now < s.workspace.value.newest.value.endAt
      && s.workspace.value.newest.value.status in {S.Suspended, S.Cancelled}
    case HasExpired =>
      Subscribed(s)
      && (s.workspace.value.newest.value.endAt <= s.now || s.workspace.value.newest.value.status == S.Expired)
    case BadStorageOverride => Subscribed(s) && !StorageReadable(s.workspace.value.newest.value.overrides, integerText)
    case DailyQuota =>
      Subscribed(s)
      && PassesLimit(s.today + more, s.workspace.value.newest.value.overrides, "maxMessagesPerDay",
                     s.workspace.value.newest.value.planPerDay)
    case MonthlyQuota =>
      Subscribed(s)
      && PassesLimit(s.month + more, s.workspace.value.newest.value.overrides, "maxMessagesPerMonth",
                     s.workspace.value.newest.value.planPerMonth)
  }

  /** The order in which the API looks for a reason. */
  function Rank(r: Refusal): nat {
    match r
    case SystemPaused => 0
    case TenantNotFound => 1
    case TenantSuspended => 2
    case NotConfigured => 3
    case NotStarted => 4
    case Disabled => 5
    case HasExpired => 6
    case BadStorageOverride => 7
    case DailyQuota => 8
    case MonthlyQuota => 9
  }

  lemma PassesIsOver(n: nat, overrides: Json, key: string, plan: int)
    ensures PassesLimit(n, overrides, key, plan) <==> n as real > OverrideNumber(overrides, key, plan)
  {
    if overrides.Object? && key in overrides.fields && overrides.fields[key].Number? {
      assert Overrides(overrides, key, overrides.fields[key].value);
    }
  }

  lemma UnentitledIs(s: Snapshot, more: nat, integerText: string -> bool)
    ensures Unentitled(s, integerText) ==
      if Applies(TenantNotFound, s, more, integerText) then Some(TenantNotFound)
      else if Applies(TenantSuspended, s, more, integerText) then Some(TenantSuspended)
      else if Applies(NotConfigured, s, more, integerText) then Some(NotConfigured)
      else if Applies(NotStarted, s, more, integerText) then Some(NotStarted)
      else if Applies(Disabled, s, more, integerText) then Some(Disabled)
      else if Applies(HasExpired, s, more, integerText) then Some(HasExpired)
      else if Applies(BadStorageOverride, s, more, integerText) then Some(BadStorageOverride)
      else None
  {
    if Subscribed(s) { S.QueriesAgree(s.workspace.value.newest.value.endAt, s.now); }
  }

  lemma RefusalIs(s: Snapshot, more: nat, integerText: string -> bool)
    ensures ApiRefusal(s, more, integerText) == FirstThat(q => Applies(q, s, more, integerText))
  {
    UnentitledIs(s, more, integerText);
    if Subscribed(s) {
      var sub := s.workspace.value.newest.value;
      PassesIsOver(s.today + more, sub.overrides, "maxMessagesPerDay", sub.planPerDay);
      PassesIsOver(s.month + more, sub.overrides, "maxMessagesPerMonth", sub.planPerMonth);
    }
  }

  ghost function FirstThat(applies: Refusal -> bool): Option<Refusal> {
    if applies(SystemPaused) then Some(SystemPaused)
    else if applies(TenantNotFound) then Some(TenantNotFound)
    else if applies(TenantSuspended) then Some(TenantSuspended)
    else if applies(NotConfigured) then Some(NotConfigured)
    else if applies(NotStarted) then Some(NotStarted)
    else if applies(Disabled) then Some(Disabled)
    else if applies(HasExpired) then Some(HasExpired)
    else if applies(BadStorageOverride) then Some(BadStorageOverride)
    else if applies(DailyQuota) then Some(DailyQuota)
    else if applies(MonthlyQuota) then Some(MonthlyQuota)
    else None
  }

  lemma FirstOf(applies: Refusal -> bool, answer: Option<Refusal>, r: Refusal)
    requires answer == FirstThat(applies)
    ensures answer == Some(r) <==> applies(r) && forall q: Refusal :: Rank(q) < Rank(r) ==> !applies(q)
    ensures answer == None <==> forall q: Refusal :: !applies(q)
  {
    forall q: Refusal | answer == None || (answer == Some(r) && Rank(q) < Rank(r)) ensures !applies(q) {
      match q
      case SystemPaused =>
      case TenantNotFound =>
      case TenantSuspended =>
      case NotConfigured =>
      case NotStarted =>
      case Disabled =>
      case HasExpired =>
      case BadStorageOverride =>
      case DailyQuota =>
      case MonthlyQuota =>
    }
  }

  /** The API refuses exactly if some reason applies, and gives the first in order that does. */
  lemma RefusedForFirstReason(s: Snapshot, more: nat, integerText: string -> bool, r: Refusal)
    ensures ApiRefusal(s, more, integerText) == Some(r) <==>
      Applies(r, s, more, integerText) && forall q: Refusal :: Rank(q) < Rank(r) ==> !Applies(q, s, more, integerText)
    ensures ApiRefusal(s, more, integerText) == None <==> forall q: Refusal :: !Applies(q, s, more, integerText)
  {
    RefusalIs(s, more, integerText);
    FirstOf(q => Applies(q, s, more, integerText), ApiRefusal(s, more, integerText), r);
  }

  /** When a block applies, whatever else does. */
  ghost predicate BlockApplies(b: Block, s: Snapshot, more: nat) {
    match b
    case OutboundPaused => s.paused
    case TenantBlocked =>
      s.workspace == None || s.workspace.value.active == false || s.workspace.value.suspendedAt != None
    case SubscriptionMissing => s.workspace.Some? && s.workspace.value.newest == None
    case SubscriptionOver =>
      Subscribed(s)
      && (s.workspace.value.newest.value.endAt <= s.now
          || s.workspace.value.newest.value.status in {S.Suspended, S.Cancelled, S.Expired})
    case DailyExceeded =>
      Subscribed(s)
      && PassesLimit(s.today + more, s.workspace.value.newest.value.overrides, "maxMessagesPerDay",
                     s.workspace.value.newest.value.planPerDay)
    case MonthlyExceeded =>
      Subscribed(s)
      && PassesLimit(s.month + more, s.workspace.value.newest.value.overrides, "maxMessagesPerMonth",
                     s.workspace.value.newest.value.planPerMonth)
  }

  function BlockRank(b: Block): nat {
    match b
    case OutboundPaused => 0
    case TenantBlocked => 1
    case SubscriptionMissing => 2
    case SubscriptionOver => 3
    case DailyExceeded => 4
    case MonthlyExceeded => 5
  }

  ghost function FirstBlock(applies: Block -> bool): Option<Block> {
    if applies(OutboundPaused) then Some(OutboundPaused)
    else if applies(TenantBlocked) then Some(TenantBlocked)
    else if applies(SubscriptionMissing) then Some(SubscriptionMissing)
    else if applies(SubscriptionOver) then Some(SubscriptionOver)
    else if applies(DailyExceeded) then Some(DailyExceeded)
    else if applies(MonthlyExceeded) then Some(MonthlyExceeded)
    else None
  }

  lemma FirstOfBlocks(applies: Block -> bool, answer: Option<Block>, b: Block)
    requires answer == FirstBlock(applies)
    ensures answer == Some(b) <==> applies(b) && forall q: Block :: BlockRank(q) < BlockRank(b) ==> !applies(q)
    ensures answer == None <==> forall q: Block :: !applies(q)
  {
    forall q: Block | answer == None || (answer == Some(b) && BlockRank(q) < BlockRank(b)) ensures !applies(q) {
      match q
      case OutboundPaused =>
      case TenantBlocked =>
      case SubscriptionMissing =>
      case SubscriptionOver =>
      case DailyExceeded =>
      case MonthlyExceeded =>
    }
  }

  lemma BlockIs(s: Snapshot, more: nat)
    ensures WorkerBlock(s, more) == FirstBlock(q => BlockApplies(q, s, more))
  {
    if Subscribed(s) {
      var sub := s.workspace.value.newest.value;
      LimitsAgree(sub.overrides, "maxMessagesPerDay", sub.planPerDay);
      LimitsAgree(sub.overrides, "maxMessagesPerMonth", sub.planPerMonth);
      PassesIsOver(s.today + more, sub.overrides, "maxMessagesPerDay", sub.planPerDay);
      PassesIsOver(s.month + more, sub.overrides, "maxMessagesPerMonth", sub.planPerMonth);
    }
  }

  /** The worker likewise. */
  lemma BlockedForFirstReason(s: Snapshot, more: nat, b: Block)
    ensures WorkerBlock(s, more) == Some(b) <==>
      BlockApplies(b, s, more) && forall q: Block :: BlockRank(q) < BlockRank(b) ==> !BlockApplies(q, s, more)
    ensures WorkerBlock(s, more) == None <==> forall q: Block :: !BlockApplies(q, s, more)
  {
    BlockIs(s, more);
    FirstOfBlocks(q => BlockApplies(q, s, more), WorkerBlock(s, more), b);
  }

  // ----- The two agree -----

  predicate Started(s: Snapshot) {
    s.workspace.Some? && s.workspace.value.newest.Some? ==> s.workspace.value.newest.value.startAt <= s.now
  }

  predicate StorageFine(s: Snapshot, integerText: string -> bool) {
    s.workspace.Some? && s.workspace.value.newest.Some? ==>
      StorageReadable(s.workspace.value.newest.value.overrides, integerText)
  }

  lemma LimitsAgree(overrides: Json, key: string, plan: int)
    ensures OverrideNumber(overrides, key, plan) == WorkerLimit(overrides, key, plan)
  {
  }

  /**
   The API admits a number of messages exactly when the worker finds no reason to block them, the
   subscription has started, and its storage override, which no message has to do with, can be read.
   */
  lemma ApiAdmitsIff(s: Snapshot, more: nat, integerText: string -> bool)
    ensures ApiRefusal(s, more, integerText).None? <==>
      WorkerBlock(s, more).None? && Started(s) && StorageFine(s, integerText)
  {
    if s.workspace.Some? && s.workspace.value.newest.Some? {
      var sub := s.workspace.value.newest.value;
      LimitsAgree(sub.overrides, "maxMessagesPerDay", sub.planPerDay);
      LimitsAgree(sub.overrides, "maxMessagesPerMonth", sub.planPerMonth);
    }
  }

  function Counterpart(r: Refusal): Option<Block> {
    match r
    case SystemPaused => Some(OutboundPaused)
    case TenantNotFound => Some(TenantBlocked)
    case TenantSuspended => Some(TenantBlocked)
    case NotConfigured => Some(SubscriptionMissing)
    case Disabled => Some(SubscriptionOver)
    case HasExpired => Some(SubscriptionOver)
    case DailyQuota => Some(DailyExceeded)
    case MonthlyQuota => Some(MonthlyExceeded)
    case NotStarted => None
    case BadStorageOverride => None
  }

  /** When both refuse they name the same reason, but for the two reasons only the API knows. */
  lemma ReasonsAgree(s: Snapshot, more: nat, integerText: string -> bool)
    requires ApiRefusal(s, more, integerText).Some? && Started(s) && StorageFine(s, integerText)
    ensures WorkerBlock(s, more) == Counterpart(ApiRefusal(s, more, integerText).value)
  {
    if s.workspace.Some? && s.workspace.value.newest.Some? {
      var sub := s.workspace.value.newest.value;
      LimitsAgree(sub.overrides, "maxMessagesPerDay", sub.planPerDay);
      LimitsAgree(sub.overrides, "maxMessagesPerMonth", sub.planPerMonth);
    }
  }

  /** A running subscription whose storage override is the number 1.5. */
  const FractionalStorage: Snapshot :=
    Snapshot(false, Some(Workspace(true, None, Some(
      Subscription(0, 100, S.Active, Object(map["maxStorageBytes" := Number(1.5)]), 10, 10)))), 0, 0, 1)

  /** A storage override that is no integer stops the API from admitting anything, and the worker not at all. */
  lemma StorageOverrideBlocksOnlyTheApi(integerText: string -> bool)
    ensures WorkerBlock(FractionalStorage, 1).None?
    ensures ApiRefusal(FractionalStorage, 1, integerText) == Some(BadStorageOverride)
  {
    var sub := FractionalStorage.workspace.value.newest.value;
    assert !Integral(1.5);
    assert !StorageReadable(sub.overrides, integerText);
    LimitsAgree(sub.overrides, "maxMessagesPerDay", sub.planPerDay);
    LimitsAgree(sub.overrides, "maxMessagesPerMonth", sub.planPerMonth);
  }

  /** On the same rows, a later time and more messages never turn a refusal into permission. */
  lemma OnlyGetsHarder(s: Snapshot, later: int, more: nat, extra: nat, integerText: string -> bool)
    requires s.now <= later
    ensures var t := s.(now := later);
      && (WorkerBlock(s, more).Some? ==> WorkerBlock(t, more + extra).Some?)
      && (Started(s) && ApiRefusal(s, more, integerText).Some? ==> ApiRefusal(t, more + extra, integerText).Some?)
  {
  }

  /** The check writes the status EXPIRED if it refuses for that reason, and nothing else. */
  lemma CheckWritesOnly(s: Snapshot, more: nat, integerText: string -> bool)
    ensures var w := AfterCheck(s, integerText);
      if ApiRefusal(s, more, integerText) == Some(HasExpired) && Subscribed(s)
      then w.Some? && w.value.newest.Some? && w.value.newest.value.status == S.Expired
           && w.value.(newest := s.workspace.value.newest) == s.workspace.value
           && w.value.newest.value.(status := s.workspace.value.newest.value.status) == s.workspace.value.newest.value
      else w == s.workspace
  {
  }

  /** The write of the check changes no answer of either policy, now or later. */
  lemma WriteChangesNoAnswer(s: Snapshot, later: int, more: nat, integerText: string -> bool)
    requires later >= s.now
    ensures var t := s.(workspace := AfterCheck(s, integerText), now := later); var u := s.(now := later);
      && ApiRefusal(t, more, integerText).None? == ApiRefusal(u, more, integerText).None?
      && WorkerBlock(t, more) == WorkerBlock(u, more)
  {
  }

  /** That write is the check the scheduler's notices have to reckon with. */
  lemma WriteIsACheck(s: Snapshot, integerText: string -> bool, t: S.State, id: nat)
    requires !s.paused && Unentitled(s, integerText) == Some(HasExpired) && s.workspace.Some?
    requires s.workspace.value.newest.Some?
    requires var sub := s.workspace.value.newest.value;
      id in t.subs && t.subs[id] == S.Subscription(sub.endAt, sub.status)
    ensures AfterCheck(s, integerText).Some? && AfterCheck(s, integerText).value.newest.Some?
    ensures S.CheckOnce(t, id, s.now).subs[id].status == AfterCheck(s, integerText).value.newest.value.status
  {
  }

  class PolicyService {
    var workspace: Option<Workspace>

    constructor (workspace: Option<Workspace>)
      ensures this.workspace == workspace
    {
      this.workspace := workspace;
    }

    /** assertOutboundAllowed on a snapshot of the rest. */
    method AssertOutboundAllowed(paused: bool, today: nat, month: nat, now: int, more: nat, integerText: string -> bool)
      returns (refusal: Option<Refusal>)
      modifies this
      ensures var s := Snapshot(paused, old(workspace), today, month, now);
        && refusal == ApiRefusal(s, more, integerText) && workspace == AfterCheck(s, integerText)
        && (refusal.None? ==> WorkerBlock(s, more).None?)
    {
      ghost var s := Snapshot(paused, workspace, today, month, now);
      ApiAdmitsIff(s, more, integerText);
      if paused { return Some(SystemPaused); }
      if workspace.None? { return Some(TenantNotFound); }
      if !workspace.value.active || workspace.value.suspendedAt.Some? { return Some(TenantSuspended); }
      if workspace.value.newest.None? { return Some(NotConfigured); }
      var sub := workspace.value.newest.value;
      var status := EffectiveStatus(sub, now);
      if sub.startAt > now { return Some(NotStarted); }
      if status in {S.Suspended, S.Cancelled} { return Some(Disabled); }
      if status == S.Expired {
        if sub.status != S.Expired {
          workspace := Some(workspace.value.(newest := Some(sub.(status := S.Expired))));
        }
        return Some(HasExpired);
      }
      if !StorageReadable(sub.overrides, integerText) { return Some(BadStorageOverride); }
      if (today + more) as real > OverrideNumber(sub.overrides, "maxMessagesPerDay", sub.planPerDay) {
        return Some(DailyQuota);
      }
      if (month + more) as real > OverrideNumber(sub.overrides, "maxMessagesPerMonth", sub.planPerMonth) {
        return Some(MonthlyQuota);
      }
      refusal := None;
    }
  }
}
