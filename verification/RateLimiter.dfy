/** The per-account limiter: a counter for each account and clock minute, which expires after 90 seconds. */
module RateLimiter {

  const Minute: int := 60_000

  datatype Slot = Slot(account: nat, minute: int)

  datatype Counter = Counter(count: nat, expiresAt: int)

  /**
   One call: the reading of the clock that names its counter, the later moment of the increment, and how long
   after that the expiry is set, if it is to be set. The counter lives in between.
  */
  datatype Call = Call(account: nat, read: int, at: int, pause: nat)

  /** `grants` logs the calls that were allowed. */
  datatype State = State(counters: map<Slot, Counter>, now: int, grants: seq<Call>)

  /**
   The source allows 20 a minute unless configured otherwise, and expires counters after 90 000 ms. The lag is
   the longest time from reading the clock to the increment.
  */
  datatype Limits = Limits(perMinute: nat, expiry: nat, lag: nat)

  function SlotOf(c: Call): Slot {
    Slot(c.account, c.read / Minute)
  }

  predicate Live(counters: map<Slot, Counter>, k: Slot, now: int) {
    k in counters && now < counters[k].expiresAt
  }

  /** The counter after one increment: an expired counter starts again at 1 with a new expiry. */
  function Bumped(l: Limits, counters: map<Slot, Counter>, c: Call): Counter {
    var count := if Live(counters, SlotOf(c), c.at) then counters[SlotOf(c)].count + 1 else 1;
    Counter(count, if count == 1 then c.at + c.pause + l.expiry else counters[SlotOf(c)].expiresAt)
  }

  function Served(l: Limits, s: State, c: Call): State {
    var n := Bumped(l, s.counters, c);
    State(s.counters[SlotOf(c) := n], c.at, if n.count <= l.perMinute then s.grants + [c] else s.grants)
  }

  /** The increment follows its reading of the clock within the lag. */
  predicate Prompt(l: Limits, c: Call) {
    c.read <= c.at <= c.read + l.lag
  }

  /** Calls are taken in the order of their increments, whatever the order of their readings. */
  function Step(l: Limits, s: State, c: Call): State {
    if c.at < s.now || !Prompt(l, c) then s else Served(l, s, c)
  }

  function Run(l: Limits, s: State, cs: seq<Call>): State {
    if cs == [] then s else Step(l, Run(l, s, cs[..|cs| - 1]), cs[|cs| - 1])
  }

  function Init(now: int): State {
    State(map[], now, [])
  }

  function GrantsIn(grants: seq<Call>, k: Slot): nat {
    if grants == [] then 0
    else GrantsIn(grants[..|grants| - 1], k) + if SlotOf(grants[|grants| - 1]) == k then 1 else 0
  }

  lemma GrantsSnoc(grants: seq<Call>, c: Call, k: Slot)
    ensures GrantsIn(grants + [c], k) == GrantsIn(grants, k) + if SlotOf(c) == k then 1 else 0
  {
    assert (grants + [c])[..|grants|] == grants;
  }

  function Min(a: nat, b: nat): nat { if a <= b then a else b }

  // ----- At most N in a minute -----

  /** A counter, once made, lives through the calls that read a time in its minute, and counts them all. */
  ghost predicate SlotInv(l: Limits, s: State, k: Slot) {
    if k in s.counters
    then s.counters[k].expiresAt >= k.minute * Minute + l.expiry && s.counters[k].count > 0
      && GrantsIn(s.grants, k) == Min(s.counters[k].count, l.perMinute)
    else GrantsIn(s.grants, k) == 0
  }

  lemma InMinute(l: Limits, c: Call)
    requires Prompt(l, c)
    ensures SlotOf(c).minute * Minute <= c.at < SlotOf(c).minute * Minute + Minute + l.lag
  {
  }

  predicate OutlivesLag(l: Limits) {
    l.expiry >= Minute + l.lag
  }

  lemma OwnCallKeeps(l: Limits, s: State, c: Call)
    requires OutlivesLag(l) && SlotInv(l, s, SlotOf(c)) && c.at >= s.now && Prompt(l, c)
    ensures SlotInv(l, Step(l, s, c), SlotOf(c))
  {
    InMinute(l, c);
    GrantsSnoc(s.grants, c, SlotOf(c));
  }

  lemma StepKeeps(l: Limits, s: State, c: Call, k: Slot)
    requires OutlivesLag(l) && SlotInv(l, s, k)
    ensures SlotInv(l, Step(l, s, c), k)
  {
    if c.at >= s.now && Prompt(l, c) {
      if k == SlotOf(c) { OwnCallKeeps(l, s, c); } else { GrantsSnoc(s.grants, c, k); }
    }
  }

  lemma {:induction false} RunKeeps(l: Limits, now: int, cs: seq<Call>, k: Slot)
    requires OutlivesLag(l)
    ensures SlotInv(l, Run(l, Init(now), cs), k)
  {
    if cs != [] {
      RunKeeps(l, now, cs[..|cs| - 1], k);
      StepKeeps(l, Run(l, Init(now), cs[..|cs| - 1]), cs[|cs| - 1], k);
    }
  }

  ghost predicate WithinRate(l: Limits, s: State) {
    forall k: Slot :: GrantsIn(s.grants, k) <= l.perMinute
  }

  // With a shorter expiry: one call too many, with calls at the start of the minute and a call read at its end.

  function Burst(account: nat, read: int, at: int, n: nat): seq<Call> {
    if n == 0 then [] else Burst(account, read, at, n - 1) + [Call(account, read, at, 0)]
  }

  function AfterBurst(l: Limits, s: State, account: nat, read: int, at: int, n: nat): State {
    if n == 0 then s
    else State(s.counters[Slot(account, read / Minute) := Counter(n, at + l.expiry)], at,
               s.grants + Burst(account, read, at, n))
  }

  /** A burst on a counter that is new or has expired, with no more calls than the rate allows. */
  predicate FreshBurst(l: Limits, s: State, account: nat, read: int, at: int, n: nat) {
    && at >= s.now && read <= at <= read + l.lag && n <= l.perMinute && l.expiry > 0
    && !Live(s.counters, Slot(account, read / Minute), at)
  }

  lemma BurstStep(l: Limits, s: State, account: nat, read: int, at: int, n: nat)
    requires FreshBurst(l, s, account, read, at, n) && n > 0
    ensures Step(l, AfterBurst(l, s, account, read, at, n - 1), Call(account, read, at, 0))
         == AfterBurst(l, s, account, read, at, n)
  {
    var b, c := Burst(account, read, at, n - 1), Call(account, read, at, 0);
    assert s.grants + (b + [c]) == (s.grants + b) + [c];
    if n == 1 { assert s.grants + b == s.grants; }
  }

  /** Such a burst is allowed in full. */
  lemma {:induction false} BurstCounts(l: Limits, s: State, account: nat, read: int, at: int, n: nat)
    requires FreshBurst(l, s, account, read, at, n)
    ensures Run(l, s, Burst(account, read, at, n)) == AfterBurst(l, s, account, read, at, n)
  {
    if n > 0 {
      BurstCounts(l, s, account, read, at, n - 1);
      BurstStep(l, s, account, read, at, n);
      var b := Burst(account, read, at, n - 1);
      assert (b + [Call(account, read, at, 0)])[..|b|] == b;
    }
  }

  lemma {:induction false} RunConcat(l: Limits, s: State, a: seq<Call>, b: seq<Call>)
    ensures Run(l, s, a + b) == Run(l, Run(l, s, a), b)
  {
    if b == [] {
      assert a + b == a;
    } else {
      assert (a + b)[..|a + b| - 1] == a + b[..|b| - 1];
      RunConcat(l, s, a, b[..|b| - 1]);
    }
  }

  lemma {:induction false} BurstGrants(grants: seq<Call>, account: nat, read: int, at: int, n: nat, k: Slot)
    ensures GrantsIn(grants + Burst(account, read, at, n), k)
         == GrantsIn(grants, k) + if k == Slot(account, read / Minute) then n else 0
  {
    if n == 0 {
      assert grants + Burst(account, read, at, 0) == grants;
    } else {
      BurstGrants(grants, account, read, at, n - 1, k);
      var b, c := Burst(account, read, at, n - 1), Call(account, read, at, 0);
      assert grants + Burst(account, read, at, n) == (grants + b) + [c];
      GrantsSnoc(grants + b, c, k);
      assert SlotOf(c) == Slot(account, read / Minute);
    }
  }

  lemma NotLiveAfter(l: Limits, at: int, n: nat, read: int, later: int)
    requires read / Minute != at / Minute || later >= at + l.expiry
    ensures !Live(AfterBurst(l, Init(0), 0, at, at, n).counters, Slot(0, read / Minute), later)
  {
  }

  /** A burst up to the rate, then another once the counter is new or gone. */
  lemma TwoBursts(l: Limits, at: int, n: nat, read: int, later: int, m: nat)
    requires 0 <= at <= later && read <= later <= read + l.lag
    requires 0 < n <= l.perMinute && 0 < m <= l.perMinute && l.expiry > 0
    requires read / Minute != at / Minute || later >= at + l.expiry
    ensures Run(l, Init(0), Burst(0, at, at, n) + Burst(0, read, later, m)).grants
         == Burst(0, at, at, n) + Burst(0, read, later, m)
  {
    var s := AfterBurst(l, Init(0), 0, at, at, n);
    assert FreshBurst(l, Init(0), 0, at, at, n);
    RunConcat(l, Init(0), Burst(0, at, at, n), Burst(0, read, later, m));
    BurstCounts(l, Init(0), 0, at, at, n);
    NotLiveAfter(l, at, n, read, later);
    assert FreshBurst(l, s, 0, read, later, m);
    BurstCounts(l, s, 0, read, later, m);
    assert s.grants == [] + Burst(0, at, at, n) == Burst(0, at, at, n);
  }

  /** The last reading of minute 0 from which an increment may come at `at`. */
  function LastRead(at: int): int {
    if at < Minute then at else Minute - 1
  }

  lemma ExpiryFreesTheMinute(l: Limits)
    requires 0 < l.expiry && !OutlivesLag(l) && l.perMinute > 0
    ensures var cs := Burst(0, 0, 0, l.perMinute) + Burst(0, LastRead(l.expiry), l.expiry, 1);
      GrantsIn(Run(l, Init(0), cs).grants, Slot(0, 0)) == l.perMinute + 1
  {
    TwoBursts(l, 0, l.perMinute, LastRead(l.expiry), l.expiry, 1);
    var first := Burst(0, 0, 0, l.perMinute);
    BurstGrants([], 0, 0, 0, l.perMinute, Slot(0, 0));
    BurstGrants(first, 0, LastRead(l.expiry), l.expiry, 1, Slot(0, 0));
    assert [] + first == first;
  }

  /**
   In every run each account gets at most N permits for each clock minute, exactly when counters are kept for
   the minute and the lag: the source's 90 seconds allow a lag of 30.
  */
  lemma RateHeldIff(l: Limits)
    requires l.perMinute > 0 && l.expiry > 0
    ensures (forall now: int, cs: seq<Call> :: WithinRate(l, Run(l, Init(now), cs))) <==> l.expiry >= 60_000 + l.lag
  {
    if OutlivesLag(l) {
      forall now: int, cs: seq<Call> ensures WithinRate(l, Run(l, Init(now), cs)) {
        forall k: Slot ensures GrantsIn(Run(l, Init(now), cs).grants, k) <= l.perMinute { RunKeeps(l, now, cs, k); }
      }
    } else {
      ExpiryFreesTheMinute(l);
      var cs := Burst(0, 0, 0, l.perMinute) + Burst(0, LastRead(l.expiry), l.expiry, 1);
      assert !WithinRate(l, Run(l, Init(0), cs));
    }
  }

  // ----- At most 2N in any 60 seconds, and no better -----

  /** Permits whose clock reading falls between the two times. */
  function ReadBetween(grants: seq<Call>, account: nat, from: int, to: int): nat {
    if grants == [] then 0
    else
      var c := grants[|grants| - 1];
      ReadBetween(grants[..|grants| - 1], account, from, to)
      + if c.account == account && from <= c.read <= to then 1 else 0
  }

  /** Permits whose increment falls between the two times. */
  function GrantedBetween(grants: seq<Call>, account: nat, from: int, to: int): nat {
    if grants == [] then 0
    else
      var c := grants[|grants| - 1];
      GrantedBetween(grants[..|grants| - 1], account, from, to)
      + if c.account == account && from <= c.at <= to then 1 else 0
  }

  /** Sixty seconds touch two clock minutes at most. */
  lemma {:induction false} TwoMinutes(grants: seq<Call>, account: nat, from: int)
    ensures ReadBetween(grants, account, from, from + Minute)
         <= GrantsIn(grants, Slot(account, from / Minute)) + GrantsIn(grants, Slot(account, from / Minute + 1))
  {
    if grants != [] { TwoMinutes(grants[..|grants| - 1], account, from); }
  }

  lemma {:induction false} GrantsArePrompt(l: Limits, now: int, cs: seq<Call>)
    ensures forall c <- Run(l, Init(now), cs).grants :: Prompt(l, c)
  {
    if cs != [] { GrantsArePrompt(l, now, cs[..|cs| - 1]); }
  }

  /** What is granted in a stretch was read in it, or at most the lag before. */
  lemma {:induction false} ReadBeforeGranted(l: Limits, grants: seq<Call>, account: nat, from: int, to: int)
    requires forall c <- grants :: Prompt(l, c)
    ensures GrantedBetween(grants, account, from, to) <= ReadBetween(grants, account, from - l.lag, to)
  {
    if grants != [] {
      assert Prompt(l, grants[|grants| - 1]);
      ReadBeforeGranted(l, grants[..|grants| - 1], account, from, to);
    }
  }

  /**
   At most 2N permits for an account are read off the clock in any 60 seconds, both ends included, and at
   most 2N are granted in any stretch as much shorter as the lag.
  */
  lemma TwiceTheRate(l: Limits, now: int, cs: seq<Call>, account: nat, from: int)
    requires l.expiry >= Minute + l.lag
    ensures var grants := Run(l, Init(now), cs).grants;
      && ReadBetween(grants, account, from, from + 60_000) <= 2 * l.perMinute
      && GrantedBetween(grants, account, from + l.lag, from + 60_000) <= 2 * l.perMinute
  {
    RunKeeps(l, now, cs, Slot(account, from / Minute));
    RunKeeps(l, now, cs, Slot(account, from / Minute + 1));
    TwoMinutes(Run(l, Init(now), cs).grants, account, from);
    GrantsArePrompt(l, now, cs);
    ReadBeforeGranted(l, Run(l, Init(now), cs).grants, account, from + l.lag, from + Minute);
  }

  lemma {:induction false} BurstBetween(grants: seq<Call>, account: nat, at: int, n: nat, from: int, to: int)
    requires from <= at <= to
    ensures GrantedBetween(grants + Burst(account, at, at, n), account, from, to)
         == GrantedBetween(grants, account, from, to) + n
  {
    if n == 0 {
      assert grants + Burst(account, at, at, 0) == grants;
    } else {
      BurstBetween(grants, account, at, n - 1, from, to);
      var all, b := grants + Burst(account, at, at, n), Burst(account, at, at, n - 1);
      assert all[..|all| - 1] == grants + b;
    }
  }

  /** The bound is reached within two milliseconds, across the turn of a minute, with no lag at all. */
  lemma TwiceTheRateIsReached(l: Limits)
    requires l.expiry > 0 && l.perMinute > 0
    ensures var s := Run(l, Init(0), Burst(0, Minute - 1, Minute - 1, l.perMinute)
                                     + Burst(0, Minute, Minute, l.perMinute));
      GrantedBetween(s.grants, 0, Minute - 1, Minute) == 2 * l.perMinute
  {
    var first := Burst(0, Minute - 1, Minute - 1, l.perMinute);
    TwoBursts(l, Minute - 1, l.perMinute, Minute, Minute, l.perMinute);
    BurstBetween([], 0, Minute - 1, l.perMinute, Minute - 1, Minute);
    BurstBetween(first, 0, Minute, l.perMinute, Minute - 1, Minute);
    assert [] + first == first;
  }

  // ----- A refused job -----

  /** When a refused job is tried again; the source reads the clock twice. */
  function RetryAt(first: int, second: int): int {
    first + (Minute - second % Minute) + 250
  }

  /** The retry falls in a later minute exactly when the second reading is at most 250 ms further into its minute. */
  lemma RetryInLaterMinuteIff(first: int, second: int)
    ensures RetryAt(first, second) / Minute > first / Minute <==> second % Minute <= first % Minute + 250
  {
  }

  class Limiter {
    var counters: map<Slot, Counter>
    ghost var grants: seq<Call>

    ghost function At(now: int): State
      reads this
    {
      State(counters, now, grants)
    }

    constructor ()
      ensures forall now :: At(now) == Init(now)
    {
      counters, grants := map[], [];
    }

    /** accountRateAllowed: the clock is read, and the counter that names is incremented later. */
    method Allow(l: Limits, c: Call, ghost last: int) returns (allowed: bool)
      modifies this
      ensures At(c.at) == Served(l, old(At(last)), c)
      ensures last <= c.at && Prompt(l, c) ==> At(c.at) == Step(l, old(At(last)), c)
      ensures allowed == (|grants| > |old(grants)|)
    {
      var k := Slot(c.account, c.read / Minute);
      if !Live(counters, k, c.at) { counters := counters - {k}; }
      var count := if k in counters then counters[k].count + 1 else 1;
      counters := counters[k := Counter(count, if k in counters then counters[k].expiresAt else c.at)];
      if count == 1 { counters := counters[k := Counter(1, c.at + c.pause + l.expiry)]; }
      allowed := count <= l.perMinute;
      if allowed { grants := grants + [c]; }
    }
  }
}
