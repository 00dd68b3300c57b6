/** Subscription dates: the day-rounding functions, the scheduler's tick, and the warnings of a whole term. */
module Subscriptions {
  import opened Options

  const Day: int := 86_400_000

  datatype Status = Active | Expiring | Expired | Suspended | Cancelled

  datatype Lifecycle = LiveNow | EndingSoon | Over

  /** The five warnings, named by their days, and the notice that the term is over. */
  datatype Notice = Warn30 | Warn15 | Warn7 | Warn3 | Warn1 | Ended

  function DaysOf(n: Notice): int {
    match n
    case Warn30 => 30
    case Warn15 => 15
    case Warn7 => 7
    case Warn3 => 3
    case Warn1 => 1
    case Ended => 0
  }

  /** Division rounding up. */
  function Ceil(x: int, d: int): int
    requires d > 0
  {
    -((-x) / d)
  }

  function DaysRemaining(endAt: int, now: int): int {
    var days := Ceil(endAt - now, Day);
    if days < 0 then 0 else days
  }

  function LifecycleOf(endAt: int, now: int): Lifecycle {
    if endAt <= now then Over
    else if DaysRemaining(endAt, now) <= 30 then EndingSoon
    else LiveNow
  }

  /** The first of the warning days that equals the days remaining. */
  function Threshold(endAt: int, now: int): Option<Notice> {
    var days := DaysRemaining(endAt, now);
    if days == 30 then Some(Warn30)
    else if days == 15 then Some(Warn15)
    else if days == 7 then Some(Warn7)
    else if days == 3 then Some(Warn3)
    else if days == 1 then Some(Warn1)
    else None
  }

  // ----- The tick's range queries -----

  predicate ExpiredQuery(endAt: int, now: int) {
    endAt <= now
  }

  predicate ExpiringQuery(endAt: int, now: int) {
    now < endAt <= now + 30 * Day
  }

  /** At every instant the range queries select exactly what the day-rounding lifecycle says. */
  lemma QueriesAgree(endAt: int, now: int)
    ensures ExpiredQuery(endAt, now) <==> LifecycleOf(endAt, now) == Over
    ensures ExpiringQuery(endAt, now) <==> LifecycleOf(endAt, now) == EndingSoon
  {
  }

  /** A warning is due for the one day that starts its number of days before the end. */
  lemma ThresholdIsItsDay(endAt: int, now: int, n: Notice)
    requires n != Ended
    ensures Threshold(endAt, now) == Some(n) <==> endAt - DaysOf(n) * Day <= now < endAt - DaysOf(n) * Day + Day
  {
  }

  // ----- The tick -----

  datatype Subscription = Subscription(endAt: int, status: Status)

  datatype NoteKey = NoteKey(id: nat, endAt: int, notice: Notice)

  /** Notifications by dedupe key with their creation time; `raised` logs every notification ever created. */
  datatype State = State(subs: map<nat, Subscription>, notes: map<NoteKey, int>, raised: seq<NoteKey>)

  predicate Current(s: Status) {
    s in {Active, Expiring}
  }

  /** Upsert: an existing notification is left as it is. */
  function Raise(s: State, k: NoteKey, now: int): State {
    if k in s.notes then s else s.(notes := s.notes[k := now], raised := s.raised + [k])
  }

  /** What a tick does about one subscription. */
  function Visit(s: State, id: nat, now: int): State {
    if id !in s.subs || !Current(s.subs[id].status) then s
    else
      var sub := s.subs[id];
      if ExpiredQuery(sub.endAt, now) then
        Raise(s.(subs := s.subs[id := sub.(status := Expired)]), NoteKey(id, sub.endAt, Ended), now)
      else if ExpiringQuery(sub.endAt, now) then
        var u := s.(subs := s.subs[id := sub.(status := Expiring)]);
        var day := Threshold(sub.endAt, now);
        if day.Some? then Raise(u, NoteKey(id, sub.endAt, day.value), now) else u
      else s
  }

  function VisitAll(s: State, ids: seq<nat>, now: int): State {
    if ids == [] then s else Visit(VisitAll(s, ids[..|ids| - 1], now), ids[|ids| - 1], now)
  }

  /** The retention clean-up of notifications. */
  function Purged(notes: map<NoteKey, int>, now: int, retention: int): map<NoteKey, int> {
    map k | k in notes && notes[k] >= now - retention :: notes[k]
  }

  /** One tick: when, whether maintenance is due, and the order its queries list the subscriptions in. */
  datatype Tick = Tick(now: int, maintain: bool, order: seq<nat>)

  function TickOnce(s: State, t: Tick, retention: int): State {
    var u := VisitAll(s, t.order, t.now);
    if t.maintain then u.(notes := Purged(u.notes, t.now, retention)) else u
  }

  /** The API's own check of a subscription, which marks one whose term is over. */
  function CheckOnce(s: State, id: nat, at: int): State {
    if id in s.subs && s.subs[id].endAt <= at then s.(subs := s.subs[id := s.subs[id].(status := Expired)]) else s
  }

  /** A check is one that comes to the lifecycle test: the workspace is active and the term has begun. */
  datatype Event = Ticks(tick: Tick) | Checks(id: nat, at: int)

  function Step(s: State, e: Event, retention: int): State {
    match e
    case Ticks(t) => TickOnce(s, t, retention)
    case Checks(id, at) => CheckOnce(s, id, at)
  }

  function Run(s: State, es: seq<Event>, retention: int): State {
    if es == [] then s else Step(Run(s, es[..|es| - 1], retention), es[|es| - 1], retention)
  }

  // ----- One subscription at a time -----

  function Only(raised: seq<NoteKey>, id: nat): seq<NoteKey> {
    if raised == [] then []
    else
      var rest := Only(raised[..|raised| - 1], id);
      if raised[|raised| - 1].id == id then rest + [raised[|raised| - 1]] else rest
  }

  /** What concerns one subscription. */
  function View(s: State, id: nat): State {
    State(
      map i | i in s.subs && i == id :: s.subs[i],
      map k | k in s.notes && k.id == id :: s.notes[k],
      Only(s.raised, id))
  }

  lemma RaiseInView(s: State, k: NoteKey, now: int, id: nat)
    ensures View(Raise(s, k, now), id) == if k.id == id then Raise(View(s, id), k, now) else View(s, id)
  {
    if k !in s.notes {
      assert (s.raised + [k])[..|s.raised|] == s.raised;
      var u := Raise(s, k, now);
      if k.id == id {
        assert View(u, id).notes == View(s, id).notes[k := now];
      } else {
        assert View(u, id).notes == View(s, id).notes;
      }
    }
  }

  lemma SetStatusInView(s: State, i: nat, sub: Subscription, id: nat)
    requires i in s.subs
    ensures var u := s.(subs := s.subs[i := sub]);
      View(u, id) == if i == id then View(s, id).(subs := View(s, id).subs[i := sub]) else View(s, id)
  {
    var u := s.(subs := s.subs[i := sub]);
    if i == id {
      assert View(u, id).subs == View(s, id).subs[i := sub];
    } else {
      assert View(u, id).subs == View(s, id).subs;
    }
  }

  /** Visiting one subscription is invisible to every other, and needs nothing but its own view. */
  lemma VisitInView(s: State, i: nat, now: int, id: nat)
    ensures View(Visit(s, i, now), id) == if i == id then Visit(View(s, id), id, now) else View(s, id)
  {
    if i in s.subs && Current(s.subs[i].status) {
      var sub := s.subs[i];
      var status := if ExpiredQuery(sub.endAt, now) then Expired else Expiring;
      SetStatusInView(s, i, sub.(status := status), id);
      var u := s.(subs := s.subs[i := sub.(status := status)]);
      RaiseInView(u, NoteKey(i, sub.endAt, Ended), now, id);
      if Threshold(sub.endAt, now).Some? {
        RaiseInView(u, NoteKey(i, sub.endAt, Threshold(sub.endAt, now).value), now, id);
      }
    }
  }

  function Times(order: seq<nat>, id: nat): nat {
    if order == [] then 0 else Times(order[..|order| - 1], id) + if order[|order| - 1] == id then 1 else 0
  }

  lemma {:induction false} VisitAllInView(s: State, order: seq<nat>, now: int, id: nat)
    requires Times(order, id) <= 1
    ensures View(VisitAll(s, order, now), id)
         == if Times(order, id) == 1 then Visit(View(s, id), id, now) else View(s, id)
  {
    if order != [] {
      var k := |order| - 1;
      VisitAllInView(s, order[..k], now, id);
      VisitInView(VisitAll(s, order[..k], now), order[k], now, id);
    }
  }

  /** The queries list a subscription once if it is current and due, and otherwise not at all. */
  ghost predicate ListsAll(s: State, t: Tick) {
    forall id: nat :: Times(t.order, id) == if Selected(s, id, t.now) then 1 else 0
  }

  predicate Selected(s: State, id: nat, now: int) {
    && id in s.subs && Current(s.subs[id].status)
    && (ExpiredQuery(s.subs[id].endAt, now) || ExpiringQuery(s.subs[id].endAt, now))
  }

  lemma PurgeInView(s: State, now: int, retention: int, id: nat)
    ensures View(s.(notes := Purged(s.notes, now, retention)), id)
         == View(s, id).(notes := Purged(View(s, id).notes, now, retention))
  {
    assert View(s.(notes := Purged(s.notes, now, retention)), id).notes == Purged(View(s, id).notes, now, retention);
  }

  /** A whole tick, seen by one subscription: a visit, and the clean-up. */
  lemma TickInView(s: State, t: Tick, retention: int, id: nat)
    requires ListsAll(s, t)
    ensures View(TickOnce(s, t, retention), id) == TickOnce(View(s, id), t.(order := [id]), retention)
  {
    VisitAllInView(s, t.order, t.now, id);
    assert Times(t.order, id) == if Selected(s, id, t.now) then 1 else 0;
    assert [id][..0] == [];
    assert VisitAll(View(s, id), [id], t.now) == Visit(View(s, id), id, t.now);
    if !Selected(s, id, t.now) { assert Visit(View(s, id), id, t.now) == View(s, id); }
    PurgeInView(VisitAll(s, t.order, t.now), t.now, retention, id);
  }

  /**
   A tick marks a current subscription EXPIRED once its end has come, EXPIRING in the thirty days before, and
   changes no other, and no end date.
  */
  lemma TickSetsStatus(s: State, t: Tick, retention: int, id: nat)
    requires ListsAll(s, t) && id in s.subs
    ensures var u := TickOnce(s, t, retention);
      && id in u.subs && u.subs[id].endAt == s.subs[id].endAt
      && u.subs[id].status ==
        if s.subs[id].status !in {Active, Expiring} then s.subs[id].status
        else if s.subs[id].endAt <= t.now then Expired
        else if s.subs[id].endAt <= t.now + 30 * 86_400_000 then Expiring
        else s.subs[id].status
  {
    TickInView(s, t, retention, id);
    var u := TickOnce(s, t, retention);
    assert id in View(s, id).subs && View(s, id).subs[id] == s.subs[id];
    assert [id][..0] == [];
    assert VisitAll(View(s, id), [id], t.now) == Visit(View(s, id), id, t.now);
    assert id in View(u, id).subs && View(u, id).subs[id] == u.subs[id];
  }

  lemma CheckInView(s: State, i: nat, at: int, id: nat)
    ensures View(CheckOnce(s, i, at), id) == if i == id then CheckOnce(View(s, id), id, at) else View(s, id)
  {
    if i in s.subs { SetStatusInView(s, i, s.subs[i].(status := Expired), id); }
  }

  // ----- The warnings of one term -----

  /** The warnings that have fallen due by `now`, in order. */
  function DueBy(endAt: int, now: int): seq<Notice> {
    (if endAt - 30 * Day <= now then [Warn30] else [])
    + (if endAt - 15 * Day <= now then [Warn15] else [])
    + (if endAt - 7 * Day <= now then [Warn7] else [])
    + (if endAt - 3 * Day <= now then [Warn3] else [])
    + (if endAt - Day <= now then [Warn1] else [])
  }

  function Keys(id: nat, endAt: int, ns: seq<Notice>): seq<NoteKey> {
    seq(|ns|, i requires 0 <= i < |ns| => NoteKey(id, endAt, ns[i]))
  }

  /** Who found the term over first: nobody yet, a tick, which raises the notice, or a check, which does not. */
  datatype End = NotYet | ByTick | ByCheck

  function EndAfter(end: End, e: Event, id: nat, endAt: int): End {
    match e
    case Ticks(t) => if end.NotYet? && t.now >= endAt then ByTick else end
    case Checks(i, at) => if end.NotYet? && i == id && at >= endAt then ByCheck else end
  }

  function EndOf(es: seq<Event>, id: nat, endAt: int): End {
    if es == [] then NotYet else EndAfter(EndOf(es[..|es| - 1], id, endAt), es[|es| - 1], id, endAt)
  }

  /** The notices raised by then: the warnings due, and the last one if a tick came first. */
  function Due(endAt: int, now: int, end: End): seq<Notice> {
    DueBy(endAt, now) + if end.ByTick? then [Ended] else []
  }

  /** The view of one subscription whose last tick was at `now`: exactly what is due has been raised. */
  ghost predicate OnSchedule(s: State, id: nat, endAt: int, now: int, end: End) {
    && id in s.subs && s.subs[id].endAt == endAt
    && (if end.NotYet? then Current(s.subs[id].status) && now < endAt else s.subs[id].status == Expired)
    && (end.ByTick? ==> now >= endAt)
    && s.raised == Keys(id, endAt, Due(endAt, now, end))
    && (forall k :: k in s.notes ==> k in s.raised)
    && (Threshold(endAt, now).Some? ==>
          var k := NoteKey(id, endAt, Threshold(endAt, now).value);
          k in s.notes && s.notes[k] >= endAt - DaysOf(k.notice) * Day)
  }

  /** From one tick to the next, at most a day later, at most one warning falls due, and its day has not passed. */
  lemma NextDue(endAt: int, now: int, next: int)
    requires now <= next <= now + Day
    ensures DueBy(endAt, next) == DueBy(endAt, now) ||
      (next < endAt && Threshold(endAt, next).Some? && now < endAt - DaysOf(Threshold(endAt, next).value) * Day
       && DueBy(endAt, next) == DueBy(endAt, now) + [Threshold(endAt, next).value])
  {
  }

  lemma KeysSnoc(id: nat, endAt: int, ns: seq<Notice>, n: Notice)
    ensures Keys(id, endAt, ns + [n]) == Keys(id, endAt, ns) + [NoteKey(id, endAt, n)]
    ensures NoteKey(id, endAt, n) in Keys(id, endAt, ns) <==> n in ns
  {
    var ks := Keys(id, endAt, ns);
    if n in ns {
      var i :| 0 <= i < |ns| && ns[i] == n;
      assert ks[i] == NoteKey(id, endAt, n);
    }
  }

  lemma NotYetDue(endAt: int, now: int, n: Notice)
    requires now < endAt - DaysOf(n) * Day
    ensures n !in DueBy(endAt, now)
  {
  }

  /** A visit before the end, of a term nobody has found over. */
  lemma WarningKeepsSchedule(s: State, id: nat, endAt: int, now: int, next: int)
    requires OnSchedule(s, id, endAt, now, NotYet) && now <= next <= now + Day && next < endAt
    ensures OnSchedule(Visit(s, id, next), id, endAt, next, NotYet)
  {
    NextDue(endAt, now, next);
    QueriesAgree(endAt, next);
    assert Due(endAt, now, NotYet) == DueBy(endAt, now) && Due(endAt, next, NotYet) == DueBy(endAt, next);
    if Threshold(endAt, next).Some? {
      var n := Threshold(endAt, next).value;
      ThresholdIsItsDay(endAt, next, n);
      ThresholdIsItsDay(endAt, now, n);
      KeysSnoc(id, endAt, DueBy(endAt, now), n);
      if now < endAt - DaysOf(n) * Day { NotYetDue(endAt, now, n); }
    }
  }

  /** A visit at or after the end. */
  lemma EndKeepsSchedule(s: State, id: nat, endAt: int, now: int, next: int, end: End)
    requires OnSchedule(s, id, endAt, now, end) && now <= next <= now + Day && next >= endAt
    ensures OnSchedule(Visit(s, id, next), id, endAt, next, if end.NotYet? then ByTick else end)
  {
    NextDue(endAt, now, next);
    assert Threshold(endAt, next) == None;
    if end.NotYet? {
      assert Due(endAt, now, end) == DueBy(endAt, now);
      KeysSnoc(id, endAt, DueBy(endAt, now), Ended);
      assert Ended !in DueBy(endAt, now);
    }
  }

  lemma PurgeKeepsSchedule(s: State, id: nat, endAt: int, now: int, end: End, retention: int)
    requires OnSchedule(s, id, endAt, now, end) && retention >= Day - 1
    ensures OnSchedule(s.(notes := Purged(s.notes, now, retention)), id, endAt, now, end)
  {
    if Threshold(endAt, now).Some? { ThresholdIsItsDay(endAt, now, Threshold(endAt, now).value); }
  }

  lemma TickKeepsSchedule(s: State, id: nat, endAt: int, now: int, end: End, t: Tick, retention: int)
    requires OnSchedule(s, id, endAt, now, end) && now <= t.now <= now + Day && retention >= Day - 1 && t.order == [id]
    requires !end.NotYet? ==> t.now >= endAt
    ensures OnSchedule(TickOnce(s, t, retention), id, endAt, t.now, EndAfter(end, Ticks(t), id, endAt))
  {
    assert [id][..0] == [];
    assert VisitAll(s, [id], t.now) == Visit(s, id, t.now);
    if t.now < endAt {
      WarningKeepsSchedule(s, id, endAt, now, t.now);
    } else {
      EndKeepsSchedule(s, id, endAt, now, t.now, end);
    }
    PurgeKeepsSchedule(Visit(s, id, t.now), id, endAt, t.now, EndAfter(end, Ticks(t), id, endAt), retention);
  }

  lemma CheckKeepsSchedule(s: State, id: nat, endAt: int, now: int, end: End, at: int)
    requires OnSchedule(s, id, endAt, now, end)
    ensures OnSchedule(CheckOnce(s, id, at), id, endAt, now, EndAfter(end, Checks(id, at), id, endAt))
  {
  }

  // ----- Runs -----

  /** When the last tick was, or `before` if there has been none. */
  function LastTick(es: seq<Event>, before: int): int {
    if es == [] then before
    else if es[|es| - 1].Ticks? then es[|es| - 1].tick.now
    else LastTick(es[..|es| - 1], before)
  }

  /**
   Ticks follow each other at most `gap` apart, the first at `before` or later, and their queries answer correctly.
  */
  ghost predicate Paced(s: State, es: seq<Event>, retention: int, gap: int, before: int) {
    es == [] ||
    (var front := es[..|es| - 1];
     && Paced(s, front, retention, gap, before)
     && (es[|es| - 1].Ticks? ==>
           && LastTick(front, before) <= es[|es| - 1].tick.now <= LastTick(front, before) + gap
           && ListsAll(Run(s, front, retention), es[|es| - 1].tick)))
  }

  /**
   Clocks agree on the end of the term: no tick reads an earlier time once the term has been found over. A
   check between a tick's queries and its updates counts as before the tick if it finds over what the tick
   found over, and as after it if not.
   */
  ghost predicate Timely(es: seq<Event>, id: nat, endAt: int) {
    es == [] ||
    (var front := es[..|es| - 1];
     && Timely(front, id, endAt)
     && (es[|es| - 1].Ticks? && !EndOf(front, id, endAt).NotYet? ==> es[|es| - 1].tick.now >= endAt))
  }

  /** A current subscription nothing has been said about yet. */
  ghost predicate Unnoticed(s: State, id: nat, endAt: int) {
    id in s.subs && s.subs[id].endAt == endAt && Current(s.subs[id].status)
    && View(s, id).notes == map[] && View(s, id).raised == []
  }

  /** A run watched from before the thirty-day mark of one subscription. */
  ghost predicate Watched(s: State, es: seq<Event>, retention: int, gap: int, before: int, id: nat, endAt: int) {
    && Unnoticed(s, id, endAt) && before < endAt - 30 * Day
    && Paced(s, es, retention, gap, before) && Timely(es, id, endAt)
  }

  lemma {:induction false} RunKeepsSchedule(s: State, es: seq<Event>, retention: int, gap: int, before: int, id: nat,
                                            endAt: int)
    requires Watched(s, es, retention, gap, before, id, endAt) && gap <= Day && retention >= Day - 1
    ensures OnSchedule(View(Run(s, es, retention), id), id, endAt, LastTick(es, before), EndOf(es, id, endAt))
  {
    if es == [] {
      assert Keys(id, endAt, []) == [];
    } else {
      var front, e := es[..|es| - 1], es[|es| - 1];
      var mid, now, end := Run(s, front, retention), LastTick(front, before), EndOf(front, id, endAt);
      RunKeepsSchedule(s, front, retention, gap, before, id, endAt);
      if e.Ticks? {
        TickInView(mid, e.tick, retention, id);
        TickKeepsSchedule(View(mid, id), id, endAt, now, end, e.tick.(order := [id]), retention);
      } else {
        CheckInView(mid, e.id, e.at, id);
        if e.id == id { CheckKeepsSchedule(View(mid, id), id, endAt, now, end, e.at); }
      }
    }
  }

  /** Notices raised for a subscription so far are those due so far, once each and in order. */
  ghost predicate Prompt(s: State, id: nat, endAt: int, now: int, end: End) {
    Only(s.raised, id) == Keys(id, endAt, Due(endAt, now, end))
  }

  /**
   Whatever else the scheduler has to do and whatever the API checks, no warning of any subscription is
   early, late, missing or repeated, and the last notice comes once if a tick finds the term over first.
   */
  ghost predicate AlwaysPrompt(retention: int, gap: int) {
    forall s, es: seq<Event>, before: int, id: nat, endAt: int ::
      Watched(s, es, retention, gap, before, id, endAt) ==>
        Prompt(Run(s, es, retention), id, endAt, LastTick(es, before), EndOf(es, id, endAt))
  }

  /** One subscription alone, of the term that ends at 0. */
  function Alone(): State {
    State(map[0 := Subscription(0, Active)], map[], [])
  }

  lemma AloneIsUnnoticed()
    ensures Unnoticed(Alone(), 0, 0)
  {
  }

  lemma TicksOf(s: State, es: seq<Event>, t: Tick, retention: int)
    ensures (es + [Ticks(t)])[..|es|] == es
    ensures Run(s, es + [Ticks(t)], retention) == TickOnce(Run(s, es, retention), t, retention)
  {
    assert (es + [Ticks(t)])[..|es|] == es;
  }

  lemma ListedAlone(s: State, t: Tick)
    requires s.subs.Keys == {0} && t.order == (if Selected(s, 0, t.now) then [0] else [])
    ensures ListsAll(s, t)
    ensures VisitAll(s, t.order, t.now) == Visit(s, 0, t.now)
  {
    assert [0][..0] == [];
    assert Times([0], 0) == 1 by { assert Times([], 0) == 0; }
    forall id: nat ensures Times(t.order, id) == if Selected(s, id, t.now) then 1 else 0 {
      assert Times([], id) == 0;
    }
  }

  lemma NotPrompt(s: State, es: seq<Event>, retention: int, gap: int, before: int, id: nat, endAt: int)
    requires Watched(s, es, retention, gap, before, id, endAt)
    requires !Prompt(Run(s, es, retention), id, endAt, LastTick(es, before), EndOf(es, id, endAt))
    ensures !AlwaysPrompt(retention, gap)
  {
  }

  lemma OneLateTick(s: State, b: Tick, es: seq<Event>, retention: int, gap: int, before: int)
    requires s == Alone() && b == Tick(-29 * Day, false, [0]) && es == [] + [Ticks(b)] && gap > Day
    requires before == -30 * Day - 1
    ensures Watched(s, es, retention, gap, before, 0, 0)
    ensures LastTick(es, before) == b.now && EndOf(es, 0, 0) == NotYet
    ensures Run(s, es, retention) == TickOnce(s, b, retention)
  {
    TicksOf(s, [], b, retention);
    ListedAlone(s, b);
    PacedByOneMore(s, [], b, retention, gap, before);
    AloneIsUnnoticed();
  }

  /** Ticks more than a day apart can pass over a warning. */
  lemma SlowTicksMissOne(retention: int, gap: int)
    requires gap > Day
    ensures !AlwaysPrompt(retention, gap)
  {
    var s, before, b := Alone(), -30 * Day - 1, Tick(-29 * Day, false, [0]);
    var es := [] + [Ticks(b)];
    OneLateTick(s, b, es, retention, gap, before);
    LateTickIsSilent(s, b, retention);
    assert Only([], 0) == [];
    NotPrompt(s, es, retention, gap, before, 0, 0);
  }

  lemma LateTickIsSilent(s: State, b: Tick, retention: int)
    requires s == Alone() && b == Tick(-29 * Day, false, [0])
    ensures TickOnce(s, b, retention).raised == [] && |Keys(0, 0, Due(0, b.now, NotYet))| == 1
  {
    ListedAlone(s, b);
    assert DaysRemaining(0, b.now) == 29;
    assert Threshold(0, b.now) == None;
  }

  /** One more tick, in time and before the end at 0. */
  lemma PacedByOneMore(s: State, es: seq<Event>, t: Tick, retention: int, gap: int, before: int)
    requires Paced(s, es, retention, gap, before) && Timely(es, 0, 0) && EndOf(es, 0, 0) == NotYet
    requires LastTick(es, before) <= t.now <= LastTick(es, before) + gap && t.now < 0
    requires ListsAll(Run(s, es, retention), t)
    ensures var fs := es + [Ticks(t)];
      Paced(s, fs, retention, gap, before) && Timely(fs, 0, 0) && EndOf(fs, 0, 0) == NotYet
        && LastTick(fs, before) == t.now
  {
    assert (es + [Ticks(t)])[..|es|] == es;
  }

  const Start: int := -30 * Day

  const Key0: NoteKey := NoteKey(0, 0, Warn30)

  /** The same subscription once its first warning has been raised. */
  function Warned(): State {
    State(map[0 := Subscription(0, Expiring)], map[Key0 := Start], [Key0])
  }

  /** The ticks so far keep the pace and end at `now`, with the subscription as it was at the start of its day. */
  ghost predicate WarnedBy(es: seq<Event>, retention: int, gap: int, now: int) {
    && Paced(Alone(), es, retention, gap, Start - 1) && Timely(es, 0, 0) && EndOf(es, 0, 0) == NotYet
    && LastTick(es, Start - 1) == now && Run(Alone(), es, retention) == Warned()
  }

  lemma StartIsWarned(retention: int)
    ensures ListsAll(Alone(), Tick(Start, false, [0]))
    ensures TickOnce(Alone(), Tick(Start, false, [0]), retention) == Warned()
  {
    ListedAlone(Alone(), Tick(Start, false, [0]));
    ThresholdIsItsDay(0, Start, Warn30);
    assert Visit(Alone(), 0, Start) == Warned();
  }

  lemma FirstTickWarns(retention: int, gap: int)
    requires gap >= 1
    ensures WarnedBy([] + [Ticks(Tick(Start, false, [0]))], retention, gap, Start)
  {
    var t := Tick(Start, false, [0]);
    StartIsWarned(retention);
    PacedByOneMore(Alone(), [], t, retention, gap, Start - 1);
    TicksOf(Alone(), [], t, retention);
  }

  lemma NextTickIsSilent(es: seq<Event>, retention: int, gap: int, now: int)
    requires WarnedBy(es, retention, gap, now) && gap >= 1 && Start <= now < Start + Day - 1
    ensures WarnedBy(es + [Ticks(Tick(now + 1, false, [0]))], retention, gap, now + 1)
  {
    var t := Tick(now + 1, false, [0]);
    ListedAlone(Warned(), t);
    PacedByOneMore(Alone(), es, t, retention, gap, Start - 1);
    TicksOf(Alone(), es, t, retention);
    ThresholdIsItsDay(0, now + 1, Warn30);
    assert Visit(Warned(), 0, now + 1) == Warned();
  }

  /** Ticks a millisecond apart from the start of the day on. */
  lemma {:induction false} Fill(retention: int, gap: int, k: nat) returns (es: seq<Event>)
    requires gap >= 1 && k < Day
    ensures WarnedBy(es, retention, gap, Start + k)
  {
    if k == 0 {
      FirstTickWarns(retention, gap);
      es := [] + [Ticks(Tick(Start, false, [0]))];
    } else {
      var front := Fill(retention, gap, k - 1);
      NextTickIsSilent(front, retention, gap, Start + k - 1);
      es := front + [Ticks(Tick(Start + k, false, [0]))];
    }
  }

  /** A clean-up just after the retention has run out, and the tick after it raises the warning again. */
  lemma RaisedAgain(retention: nat, late: int)
    requires retention < Day - 1 && late == Start + retention + 1
    ensures ListsAll(Warned(), Tick(late, true, [0]))
    ensures var two := TickOnce(Warned(), Tick(late, true, [0]), retention);
      ListsAll(two, Tick(late, false, [0])) && TickOnce(two, Tick(late, false, [0]), retention).raised == [Key0, Key0]
  {
    ThresholdIsItsDay(0, late, Warn30);
    ListedAlone(Warned(), Tick(late, true, [0]));
    var two := TickOnce(Warned(), Tick(late, true, [0]), retention);
    assert two.notes == map[] && two.raised == [Key0] && two.subs == Warned().subs;
    ListedAlone(two, Tick(late, false, [0]));
  }

  lemma TwiceIsOnceTooOften(late: int)
    requires Start <= late < Start + Day
    ensures Only([Key0, Key0], 0) == [Key0, Key0] && |Keys(0, 0, Due(0, late, NotYet))| == 1
  {
    assert Only([], 0) == [];
    assert [Key0][..0] == [] && [Key0, Key0][..1] == [Key0];
  }

  /** Notifications kept for less than a day are raised again within theirs, however close the ticks. */
  lemma ShortRetentionRepeatsOne(retention: nat, gap: int)
    requires retention < Day - 1 && gap >= 1
    ensures !AlwaysPrompt(retention, gap)
  {
    var late, s, before := Start + retention + 1, Alone(), Start - 1;
    var b, c := Tick(late, true, [0]), Tick(late, false, [0]);
    var es := Fill(retention, gap, retention);
    var fs := es + [Ticks(b)];
    RaisedAgain(retention, late);
    TicksOf(s, es, b, retention);
    TicksOf(s, fs, c, retention);
    PacedByOneMore(s, es, b, retention, gap, before);
    PacedByOneMore(s, fs, c, retention, gap, before);
    AloneIsUnnoticed();
    TwiceIsOnceTooOften(late);
    NotPrompt(s, fs + [Ticks(c)], retention, gap, before, 0, 0);
  }

  /**
   With ticks up to `gap` apart and any checks between them, every warning of every subscription is raised
   exactly once, in its day and in order, if and only if the gap is a day at most and notifications are kept
   for a day. With a gap of 0 there would be no tick after the first.
  */
  lemma PromptIff(retention: nat, gap: int)
    requires gap >= 1
    ensures AlwaysPrompt(retention, gap) <==> gap <= Day && retention >= Day - 1
  {
    if gap > Day {
      SlowTicksMissOne(retention, gap);
    } else if retention < Day - 1 {
      ShortRetentionRepeatsOne(retention, gap);
    } else {
      forall s, es: seq<Event>, before: int, id: nat, endAt: int | Watched(s, es, retention, gap, before, id, endAt)
        ensures Prompt(Run(s, es, retention), id, endAt, LastTick(es, before), EndOf(es, id, endAt))
      {
        RunKeepsSchedule(s, es, retention, gap, before, id, endAt);
      }
    }
  }

  // ----- The end of the term -----

  predicate TickOver(e: Event, endAt: int) {
    e.Ticks? && e.tick.now >= endAt
  }

  predicate CheckOver(e: Event, id: nat, endAt: int) {
    e.Checks? && e.id == id && e.at >= endAt
  }

  /** Some tick finds the term over, and no check of the subscription has before the first such tick. */
  ghost predicate TickComesFirst(es: seq<Event>, id: nat, endAt: int) {
    exists k :: 0 <= k < |es| && TickOver(es[k], endAt) && forall j :: 0 <= j < k ==> !CheckOver(es[j], id, endAt)
  }

  ghost predicate FoundOver(es: seq<Event>, id: nat, endAt: int) {
    exists k :: 0 <= k < |es| && (TickOver(es[k], endAt) || CheckOver(es[k], id, endAt))
  }

  lemma {:induction false} EndOfMeans(es: seq<Event>, id: nat, endAt: int)
    ensures EndOf(es, id, endAt) == NotYet <==> !FoundOver(es, id, endAt)
    ensures EndOf(es, id, endAt) == ByTick <==> TickComesFirst(es, id, endAt)
  {
    if es != [] {
      var front, last := es[..|es| - 1], |es| - 1;
      EndOfMeans(front, id, endAt);
      if TickComesFirst(front, id, endAt) {
        var k :| 0 <= k < |front| && TickOver(front[k], endAt)
          && forall j :: 0 <= j < k ==> !CheckOver(front[j], id, endAt);
        assert TickOver(es[k], endAt) && forall j :: 0 <= j < k ==> !CheckOver(es[j], id, endAt);
      }
      if FoundOver(front, id, endAt) {
        var k :| 0 <= k < |front| && (TickOver(front[k], endAt) || CheckOver(front[k], id, endAt));
        assert TickOver(es[k], endAt) || CheckOver(es[k], id, endAt);
      } else {
        assert forall j :: 0 <= j < last ==>
          !TickOver(front[j], endAt) && !CheckOver(front[j], id, endAt) && es[j] == front[j];
      }
      if TickComesFirst(es, id, endAt) && EndOf(front, id, endAt) != NotYet {
        var k :| 0 <= k < |es| && TickOver(es[k], endAt) && forall j :: 0 <= j < k ==> !CheckOver(es[j], id, endAt);
        if k == last {
          FirstIsATick(front, id, endAt);
        } else {
          assert TickOver(front[k], endAt) && TickComesFirst(front, id, endAt);
        }
      }
    }
  }

  lemma FirstIsATick(es: seq<Event>, id: nat, endAt: int)
    requires FoundOver(es, id, endAt) && forall j :: 0 <= j < |es| ==> !CheckOver(es[j], id, endAt)
    ensures TickComesFirst(es, id, endAt)
  {
    var k :| 0 <= k < |es| && (TickOver(es[k], endAt) || CheckOver(es[k], id, endAt));
    assert TickOver(es[k], endAt);
  }

  /**
   Over a whole term the 30, 15, 7, 3 and 1 day warnings are raised once each and in that order. The notice
   of the end follows, once, exactly if no check of the subscription falls between the end and the first
   tick at or after it; otherwise it is never raised. Either way the subscription is EXPIRED.
   */
  lemma WholeTerm(s: State, es: seq<Event>, retention: int, before: int, id: nat, endAt: int)
    requires Watched(s, es, retention, Day, before, id, endAt) && retention >= Day - 1
    requires LastTick(es, before) >= endAt
    ensures var u := Run(s, es, retention); var warnings := [Warn30, Warn15, Warn7, Warn3, Warn1];
      && Only(u.raised, id) == Keys(id, endAt, if TickComesFirst(es, id, endAt) then warnings + [Ended] else warnings)
      && id in u.subs && u.subs[id].status == Expired
  {
    RunKeepsSchedule(s, es, retention, Day, before, id, endAt);
    EndOfMeans(es, id, endAt);
    assert DueBy(endAt, LastTick(es, before)) == [Warn30, Warn15, Warn7, Warn3, Warn1];
  }

  /** A check a moment before the tick swallows the notice of the end, in any state of the scheduler. */
  lemma CheckSwallowsTheNotice(s: State, id: nat, t: Tick, retention: int)
    requires id in s.subs && Current(s.subs[id].status) && s.subs[id].endAt <= t.now && ListsAll(s, t)
    requires NoteKey(id, s.subs[id].endAt, Ended) !in s.notes
    ensures Only(Run(s, [Ticks(t)], retention).raised, id)
         == Only(s.raised, id) + [NoteKey(id, s.subs[id].endAt, Ended)]
    ensures forall order :: ListsAll(CheckOnce(s, id, t.now), t.(order := order)) ==>
      Only(Run(s, [Checks(id, t.now), Ticks(t.(order := order))], retention).raised, id) == Only(s.raised, id)
  {
    assert [Ticks(t)][..0] == [];
    TickInView(s, t, retention, id);
    RaisedByVisit(View(s, id), id, t, retention);
    forall order | ListsAll(CheckOnce(s, id, t.now), t.(order := order))
      ensures Only(Run(s, [Checks(id, t.now), Ticks(t.(order := order))], retention).raised, id) == Only(s.raised, id)
    {
      var u := t.(order := order);
      var es := [Checks(id, t.now), Ticks(u)];
      assert es[..1] == [Checks(id, t.now)] && es[..1][..0] == [];
      assert Run(s, es[..1], retention) == CheckOnce(s, id, t.now);
      assert Run(s, es, retention) == TickOnce(CheckOnce(s, id, t.now), u, retention);
      CheckInView(s, id, t.now, id);
      TickInView(CheckOnce(s, id, t.now), u, retention, id);
      NothingByVisit(View(CheckOnce(s, id, t.now), id), id, u, retention);
    }
  }

  lemma RaisedByVisit(v: State, id: nat, t: Tick, retention: int)
    requires id in v.subs && Current(v.subs[id].status) && v.subs[id].endAt <= t.now
    requires NoteKey(id, v.subs[id].endAt, Ended) !in v.notes
    ensures TickOnce(v, t.(order := [id]), retention).raised == v.raised + [NoteKey(id, v.subs[id].endAt, Ended)]
  {
    assert [id][..0] == [];
    assert VisitAll(v, [id], t.now) == Visit(v, id, t.now);
  }

  lemma NothingByVisit(v: State, id: nat, t: Tick, retention: int)
    requires id in v.subs && v.subs[id].status == Expired
    ensures TickOnce(v, t.(order := [id]), retention).raised == v.raised
  {
    assert [id][..0] == [];
    assert VisitAll(v, [id], t.now) == Visit(v, id, t.now);
  }

  // ----- The dedupe key as text -----

  function NoticeText(n: Notice): string {
    match n
    case Warn30 => "warning-30"
    case Warn15 => "warning-15"
    case Warn7 => "warning-7"
    case Warn3 => "warning-3"
    case Warn1 => "warning-1"
    case Ended => "expired"
  }

  /** `iso` prints an instant as ISO 8601 text, which for the years 0 to 9999 has 24 characters. */
  function KeyText(id: string, endAt: int, iso: int -> string, n: Notice): string {
    "subscription:" + id + ":" + iso(endAt) + ":" + NoticeText(n)
  }

  predicate NoColon(s: string) {
    forall i :: 0 <= i < |s| ==> s[i] != ':'
  }

  lemma ColonBeyond(a: string, b: string, c: string, d: string)
    requires a + ":" + b == c + ":" + d
    ensures |a| < |c| ==> !NoColon(b)
  {
    var whole, other := a + ":" + b, c + ":" + d;
    assert other[|c|] == ':';
    if |a| < |c| { assert whole[|c|] == b[|c| - |a| - 1]; }
  }

  /** The text after the last colon is known from the whole. */
  lemma SplitAtLastColon(a: string, b: string, c: string, d: string)
    requires a + ":" + b == c + ":" + d && NoColon(b) && NoColon(d)
    ensures a == c && b == d
  {
    var whole, other := a + ":" + b, c + ":" + d;
    ColonBeyond(a, b, c, d);
    ColonBeyond(c, d, a, b);
    assert a == whole[..|a|] && c == other[..|c|];
    assert b == whole[|a| + 1..] && d == other[|c| + 1..];
  }

  /** The texts of the notices end in different characters. */
  function LastOf(n: Notice): char {
    match n
    case Warn30 => '0'
    case Warn15 => '5'
    case Warn7 => '7'
    case Warn3 => '3'
    case Warn1 => '1'
    case Ended => 'd'
  }

  lemma NoticeTextsDiffer(n: Notice, m: Notice)
    ensures NoColon(NoticeText(n))
    ensures NoticeText(n) == NoticeText(m) ==> n == m
  {
    assert NoticeText(n)[|NoticeText(n)| - 1] == LastOf(n);
    assert NoticeText(m)[|NoticeText(m)| - 1] == LastOf(m);
  }

  /** Different subscriptions, dates or notices have different keys, whatever characters an identifier holds. */
  lemma KeyTextIsInjective(id: string, endAt: int, n: Notice, id2: string, endAt2: int, n2: Notice, iso: int -> string)
    requires |iso(endAt)| == |iso(endAt2)| == 24 && (iso(endAt) == iso(endAt2) ==> endAt == endAt2)
    requires KeyText(id, endAt, iso, n) == KeyText(id2, endAt2, iso, n2)
    ensures id == id2 && endAt == endAt2 && n == n2
  {
    NoticeTextsDiffer(n, n2);
    NoticeTextsDiffer(n2, n);
    var a, c := "subscription:" + id + ":" + iso(endAt), "subscription:" + id2 + ":" + iso(endAt2);
    assert KeyText(id, endAt, iso, n) == a + ":" + NoticeText(n);
    assert KeyText(id2, endAt2, iso, n2) == c + ":" + NoticeText(n2);
    SplitAtLastColon(a, NoticeText(n), c, NoticeText(n2));
    assert a[|a| - 24..] == iso(endAt) && c[|c| - 24..] == iso(endAt2);
    assert a[13..|a| - 25] == id && c[13..|c| - 25] == id2;
  }

  // ----- The scheduler -----

  class Scheduler {
    var running: bool
    var subs: map<nat, Subscription>
    var notes: map<NoteKey, int>
    var lastMaintenance: int
    ghost var raised: seq<NoteKey>

    ghost function At(): State
      reads this
    {
      State(subs, notes, raised)
    }

    constructor (subs: map<nat, Subscription>)
      ensures At() == State(subs, map[], []) && !running
    {
      this.subs, notes, raised := subs, map[], [];
      running, lastMaintenance := false, 0;
    }

    /** The write of the API's check. */
    method CheckEntitlement(id: nat, at: int) returns (over: bool)
      modifies this`subs
      ensures At() == CheckOnce(old(At()), id, at) && over == (id in old(subs) && old(subs)[id].endAt <= at)
    {
      over := id in subs && subs[id].endAt <= at;
      if over && subs[id].status != Expired { subs := subs[id := subs[id].(status := Expired)]; }
    }

    method Upsert(k: NoteKey, now: int)
      modifies this`notes, this`raised
      ensures At() == Raise(old(At()), k, now)
    {
      if k !in notes { notes, raised := notes[k := now], raised + [k]; }
    }

    method Expire(id: nat, now: int)
      requires id in subs && Current(subs[id].status) && ExpiredQuery(subs[id].endAt, now)
      modifies this
      ensures At() == Visit(old(At()), id, now) && running == old(running) && lastMaintenance == old(lastMaintenance)
      ensures subs == old(subs)[id := old(subs)[id].(status := Expired)]
    {
      subs := subs[id := subs[id].(status := Expired)];
      Upsert(NoteKey(id, subs[id].endAt, Ended), now);
    }

    method Warn(id: nat, now: int)
      requires id in subs && Current(subs[id].status) && ExpiringQuery(subs[id].endAt, now)
      modifies this
      ensures At() == Visit(old(At()), id, now) && running == old(running) && lastMaintenance == old(lastMaintenance)
      ensures subs == old(subs)[id := old(subs)[id].(status := Expiring)]
    {
      if subs[id].status == Active { subs := subs[id := subs[id].(status := Expiring)]; }
      var day := Threshold(subs[id].endAt, now);
      if day.Some? { Upsert(NoteKey(id, subs[id].endAt, day.value), now); }
    }

    /** A query's answer, in any order the database likes. */
    ghost predicate Expirable(ids: seq<nat>, now: int)
      reads this
    {
      && (forall i, j :: 0 <= i < j < |ids| ==> ids[i] != ids[j])
      && (forall i :: 0 <= i < |ids| ==>
            ids[i] in subs && Current(subs[ids[i]].status) && ExpiredQuery(subs[ids[i]].endAt, now))
    }

    ghost predicate Warnable(ids: seq<nat>, now: int)
      reads this
    {
      && (forall i, j :: 0 <= i < j < |ids| ==> ids[i] != ids[j])
      && (forall i :: 0 <= i < |ids| ==>
            ids[i] in subs && Current(subs[ids[i]].status) && ExpiringQuery(subs[ids[i]].endAt, now))
    }

    /** The loop over the expired subscriptions. */
    method ExpireAll(ids: seq<nat>, now: int)
      requires Expirable(ids, now)
      modifies this
      ensures At() == VisitAll(old(At()), ids, now) && running == old(running)
      ensures lastMaintenance == old(lastMaintenance)
      ensures forall id :: id in old(subs) && id !in ids ==> id in subs && subs[id] == old(subs)[id]
    {
      for i := 0 to |ids|
        invariant running == old(running) && lastMaintenance == old(lastMaintenance)
        invariant At() == VisitAll(old(At()), ids[..i], now)
        invariant forall j :: i <= j < |ids| ==> ids[j] in subs && subs[ids[j]] == old(subs)[ids[j]]
        invariant forall id :: id in old(subs) && id !in ids ==> id in subs && subs[id] == old(subs)[id]
      {
        assert ids[..i + 1][..i] == ids[..i];
        Expire(ids[i], now);
      }
      assert ids[..|ids|] == ids;
    }

    /** The loop over the expiring ones. */
    method WarnAll(ids: seq<nat>, now: int)
      requires Warnable(ids, now)
      modifies this
      ensures At() == VisitAll(old(At()), ids, now) && running == old(running)
      ensures lastMaintenance == old(lastMaintenance)
    {
      for i := 0 to |ids|
        invariant running == old(running) && lastMaintenance == old(lastMaintenance)
        invariant At() == VisitAll(old(At()), ids[..i], now)
        invariant forall j :: i <= j < |ids| ==> ids[j] in subs && subs[ids[j]] == old(subs)[ids[j]]
      {
        assert ids[..i + 1][..i] == ids[..i];
        Warn(ids[i], now);
      }
      assert ids[..|ids|] == ids;
    }

    /** A tick: both loops, over what the queries found at its start, and the clean-up when it is time. */
    method RunTick(expired: seq<nat>, expiring: seq<nat>, now: int, retention: int, interval: int)
      requires Expirable(expired, now) && Warnable(expiring, now)
      modifies this
      ensures old(running) ==> At() == old(At()) && running
      ensures !old(running) ==>
        (!running
         && At() == TickOnce(old(At()), Tick(now, now - old(lastMaintenance) >= interval, expired + expiring),
                             retention))
      ensures lastMaintenance
           == if !old(running) && now - old(lastMaintenance) >= interval then now else old(lastMaintenance)
    {
      if running { return; }
      running := true;
      ghost var s := At();
      NoneInBoth(subs, expired, expiring, now);
      ExpireAll(expired, now);
      WarnAll(expiring, now);
      VisitConcat(s, expired, expiring, now);
      if now - lastMaintenance >= interval {
        notes := Purged(notes, now, retention);
        lastMaintenance := now;
      }
      running := false;
    }
  }

  lemma NoneInBoth(subs: map<nat, Subscription>, expired: seq<nat>, expiring: seq<nat>, now: int)
    requires forall i :: 0 <= i < |expired| ==> expired[i] in subs && ExpiredQuery(subs[expired[i]].endAt, now)
    requires forall i :: 0 <= i < |expiring| ==> expiring[i] in subs && ExpiringQuery(subs[expiring[i]].endAt, now)
    ensures forall i :: 0 <= i < |expiring| ==> expiring[i] !in expired
  {
  }

  lemma {:induction false} VisitConcat(s: State, a: seq<nat>, b: seq<nat>, now: int)
    ensures VisitAll(s, a + b, now) == VisitAll(VisitAll(s, a, now), b, now)
  {
    if b == [] {
      assert a + b == a;
    } else {
      assert (a + b)[..|a + b| - 1] == a + b[..|b| - 1];
      VisitConcat(s, a, b[..|b| - 1], now);
    }
  }
}
