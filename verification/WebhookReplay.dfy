/**
 Webhook acceptance against retention. The statements of concurrent acceptances, the completion of jobs
 and the scheduler's clean-up interleave freely while the clock runs.
 */
module WebhookReplay {
  import opened Options
  import S = Subscriptions

  /** What a body parses to; None is a field it does not have, and `stamp` is its timestamp read as a number. */
  datatype Payload = Payload(
    appId: Option<string>,
    stampText: Option<string>,
    stamp: Option<int>,
    event: Option<string>,
    oaId: Option<string>,
    recipient: Option<string>,
    sender: Option<string>,
    messageId: Option<string>
  )

  /** An optional text in a longer one. */
  function Shown(text: Option<string>): string {
    if text.Some? then text.value else "undefined"
  }

  /** The OA a body is about: the one it names, or else who received a user's message or sent any other. */
  function OaOf(p: Payload): Option<string> {
    if p.oaId.Some? then p.oaId else if p.event.Some? && "user_" <= p.event.value then p.recipient else p.sender
  }

  /** What names an event: its message, or else its kind and its time. */
  function EventKeyOf(p: Payload): string {
    if p.messageId.Some? then p.messageId.value else Shown(p.event) + ":" + Shown(p.stampText)
  }

  /** The platform's id of an OA. */
  type OaId = s: string | s != "" witness "0"

  /** SHA-256, as far as it matters: the hexadecimal digest of a text. */
  type Digest = string -> string

  /** Milliseconds: the replay window either side, the job retention, and the longest time from check to insert. */
  datatype Limits = Limits(window: nat, retention: nat, lag: nat)

  /**
   What a run does not change: the limits, the account rows with the OA each of them is for, and how bodies
   are parsed and digested. An account is unique in its workspace, so an OA may have several rows.
   */
  datatype World = World(limits: Limits, accounts: map<nat, OaId>, parse: string -> Payload, digest: Digest)

  /** The external id of a job: the account, and a digest of the message id or of event name and timestamp. */
  datatype JobKey = JobKey(account: nat, digest: string)

  /** When the job last reached a terminal status. */
  datatype JobRow = JobRow(completedAt: Option<int>)

  /** A body under the account an acceptance found for it. */
  datatype Item = Item(account: nat, body: string)

  /** An acceptance under way; `checkedAt` is the clock reading its replay window was checked with. */
  datatype Handler =
    | Checked(body: string, checkedAt: int)
    | Unknown(item: Item, checkedAt: int)
    | Stored(item: Item)

  datatype Entry = Entry(item: Item, at: int)

  datatype State = State(
    now: int,
    jobs: map<JobKey, JobRow>,
    handlers: map<nat, Handler>,
    stored: seq<Entry>,
    queued: seq<Item>
  )

  /** Lookup carries the database's choice among the account rows of the body's OA. */
  datatype Event =
    | Tick(ms: nat)
    | Arrive(handler: nat, body: string)
    | Lookup(handler: nat, account: nat)
    | Insert(handler: nat)
    | Enqueue(handler: nat)
    | Abort(handler: nat)
    | Finish(key: JobKey)
    | CleanUp

  function Truncated(text: string): string {
    if |text| <= 32 then text else text[..32]
  }

  function KeyOf(w: World, i: Item): JobKey {
    JobKey(i.account, Truncated(w.digest(EventKeyOf(w.parse(i.body)))))
  }

  predicate InWindow(w: World, now: int, body: string) {
    var stamp := w.parse(body).stamp;
    stamp.Some? && now - stamp.value <= w.limits.window && stamp.value - now <= w.limits.window
  }

  /** The account is a row of the OA the body names. */
  predicate IsFor(w: World, account: nat, body: string) {
    account in w.accounts && OaOf(w.parse(body)) == Some(w.accounts[account])
  }

  predicate Outlived(w: World, row: JobRow, now: int) {
    row.completedAt.Some? && row.completedAt.value < now - w.limits.retention
  }

  function Kept(w: World, jobs: map<JobKey, JobRow>, now: int): map<JobKey, JobRow> {
    map k | k in jobs && !Outlived(w, jobs[k], now) :: jobs[k]
  }

  /** One statement, job completion, clean-up or tick; an event whose guard does not hold changes nothing. */
  function Step(w: World, s: State, e: Event): State {
    match e
    case Tick(ms) => s.(now := s.now + ms)
    case Arrive(h, body) =>
      if h in s.handlers || !InWindow(w, s.now, body) then s
      else s.(handlers := s.handlers[h := Checked(body, s.now)])
    case Lookup(h, account) =>
      if h !in s.handlers || !s.handlers[h].Checked? || !IsFor(w, account, s.handlers[h].body) then s
      else
        var item := Item(account, s.handlers[h].body);
        if KeyOf(w, item) in s.jobs then s.(handlers := s.handlers - {h})
        else s.(handlers := s.handlers[h := Unknown(item, s.handlers[h].checkedAt)])
    case Insert(h) =>
      if h !in s.handlers || !s.handlers[h].Unknown? then s
      else
        var item := s.handlers[h].item;
        if KeyOf(w, item) in s.jobs || s.now > s.handlers[h].checkedAt + w.limits.lag
        then s.(handlers := s.handlers - {h})
        else
          s.(jobs := s.jobs[KeyOf(w, item) := JobRow(None)],
             stored := s.stored + [Entry(item, s.now)],
             handlers := s.handlers[h := Stored(item)])
    case Enqueue(h) =>
      if h !in s.handlers || !s.handlers[h].Stored? then s
      else s.(queued := s.queued + [s.handlers[h].item], handlers := s.handlers - {h})
    case Abort(h) => s.(handlers := s.handlers - {h})
    case Finish(k) => if k in s.jobs then s.(jobs := s.jobs[k := JobRow(Some(s.now))]) else s
    case CleanUp => s.(jobs := Kept(w, s.jobs, s.now))
  }

  function Run(w: World, s: State, es: seq<Event>): State {
    if es == [] then s else Step(w, Run(w, s, es[..|es| - 1]), es[|es| - 1])
  }

  function Init(now: int): State {
    State(now, map[], map[], [], [])
  }

  // ----- Once under each account -----

  /** No body is stored or queued twice under the same account. */
  ghost predicate OncePerAccount(s: State) {
    && (forall i, j :: 0 <= i < j < |s.stored| ==> s.stored[i].item != s.stored[j].item)
    && (forall i, j :: 0 <= i < j < |s.queued| ==> s.queued[i] != s.queued[j])
  }

  /** No text is stored or queued twice, whatever the account. */
  ghost predicate OnceOverall(s: State) {
    && (forall i, j :: 0 <= i < j < |s.stored| ==> s.stored[i].item.body != s.stored[j].item.body)
    && (forall i, j :: 0 <= i < j < |s.queued| ==> s.queued[i].body != s.queued[j].body)
  }

  /** While a stored body's job is gone, its retention has run out. */
  ghost predicate EntryInv(w: World, s: State, e: Entry) {
    var stamp := w.parse(e.item.body).stamp;
    && IsFor(w, e.item.account, e.item.body)
    && stamp.Some? && stamp.value - w.limits.window <= e.at <= s.now
    && (if KeyOf(w, e.item) in s.jobs
        then s.jobs[KeyOf(w, e.item)].completedAt.Some? ==> s.jobs[KeyOf(w, e.item)].completedAt.value >= e.at
        else s.now > e.at + w.limits.retention)
  }

  ghost predicate IsStored(s: State, i: Item) {
    exists k :: 0 <= k < |s.stored| && s.stored[k].item == i
  }

  ghost predicate HandlerInv(w: World, s: State, h: Handler) {
    match h
    case Checked(body, at) => at <= s.now && InWindow(w, at, body)
    case Unknown(item, at) => at <= s.now && InWindow(w, at, item.body) && IsFor(w, item.account, item.body)
    case Stored(item) => IsStored(s, item) && item !in s.queued
  }

  ghost predicate StoredApart(s: State) {
    forall h, k :: (h in s.handlers && k in s.handlers && h != k && s.handlers[h].Stored? && s.handlers[k].Stored?) ==>
      s.handlers[h].item != s.handlers[k].item
  }

  ghost predicate Inv(w: World, s: State) {
    && OncePerAccount(s) && StoredApart(s)
    && (forall i :: 0 <= i < |s.stored| ==> EntryInv(w, s, s.stored[i]))
    && (forall h :: h in s.handlers ==> HandlerInv(w, s, s.handlers[h]))
    && (forall i :: 0 <= i < |s.queued| ==> IsStored(s, s.queued[i]))
  }

  predicate KeptLongEnough(l: Limits) {
    l.retention >= 2 * l.window + l.lag
  }

  /**
   A body that was stored before cannot be inserted again under that account: its job is there, or its window has
   closed.
  */
  lemma SecondInsertFails(w: World, s: State, h: nat)
    requires KeptLongEnough(w.limits) && Inv(w, s)
    requires h in s.handlers && s.handlers[h].Unknown? && KeyOf(w, s.handlers[h].item) !in s.jobs
    requires s.now <= s.handlers[h].checkedAt + w.limits.lag
    ensures !IsStored(s, s.handlers[h].item)
  {
    assert HandlerInv(w, s, s.handlers[h]);
    forall i | 0 <= i < |s.stored| ensures s.stored[i].item != s.handlers[h].item {
      assert EntryInv(w, s, s.stored[i]);
    }
  }

  lemma StoredStays(s: State, u: State, i: Item)
    requires IsStored(s, i) && s.stored <= u.stored
    ensures IsStored(u, i)
  {
    var k :| 0 <= k < |s.stored| && s.stored[k].item == i;
    assert u.stored[k].item == i;
  }

  lemma InsertKeeps(w: World, s: State, h: nat)
    requires KeptLongEnough(w.limits) && Inv(w, s)
    ensures Inv(w, Step(w, s, Insert(h)))
  {
    var u := Step(w, s, Insert(h));
    if h in s.handlers && u.stored != s.stored {
      var item := s.handlers[h].item;
      SecondInsertFails(w, s, h);
      assert HandlerInv(w, s, s.handlers[h]);
      assert u.stored[|s.stored|].item == item;
      forall i | IsStored(s, i) ensures IsStored(u, i) && i != item { StoredStays(s, u, i); }
      forall i | 0 <= i < |u.stored| ensures EntryInv(w, u, u.stored[i]) {
        if i < |s.stored| { assert EntryInv(w, s, s.stored[i]); }
      }
      forall k | k in u.handlers && k != h ensures HandlerInv(w, u, u.handlers[k]) {
        assert HandlerInv(w, s, s.handlers[k]);
      }
      assert item !in s.queued;
    } else {
      HandlersOnlyKeeps(w, s, u);
    }
  }

  lemma EnqueueKeeps(w: World, s: State, h: nat)
    requires Inv(w, s)
    ensures Inv(w, Step(w, s, Enqueue(h)))
  {
    var u := Step(w, s, Enqueue(h));
    if h in s.handlers && s.handlers[h].Stored? {
      assert HandlerInv(w, s, s.handlers[h]);
      forall i | IsStored(s, i) ensures IsStored(u, i) { StoredStays(s, u, i); }
      forall k | k in u.handlers ensures HandlerInv(w, u, u.handlers[k]) { assert HandlerInv(w, s, s.handlers[k]); }
      forall i | 0 <= i < |u.stored| ensures EntryInv(w, u, u.stored[i]) { assert EntryInv(w, s, s.stored[i]); }
    }
  }

  /** A handler dropped, or moved on without storing anything. */
  lemma HandlersOnlyKeeps(w: World, s: State, u: State)
    requires Inv(w, s) && u == s.(handlers := u.handlers)
    requires forall h :: h in u.handlers && !(h in s.handlers && u.handlers[h] == s.handlers[h]) ==>
      !u.handlers[h].Stored? && HandlerInv(w, u, u.handlers[h])
    ensures Inv(w, u)
  {
    forall i | IsStored(s, i) ensures IsStored(u, i) { StoredStays(s, u, i); }
    forall i | 0 <= i < |u.stored| ensures EntryInv(w, u, u.stored[i]) { assert EntryInv(w, s, s.stored[i]); }
    forall h | h in u.handlers ensures HandlerInv(w, u, u.handlers[h]) {
      if h in s.handlers && u.handlers[h] == s.handlers[h] { assert HandlerInv(w, s, s.handlers[h]); }
    }
  }

  /** The clock runs on, or jobs finish or are cleaned up. */
  lemma JobsOnlyKeeps(w: World, s: State, u: State)
    requires Inv(w, s) && s.now <= u.now && u == s.(now := u.now, jobs := u.jobs)
    requires forall i :: 0 <= i < |s.stored| ==> EntryInv(w, u, s.stored[i])
    ensures Inv(w, u)
  {
    forall i | IsStored(s, i) ensures IsStored(u, i) { StoredStays(s, u, i); }
    forall h | h in u.handlers ensures HandlerInv(w, u, u.handlers[h]) { assert HandlerInv(w, s, s.handlers[h]); }
  }

  lemma ArriveKeeps(w: World, s: State, h: nat, body: string)
    requires Inv(w, s)
    ensures Inv(w, Step(w, s, Arrive(h, body)))
  {
    HandlersOnlyKeeps(w, s, Step(w, s, Arrive(h, body)));
  }

  lemma LookupKeeps(w: World, s: State, h: nat, account: nat)
    requires Inv(w, s)
    ensures Inv(w, Step(w, s, Lookup(h, account)))
  {
    if h in s.handlers { assert HandlerInv(w, s, s.handlers[h]); }
    HandlersOnlyKeeps(w, s, Step(w, s, Lookup(h, account)));
  }

  lemma TickKeeps(w: World, s: State, ms: nat)
    requires Inv(w, s)
    ensures Inv(w, Step(w, s, Tick(ms)))
  {
    var u := Step(w, s, Tick(ms));
    forall i | 0 <= i < |s.stored| ensures EntryInv(w, u, s.stored[i]) { assert EntryInv(w, s, s.stored[i]); }
    JobsOnlyKeeps(w, s, u);
  }

  lemma FinishKeeps(w: World, s: State, k: JobKey)
    requires Inv(w, s)
    ensures Inv(w, Step(w, s, Finish(k)))
  {
    var u := Step(w, s, Finish(k));
    forall i | 0 <= i < |s.stored| ensures EntryInv(w, u, s.stored[i]) { assert EntryInv(w, s, s.stored[i]); }
    JobsOnlyKeeps(w, s, u);
  }

  lemma CleanUpKeeps(w: World, s: State)
    requires Inv(w, s)
    ensures Inv(w, Step(w, s, CleanUp))
  {
    var u := Step(w, s, CleanUp);
    forall i | 0 <= i < |s.stored| ensures EntryInv(w, u, s.stored[i]) { assert EntryInv(w, s, s.stored[i]); }
    JobsOnlyKeeps(w, s, u);
  }

  lemma StepKeeps(w: World, s: State, e: Event)
    requires KeptLongEnough(w.limits) && Inv(w, s)
    ensures Inv(w, Step(w, s, e))
  {
    match e
    case Tick(ms) => TickKeeps(w, s, ms);
    case Arrive(h, body) => ArriveKeeps(w, s, h, body);
    case Lookup(h, account) => LookupKeeps(w, s, h, account);
    case Insert(h) => InsertKeeps(w, s, h);
    case Enqueue(h) => EnqueueKeeps(w, s, h);
    case Abort(h) => HandlersOnlyKeeps(w, s, Step(w, s, e));
    case Finish(k) => FinishKeeps(w, s, k);
    case CleanUp => CleanUpKeeps(w, s);
  }

  lemma {:induction false} RunKeeps(w: World, s: State, es: seq<Event>)
    requires KeptLongEnough(w.limits) && Inv(w, s)
    ensures Inv(w, Run(w, s, es))
  {
    if es != [] {
      RunKeeps(w, s, es[..|es| - 1]);
      StepKeeps(w, Run(w, s, es[..|es| - 1]), es[|es| - 1]);
    }
  }

  /** Each stored body that could still be inserted after a check in its window has its job. */
  ghost predicate OpenWindowsHaveJobs(w: World, s: State) {
    forall i :: 0 <= i < |s.stored| && StillOpen(w, s.stored[i].item, s.now) ==> KeyOf(w, s.stored[i].item) in s.jobs
  }

  predicate StillOpen(w: World, item: Item, now: int) {
    var stamp := w.parse(item.body).stamp;
    stamp.Some? && now <= stamp.value + w.limits.window + w.limits.lag
  }

  lemma InvKeepsOpenWindows(w: World, s: State)
    requires KeptLongEnough(w.limits) && Inv(w, s)
    ensures OpenWindowsHaveJobs(w, s)
  {
    forall i | 0 <= i < |s.stored| && StillOpen(w, s.stored[i].item, s.now)
      ensures KeyOf(w, s.stored[i].item) in s.jobs
    {
      assert EntryInv(w, s, s.stored[i]);
    }
  }

  /** No clean-up, in any run, takes the job of a body that could still be accepted. */
  lemma CleanUpSparesOpenWindows(w: World, now: int, es: seq<Event>)
    requires KeptLongEnough(w.limits)
    ensures OpenWindowsHaveJobs(w, Step(w, Run(w, Init(now), es), CleanUp))
  {
    RunKeeps(w, Init(now), es);
    CleanUpKeeps(w, Run(w, Init(now), es));
    InvKeepsOpenWindows(w, Step(w, Run(w, Init(now), es), CleanUp));
  }

  // ----- Only what was stored before is taken for a duplicate -----

  /** The character of a text at a place, if it is that long. */
  function CharAt(text: string, i: nat): Option<char> {
    if i < |text| then Some(text[i]) else None
  }

  /** Digests that agree in their first 32 characters are digests of the same text. */
  ghost predicate TellsApart(digest: Digest) {
    forall x, y :: (forall i: nat :: i < 32 ==> CharAt(digest(x), i) == CharAt(digest(y), i)) ==> x == y
  }

  lemma SameStart(a: string, b: string)
    ensures Truncated(a) == Truncated(b) ==> forall i: nat :: i < 32 ==> CharAt(a, i) == CharAt(b, i)
  {
    if Truncated(a) == Truncated(b) {
      forall i: nat | i < 32 ensures CharAt(a, i) == CharAt(b, i) {
        assert CharAt(a, i) == CharAt(Truncated(a), i) && CharAt(b, i) == CharAt(Truncated(b), i);
      }
    }
  }

  /** Two bodies have one job exactly if they report the same event to the same account. */
  lemma OneJobPerEventIff(w: World, i: Item, j: Item)
    requires TellsApart(w.digest)
    ensures KeyOf(w, i) == KeyOf(w, j) <==>
      i.account == j.account && EventKeyOf(w.parse(i.body)) == EventKeyOf(w.parse(j.body))
  {
    SameStart(w.digest(EventKeyOf(w.parse(i.body))), w.digest(EventKeyOf(w.parse(j.body))));
  }

  /** Bodies report the same event if they carry the same message, or none and the same kind and time. */
  lemma SameEventIff(p: Payload, q: Payload)
    requires p.messageId.Some? == q.messageId.Some?
    requires p.messageId.None? ==>
      p.event.Some? && q.event.Some? && p.stampText.Some? && q.stampText.Some?
      && S.NoColon(p.stampText.value) && S.NoColon(q.stampText.value)
    ensures EventKeyOf(p) == EventKeyOf(q) <==>
      if p.messageId.Some? then p.messageId == q.messageId else p.event == q.event && p.stampText == q.stampText
  {
    if p.messageId.None? && EventKeyOf(p) == EventKeyOf(q) {
      S.SplitAtLastColon(p.event.value, p.stampText.value, q.event.value, q.stampText.value);
    }
  }

  /** A body that reported this event to this account has been stored. */
  ghost predicate StoredBefore(w: World, s: State, account: nat, body: string) {
    exists k :: 0 <= k < |s.stored| && s.stored[k].item.account == account
      && EventKeyOf(w.parse(s.stored[k].item.body)) == EventKeyOf(w.parse(body))
  }

  ghost predicate NewEvent(w: World, s: State, body: string) {
    forall account: nat :: !StoredBefore(w, s, account, body)
  }

  ghost predicate JobWasStored(w: World, s: State, key: JobKey) {
    exists k :: 0 <= k < |s.stored| && KeyOf(w, s.stored[k].item) == key
  }

  /** Every job is that of a stored body. */
  ghost predicate JobsWereStored(w: World, s: State) {
    forall key :: key in s.jobs ==> JobWasStored(w, s, key)
  }

  lemma StillStored(w: World, s: State, u: State, key: JobKey)
    requires JobWasStored(w, s, key) && s.stored <= u.stored
    ensures JobWasStored(w, u, key)
  {
    var k :| 0 <= k < |s.stored| && KeyOf(w, s.stored[k].item) == key;
    assert u.stored[k].item == s.stored[k].item;
  }

  lemma StepKeepsJobsStored(w: World, s: State, e: Event)
    requires JobsWereStored(w, s)
    ensures JobsWereStored(w, Step(w, s, e))
  {
    var u := Step(w, s, e);
    forall key | key in u.jobs ensures JobWasStored(w, u, key) {
      if key in s.jobs { StillStored(w, s, u, key); } else { assert KeyOf(w, u.stored[|s.stored|].item) == key; }
    }
  }

  lemma {:induction false} RunKeepsJobsStored(w: World, s: State, es: seq<Event>)
    requires JobsWereStored(w, s)
    ensures JobsWereStored(w, Run(w, s, es))
  {
    if es != [] {
      RunKeepsJobsStored(w, s, es[..|es| - 1]);
      StepKeepsJobsStored(w, Run(w, s, es[..|es| - 1]), es[|es| - 1]);
    }
  }

  lemma KnownKeyWasStored(w: World, s: State, item: Item)
    requires KeyOf(w, item) in s.jobs
    ensures JobsWereStored(w, s) && TellsApart(w.digest) ==> StoredBefore(w, s, item.account, item.body)
  {
    if JobsWereStored(w, s) && TellsApart(w.digest) {
      assert JobWasStored(w, s, KeyOf(w, item));
      var k :| 0 <= k < |s.stored| && KeyOf(w, s.stored[k].item) == KeyOf(w, item);
      OneJobPerEventIff(w, s.stored[k].item, item);
    }
  }

  lemma StoredJobIsKnown(w: World, s: State, item: Item)
    ensures JobsWereStored(w, s) ==>
      JobsWereStored(w, s.(jobs := s.jobs[KeyOf(w, item) := JobRow(None)], stored := s.stored + [Entry(item, s.now)],
                           queued := s.queued + [item]))
  {
    var u := s.(jobs := s.jobs[KeyOf(w, item) := JobRow(None)], stored := s.stored + [Entry(item, s.now)],
                queued := s.queued + [item]);
    if JobsWereStored(w, s) {
      assert u.stored[|s.stored|].item == item;
      forall key | key in u.jobs && key != KeyOf(w, item) ensures JobWasStored(w, u, key) {
        StillStored(w, s, u, key);
      }
    }
  }

  /**
   In every run, whatever is interleaved: a body that has passed its checks is dropped as a duplicate only if the
   same event was stored for the same account before.
  */
  lemma NoEventLost(w: World, now: int, es: seq<Event>, h: nat, account: nat)
    requires TellsApart(w.digest)
    requires var s := Run(w, Init(now), es);
      h in s.handlers && s.handlers[h].Checked? && IsFor(w, account, s.handlers[h].body)
    ensures var s := Run(w, Init(now), es); var u := Step(w, s, Lookup(h, account));
      if h in u.handlers then u.handlers[h] == Unknown(Item(account, s.handlers[h].body), s.handlers[h].checkedAt)
      else StoredBefore(w, s, account, s.handlers[h].body)
  {
    var s := Run(w, Init(now), es);
    RunKeepsJobsStored(w, Init(now), es);
    var item := Item(account, s.handlers[h].body);
    if KeyOf(w, item) in s.jobs { KnownKeyWasStored(w, s, item); }
  }

  // ----- The two ways to store a body twice -----

  lemma RunOne(w: World, s: State, es: seq<Event>, e: Event)
    ensures Run(w, s, es + [e]) == Step(w, Run(w, s, es), e)
  {
    assert (es + [e])[..|es|] == es;
  }

  lemma Then(w: World, start: State, es: seq<Event>, s: State, e: Event) returns (fs: seq<Event>, t: State)
    requires s == Run(w, start, es)
    ensures fs == es + [e] && t == Step(w, s, e) && t == Run(w, start, fs)
  {
    fs, t := es + [e], Step(w, s, e);
    RunOne(w, start, es, e);
  }

  lemma {:induction false} RunConcat(w: World, s: State, a: seq<Event>, b: seq<Event>)
    ensures Run(w, s, a + b) == Run(w, Run(w, s, a), b)
  {
    if b == [] {
      assert a + b == a;
    } else {
      assert (a + b)[..|a + b| - 1] == a + b[..|b| - 1];
      RunConcat(w, s, a, b[..|b| - 1]);
    }
  }

  /** A body, and an account found for it, at the first moment its window allows. */
  predicate Early(w: World, i: Item, now: int) {
    IsFor(w, i.account, i.body) && w.parse(i.body).stamp == Some(now + w.limits.window)
  }

  /** The body is accepted and stored under that account. */
  lemma StoredFirst(w: World, i: Item, now: int) returns (es: seq<Event>)
    requires Early(w, i, now)
    ensures Run(w, Init(now), es)
         == State(now, map[KeyOf(w, i) := JobRow(None)], map[0 := Stored(i)], [Entry(i, now)], [])
  {
    es := [];
    var s := Init(now);
    es, s := Then(w, Init(now), es, s, Arrive(0, i.body));
    es, s := Then(w, Init(now), es, s, Lookup(0, i.account));
    es, s := Then(w, Init(now), es, s, Insert(0));
    assert s.jobs == map[KeyOf(w, i) := JobRow(None)];
    assert s.handlers == map[0 := Stored(i)];
  }

  /** Two rows for one OA: a replay that finds the other row is stored at once. */
  lemma TwoRowsStoreTwice(w: World, body: string, a: nat, b: nat, now: int) returns (es: seq<Event>)
    requires a != b && Early(w, Item(a, body), now) && IsFor(w, b, body)
    ensures !OnceOverall(Run(w, Init(now), es))
  {
    es := StoredFirst(w, Item(a, body), now);
    var s := Run(w, Init(now), es);
    es, s := Then(w, Init(now), es, s, Arrive(1, body));
    es, s := Then(w, Init(now), es, s, Lookup(1, b));
    es, s := Then(w, Init(now), es, s, Insert(1));
    assert s.stored[0].item.body == s.stored[1].item.body;
  }

  /** The job finishes at once and is cleaned up while the body can still be checked, or still be inserted. */
  lemma StoredAgain(w: World, i: Item, now: int, s: State, wait: nat, late: nat) returns (es: seq<Event>)
    requires Early(w, i, now)
    requires s == State(now, map[KeyOf(w, i) := JobRow(None)], map[0 := Stored(i)], [Entry(i, now)], [])
    requires wait <= 2 * w.limits.window && late <= w.limits.lag && wait + late > w.limits.retention
    ensures |Run(w, s, es).stored| == 2 && Run(w, s, es).stored[0].item == Run(w, s, es).stored[1].item
  {
    es := [];
    var u := s;
    es, u := Then(w, s, es, u, Finish(KeyOf(w, i)));
    es, u := Then(w, s, es, u, Tick(wait));
    es, u := Then(w, s, es, u, Arrive(1, i.body));
    es, u := Then(w, s, es, u, Tick(late));
    es, u := Then(w, s, es, u, CleanUp);
    assert u.jobs == map[];
    es, u := Then(w, s, es, u, Lookup(1, i.account));
    es, u := Then(w, s, es, u, Insert(1));
  }

  /** With a shorter retention the job is cleaned up in time for the same body to be accepted again. */
  lemma ReplayAfterCleanUp(w: World, i: Item, now: int) returns (es: seq<Event>)
    requires !KeptLongEnough(w.limits) && Early(w, i, now)
    ensures !OncePerAccount(Run(w, Init(now), es)) && !OnceOverall(Run(w, Init(now), es))
  {
    var gone := w.limits.retention + 1;
    var wait := if gone <= 2 * w.limits.window then gone else 2 * w.limits.window;
    var first := StoredFirst(w, i, now);
    var again := StoredAgain(w, i, now, Run(w, Init(now), first), wait, gone - wait);
    RunConcat(w, Init(now), first, again);
    es := first + again;
  }

  // ----- Once for all time -----

  predicate OneRowPerOa(accounts: map<nat, OaId>) {
    forall a, b :: a in accounts && b in accounts && accounts[a] == accounts[b] ==> a == b
  }

  lemma OneRowMakesItOverall(w: World, s: State)
    requires Inv(w, s) && OneRowPerOa(w.accounts)
    ensures OnceOverall(s)
  {
    forall i, j | 0 <= i < j < |s.stored| ensures s.stored[i].item.body != s.stored[j].item.body {
      assert EntryInv(w, s, s.stored[i]) && EntryInv(w, s, s.stored[j]);
    }
    forall i, j | 0 <= i < j < |s.queued| ensures s.queued[i].body != s.queued[j].body {
      assert IsStored(s, s.queued[i]) && IsStored(s, s.queued[j]);
      var k :| 0 <= k < |s.stored| && s.stored[k].item == s.queued[i];
      var m :| 0 <= m < |s.stored| && s.stored[m].item == s.queued[j];
      assert EntryInv(w, s, s.stored[k]) && EntryInv(w, s, s.stored[m]);
    }
  }

  /** Every body is for the given OA and carries the timestamp `window`. */
  function Sample(l: Limits, accounts: map<nat, OaId>, oa: OaId): World {
    World(l, accounts, _ => Payload(None, None, Some(l.window), None, Some(oa), None, None, None), text => text)
  }

  /** In every world with these limits and accounts, every run keeps the property. */
  ghost predicate AlwaysOncePerAccount(l: Limits, accounts: map<nat, OaId>) {
    forall w: World, now: int, es: seq<Event> ::
      w.limits == l && w.accounts == accounts ==> OncePerAccount(Run(w, Init(now), es))
  }

  ghost predicate AlwaysOnceOverall(l: Limits, accounts: map<nat, OaId>) {
    forall w: World, now: int, es: seq<Event> ::
      w.limits == l && w.accounts == accounts ==> OnceOverall(Run(w, Init(now), es))
  }

  /**
   In every interleaving no body is stored or queued twice under one account, for all time, exactly when
   jobs are kept for twice the replay window and the handling lag: 20 minutes, where handling takes no time.
   */
  lemma OncePerAccountIff(l: Limits, accounts: map<nat, OaId>)
    requires accounts != map[]
    ensures AlwaysOncePerAccount(l, accounts) <==> KeptLongEnough(l)
  {
    if KeptLongEnough(l) {
      forall w: World, now: int, es: seq<Event> | w.limits == l && w.accounts == accounts
        ensures OncePerAccount(Run(w, Init(now), es))
      {
        RunKeeps(w, Init(now), es);
      }
    } else {
      var a :| a in accounts.Keys;
      var w := Sample(l, accounts, accounts[a]);
      var es := ReplayAfterCleanUp(w, Item(a, ""), 0);
    }
  }

  /**
   No text is stored or queued twice at all exactly when, in addition, no OA has two account rows: the
   lookup goes by OA alone, while the unique key of accounts includes the workspace.
   */
  lemma OnceForAllTimeIff(l: Limits, accounts: map<nat, OaId>)
    requires accounts != map[]
    ensures AlwaysOnceOverall(l, accounts) <==> KeptLongEnough(l) && OneRowPerOa(accounts)
  {
    if !KeptLongEnough(l) {
      var a :| a in accounts.Keys;
      var w := Sample(l, accounts, accounts[a]);
      var es := ReplayAfterCleanUp(w, Item(a, ""), 0);
    } else if !OneRowPerOa(accounts) {
      var a, b :| a in accounts && b in accounts && accounts[a] == accounts[b] && a != b;
      var w := Sample(l, accounts, accounts[a]);
      var es := TwoRowsStoreTwice(w, "", a, b, 0);
    } else {
      forall w: World, now: int, es: seq<Event> | w.limits == l && w.accounts == accounts
        ensures OnceOverall(Run(w, Init(now), es))
      {
        RunKeeps(w, Init(now), es);
        OneRowMakesItOverall(w, Run(w, Init(now), es));
      }
    }
  }

  // ----- One delivery -----

  datatype Settings = Settings(secret: Option<string>, appId: Option<string>, setupMode: bool)

  datatype Answer =
    | Accepted
    | Duplicate
    | Probe
    | NotConfigured
    | BadEnvelope
    | WrongApp
    | OutsideWindow
    | BadSignature
    | NoOa
    | NoAccount

  /** A text that is there and not empty. */
  predicate Given(text: Option<string>) {
    text.Some? && text.value != ""
  }

  predicate Envelope(body: string, p: Payload) {
    body != "" && Given(p.appId) && Given(p.stampText) && Given(p.event)
  }

  function Mac(digest: Digest, appId: string, body: string, stampText: string, secret: string): string {
    "mac=" + digest(appId + body + stampText + secret)
  }

  predicate WellSigned(w: World, body: string, signature: Option<string>, c: Settings) {
    var p := w.parse(body);
    && signature.Some? && c.appId.Some? && c.secret.Some? && p.stampText.Some?
    && signature.value == Mac(w.digest, c.appId.value, body, p.stampText.value, c.secret.value)
  }

  /** The checks of a delivery, one after the other: each answer but the last two belongs to the first that fails. */
  function FirstFailure(w: World, body: string, signature: Option<string>, c: Settings, now: int): Option<Answer> {
    var p := w.parse(body);
    if body == "" || !Given(p.appId) || !Given(p.stampText) || !Given(p.event) then Some(Probe)
    else if c.secret == None || c.appId == None then Some(NotConfigured)
    else if !Given(signature) then Some(BadEnvelope)
    else if p.appId != c.appId then Some(WrongApp)
    else if p.stamp == None || p.stamp.value < now - w.limits.window || p.stamp.value > now + w.limits.window
    then Some(OutsideWindow)
    else if signature.value
      != "mac=" + w.digest(c.appId.value + body + p.stampText.value + c.secret.value)
    then Some(if c.setupMode then Probe else BadSignature)
    else if !Given(OaOf(p)) then Some(NoOa)
    else if forall a :: a in w.accounts ==> OaOf(p) != Some(w.accounts[a]) then Some(NoAccount)
    else None
  }

  /** A delivery that passes every check, for a connected OA. */
  predicate Genuine(w: World, body: string, signature: Option<string>, c: Settings, now: int) {
    FirstFailure(w, body, signature, c, now) == None
  }

  class Inbox {
    var jobs: map<JobKey, JobRow>
    var stored: seq<Entry>
    var queued: seq<Item>

    ghost function At(now: int): State
      reads this
    {
      State(now, jobs, map[], stored, queued)
    }

    constructor ()
      ensures forall now :: At(now) == Init(now)
    {
      jobs, stored, queued := map[], [], [];
    }

    /**
     accept, when nothing comes between its statements. Only a genuine delivery whose job is not known is
     stored, under any account row of its OA, in four steps of the protocol above; every other answer
     changes nothing. Where short digests tell events apart, no event is taken for a duplicate that was not
     stored before.
     */
    method Accept(w: World, body: string, signature: Option<string>, c: Settings, now: int)
      returns (answer: Answer, account: nat)
      modifies this
      ensures answer.Accepted? || answer.Duplicate? <==> Genuine(w, body, signature, c, now)
      ensures !Genuine(w, body, signature, c, now) ==> Some(answer) == FirstFailure(w, body, signature, c, now)
      ensures answer.Accepted? || answer.Duplicate? ==> IsFor(w, account, body)
      ensures answer.Duplicate? ==> KeyOf(w, Item(account, body)) in old(jobs)
      ensures answer.Accepted? ==>
        && KeyOf(w, Item(account, body)) !in old(jobs)
        && stored == old(stored) + [Entry(Item(account, body), now)] && queued == old(queued) + [Item(account, body)]
        && jobs == old(jobs)[KeyOf(w, Item(account, body)) := JobRow(None)]
        && At(now) == Run(w, old(At(now)), [Arrive(0, body), Lookup(0, account), Insert(0), Enqueue(0)])
      ensures !answer.Accepted? ==> At(now) == old(At(now))
      ensures KeptLongEnough(w.limits) && Inv(w, old(At(now))) ==>
        && Inv(w, At(now))
        && (answer.Accepted? ==> !IsStored(old(At(now)), Item(account, body)))
      ensures JobsWereStored(w, old(At(now))) ==>
        && JobsWereStored(w, At(now))
        && (TellsApart(w.digest) && answer.Duplicate? ==> StoredBefore(w, old(At(now)), account, body))
        && (TellsApart(w.digest) && Genuine(w, body, signature, c, now) && NewEvent(w, old(At(now)), body) ==>
              answer.Accepted?)
    {
      account := 0;
      var p := w.parse(body);
      ghost var before := At(now);
      if !Envelope(body, p) { return Probe, account; }
      if c.secret.None? || c.appId.None? { return NotConfigured, account; }
      if !Given(signature) { return BadEnvelope, account; }
      if p.appId != c.appId { return WrongApp, account; }
      if !InWindow(w, now, body) { return OutsideWindow, account; }
      if !WellSigned(w, body, signature, c) {
        return if c.setupMode then Probe else BadSignature, account;
      }
      if !Given(OaOf(p)) { return NoOa, account; }
      if a: nat :| a in w.accounts && IsFor(w, a, body) {
        account := a;
      } else {
        assert forall a :: a in w.accounts ==> !IsFor(w, a, body);
        return NoAccount, account;
      }
      var item := Item(account, body);
      if KeyOf(w, item) in jobs {
        KnownKeyWasStored(w, before, item);
        return Duplicate, account;
      }
      AcceptIsFourSteps(w, At(now), item);
      AcceptStoresNew(w, At(now), item);
      jobs := jobs[KeyOf(w, item) := JobRow(None)];
      stored := stored + [Entry(item, now)];
      queued := queued + [item];
      StoredJobIsKnown(w, before, item);
      answer := Accepted;
    }

    /** The part of the scheduler's maintenance that deletes old jobs. */
    method DeleteOldJobs(w: World, now: int)
      modifies this`jobs
      ensures At(now) == Step(w, old(At(now)), CleanUp)
      ensures Inv(w, old(At(now))) ==> Inv(w, At(now))
      ensures KeptLongEnough(w.limits) && Inv(w, old(At(now))) ==> OpenWindowsHaveJobs(w, At(now))
    {
      ghost var s := At(now);
      jobs := Kept(w, jobs, now);
      if Inv(w, s) {
        CleanUpKeeps(w, s);
        if KeptLongEnough(w.limits) { InvKeepsOpenWindows(w, At(now)); }
      }
    }

    /** The end of a webhook job, done or failed. */
    method FinishJob(w: World, key: JobKey, now: int)
      modifies this`jobs
      ensures At(now) == Step(w, old(At(now)), Finish(key))
      ensures Inv(w, old(At(now))) ==> Inv(w, At(now))
    {
      ghost var s := At(now);
      if key in jobs { jobs := jobs[key := JobRow(Some(now))]; }
      if Inv(w, s) { FinishKeeps(w, s, key); }
    }
  }

  lemma AcceptIsFourSteps(w: World, s: State, i: Item)
    requires s.handlers == map[] && InWindow(w, s.now, i.body) && IsFor(w, i.account, i.body) && KeyOf(w, i) !in s.jobs
    ensures Run(w, s, [Arrive(0, i.body), Lookup(0, i.account), Insert(0), Enqueue(0)])
         == s.(jobs := s.jobs[KeyOf(w, i) := JobRow(None)], stored := s.stored + [Entry(i, s.now)],
               queued := s.queued + [i])
  {
    var es, t := [], s;
    es, t := Then(w, s, es, t, Arrive(0, i.body));
    es, t := Then(w, s, es, t, Lookup(0, i.account));
    es, t := Then(w, s, es, t, Insert(0));
    es, t := Then(w, s, es, t, Enqueue(0));
    assert es == [Arrive(0, i.body), Lookup(0, i.account), Insert(0), Enqueue(0)];
    assert t.handlers == map[];
  }

  /** Where the invariant holds, what those four steps store was not stored before. */
  lemma AcceptStoresNew(w: World, s: State, i: Item)
    requires s.handlers == map[] && InWindow(w, s.now, i.body) && IsFor(w, i.account, i.body) && KeyOf(w, i) !in s.jobs
    ensures var u := Run(w, s, [Arrive(0, i.body), Lookup(0, i.account), Insert(0), Enqueue(0)]);
      KeptLongEnough(w.limits) && Inv(w, s) ==> Inv(w, u) && !IsStored(s, i)
  {
    var es := [Arrive(0, i.body), Lookup(0, i.account), Insert(0), Enqueue(0)];
    if KeptLongEnough(w.limits) && Inv(w, s) {
      AcceptIsFourSteps(w, s, i);
      RunKeeps(w, s, es);
      var u := Run(w, s, es);
      forall k | 0 <= k < |s.stored| ensures s.stored[k].item != i {
        assert u.stored[k].item != u.stored[|s.stored|].item;
      }
    }
  }
}
