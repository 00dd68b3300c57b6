/**
 Any number of fan-out runs of one campaign at once, statement by statement, each of which may be cut
 after any of them.
 */
module FanOutRace {
  import opened FanOut

  /** `fit` is the judgement the message was created with: QUEUED if fit, BLOCKED if not. */
  datatype Message = Message(contact: nat, fit: bool)

  /** Where a run stands: at member `i`, after its lookup, or holding the message it created for it. */
  datatype Runner =
    | At(i: nat)
    | Unfound(i: nat)
    | Written(i: nat, id: nat)
    | Linked(i: nat, id: nat)
    | Recorded(i: nat, id: nat)

  /** `sends` logs the send jobs put in the queue; `lost` holds the messages a run was holding when it ended early. */
  datatype State = State(
    messages: map<nat, Message>,
    links: map<nat, Delivery>,
    sends: seq<nat>,
    lost: set<nat>,
    runners: map<nat, Runner>
  )

  datatype Event =
    | Start(run: nat)
    | Look(run: nat)
    | Create(run: nat, id: nat, fit: bool)
    | Link(run: nat)
    | Record(run: nat)
    | Enqueue(run: nat)
    | Cut(run: nat)
    | Progress(contact: nat, delivery: Delivery)

  const Init := State(map[], map[], [], {}, map[])

  predicate Holding(r: Runner) {
    r.Written? || r.Linked? || r.Recorded?
  }

  predicate HasMessage(messages: map<nat, Message>, contact: nat) {
    exists id :: id in messages && messages[id].contact == contact
  }

  /** A send job for a message to the contact has been put in the queue. */
  predicate IsQueued(s: State, contact: nat) {
    exists id :: id in s.sends && id in s.messages && s.messages[id].contact == contact
  }

  function Move(s: State, run: nat, r: Runner): State {
    s.(runners := s.runners[run := r])
  }

  /** A run ends early, by a crash or by a unique key it violates. */
  function Drop(s: State, run: nat): State
    requires run in s.runners
  {
    s.(runners := s.runners - {run},
       lost := if Holding(s.runners[run]) then s.lost + {s.runners[run].id} else s.lost)
  }

  /**
   One statement of the run `run`, or the progress of a delivery; an event whose guard does not hold changes nothing.
  */
  function Step(audience: seq<Member>, s: State, e: Event): State {
    match e
    case Progress(c, d) => if c in s.links && IsQueued(s, c) then s.(links := s.links[c := d]) else s
    case Start(run) => if run in s.runners then s else Move(s, run, At(0))
    case _ => if e.run in s.runners then Advance(audience, s, e.run, s.runners[e.run], e) else s
  }

  function Advance(audience: seq<Member>, s: State, run: nat, r: Runner, e: Event): State
    requires run in s.runners && s.runners[run] == r && !e.Progress?
  {
    match e
    case Look(_) =>
      if !r.At? then s
      else if r.i >= |audience| then s.(runners := s.runners - {run})
      else if !audience[r.i].included then
        Move(s.(links := s.links[audience[r.i].contact := Blocked]), run, At(r.i + 1))
      else if HasMessage(s.messages, audience[r.i].contact) then Move(s, run, At(r.i + 1))
      else Move(s, run, Unfound(r.i))
    case Create(_, id, fit) =>
      if !r.Unfound? || r.i >= |audience| || id in s.messages then s
      else if HasMessage(s.messages, audience[r.i].contact) then Drop(s, run)
      else Move(s.(messages := s.messages[id := Message(audience[r.i].contact, fit)]), run, Written(r.i, id))
    case Link(_) =>
      if !r.Written? || r.id !in s.messages then s
      else if s.messages[r.id].contact in s.links then Drop(s, run)
      else
        var m := s.messages[r.id];
        Move(s.(links := s.links[m.contact := if m.fit then Queued else Blocked]), run,
             if m.fit then Linked(r.i, r.id) else At(r.i + 1))
    case Record(_) => if r.Linked? then Move(s, run, Recorded(r.i, r.id)) else s
    case Enqueue(_) => if r.Recorded? then Move(s.(sends := s.sends + [r.id]), run, At(r.i + 1)) else s
    case Cut(_) => Drop(s, run)
    case _ => s
  }

  function Run(audience: seq<Member>, s: State, es: seq<Event>): State {
    if es == [] then s else Step(audience, Run(audience, s, es[..|es| - 1]), es[|es| - 1])
  }

  // ----- What every interleaving keeps -----

  /** The idempotency key of a message names its campaign and contact. */
  ghost predicate OnePerContact(messages: map<nat, Message>) {
    forall a, b :: a in messages && b in messages && messages[a].contact == messages[b].contact ==> a == b
  }

  ghost predicate NoRepeats(sends: seq<nat>) {
    forall i, j :: 0 <= i < j < |sends| ==> sends[i] != sends[j]
  }

  ghost predicate RunnerInv(audience: seq<Member>, s: State, r: Runner) {
    && (r.Unfound? ==> r.i < |audience| && audience[r.i].included)
    && (Holding(r) ==>
          && r.id in s.messages && r.id !in s.sends && r.id !in s.lost
          && r.i < |audience| && audience[r.i].included && audience[r.i].contact == s.messages[r.id].contact
          && (!r.Written? ==> s.messages[r.id].fit)
          && (if r.Written? then s.messages[r.id].contact !in s.links
              else s.messages[r.id].contact in s.links && s.links[s.messages[r.id].contact] == Queued))
  }

  /** A message created fit is queued for sending, or held by a run, or was lost by one. */
  ghost predicate Accounted(s: State, id: nat) {
    id in s.sends || id in s.lost || Held(s, id)
  }

  ghost predicate Held(s: State, id: nat) {
    exists run :: run in s.runners && Holding(s.runners[run]) && s.runners[run].id == id
  }

  ghost predicate RunnersInv(audience: seq<Member>, s: State) {
    && (forall run :: run in s.runners ==> RunnerInv(audience, s, s.runners[run]))
    && (forall a, b :: (a in s.runners && b in s.runners && a != b
                        && Holding(s.runners[a]) && Holding(s.runners[b])) ==>
          s.runners[a].id != s.runners[b].id)
  }

  ghost predicate LinksInv(audience: seq<Member>, s: State) {
    forall i :: (0 <= i < |audience| && audience[i].included && audience[i].contact in s.links) ==>
      HasMessage(s.messages, audience[i].contact)
  }

  ghost predicate TablesInv(s: State) {
    && OnePerContact(s.messages) && NoRepeats(s.sends)
    && (forall id <- s.sends :: id in s.messages && s.messages[id].fit && id !in s.lost)
    && (forall id <- s.lost :: id in s.messages)
  }

  ghost predicate AllAccounted(s: State) {
    forall id :: id in s.messages && s.messages[id].fit ==> Accounted(s, id)
  }

  ghost predicate Inv(audience: seq<Member>, s: State) {
    TablesInv(s) && RunnersInv(audience, s) && LinksInv(audience, s) && AllAccounted(s)
  }

  lemma HasMessageStays(messages: map<nat, Message>, id: nat, m: Message, contact: nat)
    requires HasMessage(messages, contact) && id !in messages
    ensures HasMessage(messages[id := m], contact)
  {
    var x :| x in messages && messages[x].contact == contact;
    assert messages[id := m][x].contact == contact;
  }

  /** Only `run` has moved, and what it held is accounted for. */
  lemma AccountedStays(s: State, u: State, run: nat, id: nat)
    requires Accounted(s, id) && run in s.runners
    requires (forall x <- s.sends :: x in u.sends) && s.lost <= u.lost
    requires forall w :: w in s.runners && w != run ==> w in u.runners && u.runners[w] == s.runners[w]
    requires Holding(s.runners[run]) && s.runners[run].id == id ==> Accounted(u, id)
    ensures Accounted(u, id)
  {
    if Held(s, id) {
      var w :| w in s.runners && Holding(s.runners[w]) && s.runners[w].id == id;
      if w != run { assert Held(u, id); }
    }
  }

  lemma ExcludedApart(audience: seq<Member>, i: nat)
    requires Distinct(audience) && i < |audience| && !audience[i].included
    ensures forall j :: 0 <= j < |audience| && audience[j].included ==> audience[j].contact != audience[i].contact
  {
  }

  lemma DropKeeps(audience: seq<Member>, s: State, run: nat)
    requires Inv(audience, s) && run in s.runners
    ensures Inv(audience, Drop(s, run))
  {
    var u := Drop(s, run);
    forall id | id in u.messages && u.messages[id].fit ensures Accounted(u, id) { AccountedStays(s, u, run, id); }
  }

  lemma LookKeeps(audience: seq<Member>, s: State, run: nat)
    requires Distinct(audience) && Inv(audience, s) && run in s.runners
    ensures Inv(audience, Advance(audience, s, run, s.runners[run], Look(run)))
  {
    var r := s.runners[run];
    var u := Advance(audience, s, run, r, Look(run));
    if r.At? {
      forall id | id in u.messages && u.messages[id].fit ensures Accounted(u, id) { AccountedStays(s, u, run, id); }
      if r.i < |audience| && !audience[r.i].included { ExcludedKeeps(audience, s, run, u); }
    }
  }

  /** Blocking an excluded member touches no included one. */
  lemma ExcludedKeeps(audience: seq<Member>, s: State, run: nat, u: State)
    requires Distinct(audience) && Inv(audience, s) && run in s.runners
    requires s.runners[run].At? && s.runners[run].i < |audience| && !audience[s.runners[run].i].included
    requires u == Advance(audience, s, run, s.runners[run], Look(run))
    ensures RunnersInv(audience, u) && LinksInv(audience, u)
  {
    var i := s.runners[run].i;
    ExcludedApart(audience, i);
    forall w | w in u.runners && w != run ensures RunnerInv(audience, u, u.runners[w]) {
      assert RunnerInv(audience, s, s.runners[w]);
    }
    forall j | 0 <= j < |audience| && audience[j].included && audience[j].contact in u.links
      ensures HasMessage(u.messages, audience[j].contact)
    {
      assert audience[j].contact in s.links;
    }
  }

  lemma CreateKeeps(audience: seq<Member>, s: State, run: nat, id: nat, fit: bool)
    requires Inv(audience, s) && run in s.runners && s.runners[run].Unfound? && id !in s.messages
    requires !HasMessage(s.messages, audience[s.runners[run].i].contact)
    ensures Inv(audience, Advance(audience, s, run, s.runners[run], Create(run, id, fit)))
  {
    var r := s.runners[run];
    assert RunnerInv(audience, s, r);
    var contact := audience[r.i].contact;
    var u := Advance(audience, s, run, r, Create(run, id, fit));
    assert u.messages == s.messages[id := Message(contact, fit)];
    forall x | x in u.messages && u.messages[x].fit ensures Accounted(u, x) {
      if x == id { assert u.runners[run].id == id; } else { AccountedStays(s, u, run, x); }
    }
    forall i | 0 <= i < |audience| && audience[i].included && audience[i].contact in u.links
      ensures HasMessage(u.messages, audience[i].contact)
    {
      HasMessageStays(s.messages, id, Message(contact, fit), audience[i].contact);
    }
    assert id !in s.sends && id !in s.lost;
    forall w | w in u.runners ensures RunnerInv(audience, u, u.runners[w]) {
      if w != run { assert RunnerInv(audience, s, s.runners[w]); }
    }
    assert forall x :: x in s.messages ==> s.messages[x].contact != contact;
  }

  lemma LinkKeeps(audience: seq<Member>, s: State, run: nat)
    requires Inv(audience, s) && run in s.runners && s.runners[run].Written?
    ensures Inv(audience, Advance(audience, s, run, s.runners[run], Link(run)))
  {
    var r := s.runners[run];
    assert RunnerInv(audience, s, r);
    var u := Advance(audience, s, run, r, Link(run));
    forall x | x in u.messages && u.messages[x].fit ensures Accounted(u, x) {
      if x == r.id { assert u.runners[run].id == x; }
      AccountedStays(s, u, run, x);
    }
    forall w | w in u.runners && w != run ensures RunnerInv(audience, u, u.runners[w]) {
      assert RunnerInv(audience, s, s.runners[w]);
    }
    assert HasMessage(u.messages, s.messages[r.id].contact);
  }

  lemma RecordKeeps(audience: seq<Member>, s: State, run: nat)
    requires Inv(audience, s) && run in s.runners && s.runners[run].Linked?
    ensures Inv(audience, Move(s, run, Recorded(s.runners[run].i, s.runners[run].id)))
  {
    var r := s.runners[run];
    var u := Move(s, run, Recorded(r.i, r.id));
    forall x | x in u.messages && u.messages[x].fit ensures Accounted(u, x) {
      if x == r.id { assert u.runners[run].id == x; }
      AccountedStays(s, u, run, x);
    }
    forall w | w in u.runners ensures RunnerInv(audience, u, u.runners[w]) {
      assert RunnerInv(audience, s, s.runners[w]);
    }
  }

  lemma EnqueueKeeps(audience: seq<Member>, s: State, run: nat)
    requires Inv(audience, s) && run in s.runners && s.runners[run].Recorded?
    ensures Inv(audience, Advance(audience, s, run, s.runners[run], Enqueue(run)))
  {
    var r := s.runners[run];
    assert RunnerInv(audience, s, r);
    var u := Advance(audience, s, run, r, Enqueue(run));
    assert u.sends == s.sends + [r.id];
    assert r.id in u.sends by { assert u.sends[|s.sends|] == r.id; }
    forall x | x in u.messages && u.messages[x].fit ensures Accounted(u, x) { AccountedStays(s, u, run, x); }
    forall w | w in u.runners && w != run ensures RunnerInv(audience, u, u.runners[w]) {
      assert RunnerInv(audience, s, s.runners[w]);
    }
  }

  lemma StepKeeps(audience: seq<Member>, s: State, e: Event)
    requires Distinct(audience) && Inv(audience, s)
    ensures Inv(audience, Step(audience, s, e))
  {
    match e
    case Start(run) => StartKeeps(audience, s, run);
    case Progress(c, d) => ProgressKeeps(audience, s, c, d);
    case Look(run) => if run in s.runners { LookKeeps(audience, s, run); }
    case Create(run, id, fit) =>
      if run in s.runners && s.runners[run].Unfound? && id !in s.messages {
        assert RunnerInv(audience, s, s.runners[run]);
        if HasMessage(s.messages, audience[s.runners[run].i].contact) { DropKeeps(audience, s, run); }
        else { CreateKeeps(audience, s, run, id, fit); }
      }
    case Link(run) => if run in s.runners && s.runners[run].Written? { LinkKeeps(audience, s, run); }
    case Record(run) => if run in s.runners && s.runners[run].Linked? { RecordKeeps(audience, s, run); }
    case Enqueue(run) => if run in s.runners && s.runners[run].Recorded? { EnqueueKeeps(audience, s, run); }
    case Cut(run) => if run in s.runners { DropKeeps(audience, s, run); }
  }

  lemma StartKeeps(audience: seq<Member>, s: State, run: nat)
    requires Inv(audience, s)
    ensures Inv(audience, Step(audience, s, Start(run)))
  {
    var u := Step(audience, s, Start(run));
    forall id | id in u.messages && u.messages[id].fit ensures Accounted(u, id) {
      if Held(s, id) {
        var w :| w in s.runners && Holding(s.runners[w]) && s.runners[w].id == id;
        assert w in u.runners && u.runners[w] == s.runners[w];
      }
    }
    forall w | w in u.runners && w in s.runners ensures RunnerInv(audience, u, u.runners[w]) {
      assert RunnerInv(audience, s, s.runners[w]);
    }
  }

  lemma ProgressKeeps(audience: seq<Member>, s: State, c: nat, d: Delivery)
    requires Inv(audience, s)
    ensures Inv(audience, Step(audience, s, Progress(c, d)))
  {
    var u := Step(audience, s, Progress(c, d));
    forall id | id in u.messages && u.messages[id].fit ensures Accounted(u, id) { assert Held(s, id) ==> Held(u, id); }
    forall w | w in u.runners ensures RunnerInv(audience, u, u.runners[w]) {
      assert RunnerInv(audience, s, s.runners[w]);
    }
  }

  lemma {:induction false} RunKeeps(audience: seq<Member>, s: State, es: seq<Event>)
    requires Distinct(audience) && Inv(audience, s)
    ensures Inv(audience, Run(audience, s, es))
  {
    if es != [] {
      RunKeeps(audience, s, es[..|es| - 1]);
      StepKeeps(audience, Run(audience, s, es[..|es| - 1]), es[|es| - 1]);
    }
  }

  /**
   However many runs there are and wherever they are cut: at most one message per contact, at most one send
   job per message, and every message created fit is sent, in the hands of a run, or lost by a cut one.
   */
  lemma RunsNeverRepeat(audience: seq<Member>, es: seq<Event>)
    requires Distinct(audience)
    ensures Inv(audience, Run(audience, Init, es))
  {
    RunKeeps(audience, Init, es);
  }

  /** Once every run is over, a message created fit was queued for sending exactly when no cut run was holding it. */
  lemma SentUnlessLost(audience: seq<Member>, es: seq<Event>, id: nat)
    requires Distinct(audience) && Run(audience, Init, es).runners == map[]
    ensures var s := Run(audience, Init, es);
      && OnePerContact(s.messages) && NoRepeats(s.sends)
      && (id in s.messages && s.messages[id].fit ==> (id in s.sends <==> id !in s.lost))
  {
    RunsNeverRepeat(audience, es);
    var s := Run(audience, Init, es);
    assert id in s.messages && s.messages[id].fit ==> Accounted(s, id);
  }

  // ----- The tables a full run is said to leave -----

  /** The tables by contact, as the sequential fan-out sees them. */
  ghost predicate Shows(s: State, t: Tables) {
    && (forall c :: c in t.messages <==> HasMessage(s.messages, c))
    && (forall id :: id in s.messages && s.messages[id].contact in t.messages ==>
          t.messages[s.messages[id].contact] == if s.messages[id].fit then Queued else Blocked)
    && t.links == s.links
    && (forall c :: c in t.jobs <==> IsQueued(s, c))
  }

  /** A run that is alone with a member makes these statements; those of branches not taken change nothing. */
  function MemberEvents(run: nat, id: nat, fit: bool): seq<Event> {
    [Look(run), Create(run, id, fit), Link(run), Record(run), Enqueue(run)]
  }

  lemma FiveSteps(audience: seq<Member>, s: State, a: Event, b: Event, c: Event, d: Event, e: Event)
    ensures Run(audience, s, [a, b, c, d, e])
         == Step(audience, Step(audience, Step(audience, Step(audience, Step(audience, s, a), b), c), d), e)
  {
    var es := [a, b, c, d, e];
    assert es[..4][..3] == es[..3] && es[..3][..2] == es[..2] && es[..2][..1] == es[..1] && es[..1][..0] == [];
    assert Run(audience, s, es[..1]) == Step(audience, s, a);
    assert Run(audience, s, es[..2]) == Step(audience, Run(audience, s, es[..1]), b);
    assert Run(audience, s, es[..3]) == Step(audience, Run(audience, s, es[..2]), c);
    assert Run(audience, s, es[..4]) == Step(audience, Run(audience, s, es[..3]), d);
  }

  /** What the five statements come to. */
  function AfterMember(audience: seq<Member>, s: State, run: nat, i: nat, id: nat, fit: bool): State
    requires i < |audience|
  {
    var c := audience[i].contact;
    var next := s.runners[run := At(i + 1)];
    if !audience[i].included then s.(links := s.links[c := Blocked], runners := next)
    else if HasMessage(s.messages, c) then s.(runners := next)
    else
      s.(messages := s.messages[id := Message(c, fit)],
         links := s.links[c := if fit then Queued else Blocked],
         sends := if fit then s.sends + [id] else s.sends,
         runners := next)
  }

  /** Between members a run has nothing to write. */
  lemma IdleAtMember(audience: seq<Member>, s: State, run: nat, id: nat, fit: bool)
    requires run in s.runners && s.runners[run].At?
    ensures Step(audience, s, Create(run, id, fit)) == s && Step(audience, s, Link(run)) == s
    ensures Step(audience, s, Record(run)) == s && Step(audience, s, Enqueue(run)) == s
  {
  }

  /** The member the run is at needs no message: it is excluded, or has one. */
  lemma PassesMember(audience: seq<Member>, s: State, run: nat, i: nat, id: nat, fit: bool)
    requires i < |audience| && run in s.runners && s.runners[run] == At(i)
    requires !audience[i].included || HasMessage(s.messages, audience[i].contact)
    ensures Run(audience, s, MemberEvents(run, id, fit)) == AfterMember(audience, s, run, i, id, fit)
  {
    FiveSteps(audience, s, Look(run), Create(run, id, fit), Link(run), Record(run), Enqueue(run));
    var one := Step(audience, s, Look(run));
    assert one.runners[run] == At(i + 1);
    IdleAtMember(audience, one, run, id, fit);
  }

  function NewMessage(s: State, c: nat, id: nat, fit: bool): State {
    s.(messages := s.messages[id := Message(c, fit)])
  }

  /** It needs one: the lookup and the first write. */
  lemma WritesMember(audience: seq<Member>, s: State, run: nat, i: nat, id: nat, fit: bool)
    requires i < |audience| && run in s.runners && s.runners[run] == At(i) && id !in s.messages
    requires audience[i].included && !HasMessage(s.messages, audience[i].contact)
    ensures Step(audience, Step(audience, s, Look(run)), Create(run, id, fit))
         == Move(NewMessage(s, audience[i].contact, id, fit), run, Written(i, id))
  {
    var one := Step(audience, s, Look(run));
    assert one == Move(s, run, Unfound(i));
  }

  lemma LinksMember(audience: seq<Member>, s: State, run: nat, i: nat, id: nat)
    requires i < |audience| && run in s.runners && s.runners[run] == Written(i, id) && id in s.messages
    requires s.messages[id].contact !in s.links
    ensures var m := s.messages[id];
      Step(audience, s, Link(run)) == Move(s.(links := s.links[m.contact := if m.fit then Queued else Blocked]), run,
                                           if m.fit then Linked(i, id) else At(i + 1))
  {
  }

  lemma QueuesMember(audience: seq<Member>, s: State, run: nat, i: nat, id: nat)
    requires run in s.runners && s.runners[run] == Linked(i, id)
    ensures Step(audience, Step(audience, s, Record(run)), Enqueue(run))
         == Move(s.(sends := s.sends + [id]), run, At(i + 1))
  {
    assert Step(audience, s, Record(run)) == Move(s, run, Recorded(i, id));
  }

  lemma StepsComeTo(audience: seq<Member>, s: State, run: nat, i: nat, id: nat, fit: bool)
    requires i < |audience| && run in s.runners && s.runners[run] == At(i) && id !in s.messages
    requires audience[i].included && !HasMessage(s.messages, audience[i].contact) ==> audience[i].contact !in s.links
    ensures Run(audience, s, MemberEvents(run, id, fit)) == AfterMember(audience, s, run, i, id, fit)
  {
    if !audience[i].included || HasMessage(s.messages, audience[i].contact) {
      PassesMember(audience, s, run, i, id, fit);
    } else {
      ServesMember(audience, s, run, i, id, fit);
    }
  }

  lemma ServesMember(audience: seq<Member>, s: State, run: nat, i: nat, id: nat, fit: bool)
    requires i < |audience| && run in s.runners && s.runners[run] == At(i) && id !in s.messages
    requires audience[i].included && !HasMessage(s.messages, audience[i].contact) && audience[i].contact !in s.links
    ensures Run(audience, s, MemberEvents(run, id, fit)) == AfterMember(audience, s, run, i, id, fit)
  {
    FiveSteps(audience, s, Look(run), Create(run, id, fit), Link(run), Record(run), Enqueue(run));
    WritesMember(audience, s, run, i, id, fit);
    var two := Move(NewMessage(s, audience[i].contact, id, fit), run, Written(i, id));
    LinksMember(audience, two, run, i, id);
    var three := Step(audience, two, Link(run));
    if fit {
      QueuesMember(audience, three, run, i, id);
      assert s.runners[run := Written(i, id)][run := Linked(i, id)][run := At(i + 1)] == s.runners[run := At(i + 1)];
    } else {
      IdleAtMember(audience, three, run, id, fit);
      assert s.runners[run := Written(i, id)][run := At(i + 1)] == s.runners[run := At(i + 1)];
    }
  }

  lemma MemberShows(audience: seq<Member>, s: State, t: Tables, run: nat, i: nat, id: nat, fit: set<nat>)
    requires i < |audience| && Shows(s, t) && id !in s.messages && TablesInv(s)
    ensures Shows(AfterMember(audience, s, run, i, id, audience[i].contact in fit), Serve(t, audience[i], fit))
  {
    var c := audience[i].contact;
    if audience[i].included && !HasMessage(s.messages, c) {
      var m := Message(c, c in fit);
      NewMessageShows(s, t, id, m, AfterMember(audience, s, run, i, id, m.fit), Serve(t, audience[i], fit));
    }
  }

  lemma NewMessageShows(s: State, t: Tables, id: nat, m: Message, u: State, v: Tables)
    requires Shows(s, t) && id !in s.messages && TablesInv(s) && !HasMessage(s.messages, m.contact)
    requires u.messages == s.messages[id := m] && u.sends == (if m.fit then s.sends + [id] else s.sends)
    requires u.links == v.links
    requires v.messages == t.messages[m.contact := if m.fit then Queued else Blocked]
    requires v.jobs == if m.fit then t.jobs[m.contact := 0] else t.jobs
    ensures Shows(u, v)
  {
    forall c: nat ensures c in v.messages <==> HasMessage(u.messages, c) {
      if HasMessage(s.messages, c) { HasMessageStays(s.messages, id, m, c); }
      if c == m.contact { assert u.messages[id].contact == c; }
    }
    forall c: nat ensures c in v.jobs <==> IsQueued(u, c) { QueuedGrows(s, u, id, m, c); }
  }

  lemma QueuedGrows(s: State, u: State, id: nat, m: Message, c: nat)
    requires id !in s.messages && TablesInv(s)
    requires u.messages == s.messages[id := m] && u.sends == if m.fit then s.sends + [id] else s.sends
    ensures IsQueued(u, c) <==> IsQueued(s, c) || (m.fit && c == m.contact)
  {
    if IsQueued(s, c) {
      var x :| x in s.sends && x in s.messages && s.messages[x].contact == c;
      assert x in u.sends && u.messages[x].contact == c;
    }
    if m.fit && c == m.contact { assert u.sends[|s.sends|] == id && u.messages[id].contact == c; }
    if IsQueued(u, c) {
      var x :| x in u.sends && x in u.messages && u.messages[x].contact == c;
      if x != id { assert x in s.sends; }
    }
  }

  lemma {:induction false} RunConcat(audience: seq<Member>, s: State, a: seq<Event>, b: seq<Event>)
    ensures Run(audience, s, a + b) == Run(audience, Run(audience, s, a), b)
  {
    if b == [] {
      assert a + b == a;
    } else {
      assert (a + b)[..|a + b| - 1] == a + b[..|b| - 1];
      RunConcat(audience, s, a, b[..|b| - 1]);
    }
  }

  /** The statements of a run over the first `n` members; message identifiers come from `idOf`. */
  function RunEvents(audience: seq<Member>, run: nat, idOf: nat -> nat, fit: set<nat>, n: nat): seq<Event>
    requires n <= |audience|
  {
    if n == 0 then [Start(run)]
    else RunEvents(audience, run, idOf, fit, n - 1) + MemberEvents(run, idOf(n - 1), audience[n - 1].contact in fit)
  }

  /** Fresh identifiers: not in the table, and never the same twice. */
  ghost predicate NewIds(s: State, idOf: nat -> nat) {
    (forall i: nat :: idOf(i) !in s.messages) && (forall i: nat, j: nat :: idOf(i) == idOf(j) ==> i == j)
  }

  /** One member more. */
  lemma MemberServed(audience: seq<Member>, v: State, t: Tables, run: nat, idOf: nat -> nat, fit: set<nat>, k: nat)
    requires Inv(audience, v) && k < |audience| && run in v.runners && v.runners[run] == At(k) && Shows(v, t)
    requires forall i: nat :: i >= k ==> idOf(i) !in v.messages
    requires forall i: nat, j: nat :: idOf(i) == idOf(j) ==> i == j
    ensures var u := Run(audience, v, MemberEvents(run, idOf(k), audience[k].contact in fit));
      && u.runners == v.runners[run := At(k + 1)] && Shows(u, Serve(t, audience[k], fit))
      && forall i: nat :: i > k ==> idOf(i) !in u.messages
  {
    StepsComeTo(audience, v, run, k, idOf(k), audience[k].contact in fit);
    MemberShows(audience, v, t, run, k, idOf(k), fit);
  }

  /** How far the run has come after `n` members. */
  ghost predicate PartDone(audience: seq<Member>, s: State, t: Tables, run: nat, idOf: nat -> nat, fit: set<nat>,
                           n: nat, u: State)
    requires n <= |audience|
  {
    && u.runners == s.runners[run := At(n)]
    && Shows(u, ServeAll(t, audience[..n], fit))
    && forall i: nat :: i >= n ==> idOf(i) !in u.messages
  }

  lemma PartGrows(audience: seq<Member>, s: State, t: Tables, run: nat, idOf: nat -> nat, fit: set<nat>, k: nat,
                  v: State)
    requires k < |audience| && Inv(audience, v) && NewIds(s, idOf) && PartDone(audience, s, t, run, idOf, fit, k, v)
    ensures PartDone(audience, s, t, run, idOf, fit, k + 1,
                     Run(audience, v, MemberEvents(run, idOf(k), audience[k].contact in fit)))
  {
    MemberServed(audience, v, ServeAll(t, audience[..k], fit), run, idOf, fit, k);
    ServeAllSnoc(t, audience, fit, k + 1);
    assert s.runners[run := At(k)][run := At(k + 1)] == s.runners[run := At(k + 1)];
  }

  lemma {:induction false} PartServes(audience: seq<Member>, s: State, t: Tables, run: nat, idOf: nat -> nat,
                                      fit: set<nat>, n: nat)
    requires Distinct(audience) && Inv(audience, s) && run !in s.runners && Shows(s, t) && NewIds(s, idOf)
    requires n <= |audience|
    ensures PartDone(audience, s, t, run, idOf, fit, n, Run(audience, s, RunEvents(audience, run, idOf, fit, n)))
  {
    if n == 0 {
      StartServes(audience, s, t, run);
    } else {
      var es := RunEvents(audience, run, idOf, fit, n - 1);
      PartServes(audience, s, t, run, idOf, fit, n - 1);
      RunKeeps(audience, s, es);
      PartGrows(audience, s, t, run, idOf, fit, n - 1, Run(audience, s, es));
      RunConcat(audience, s, es, MemberEvents(run, idOf(n - 1), audience[n - 1].contact in fit));
    }
  }

  lemma ServeAllSnoc(t: Tables, audience: seq<Member>, fit: set<nat>, n: nat)
    requires 0 < n <= |audience|
    ensures ServeAll(t, audience[..n], fit) == Serve(ServeAll(t, audience[..n - 1], fit), audience[n - 1], fit)
  {
    assert audience[..n][..n - 1] == audience[..n - 1];
  }

  lemma SameTablesShow(s: State, u: State, t: Tables)
    requires Shows(s, t) && u.messages == s.messages && u.links == s.links && u.sends == s.sends
    ensures Shows(u, t)
  {
    forall c: nat ensures IsQueued(u, c) <==> IsQueued(s, c) {
      if IsQueued(s, c) {
        var id :| id in s.sends && id in s.messages && s.messages[id].contact == c;
        assert id in u.sends && u.messages[id].contact == c;
      }
      if IsQueued(u, c) {
        var id :| id in u.sends && id in u.messages && u.messages[id].contact == c;
        assert id in s.sends && s.messages[id].contact == c;
      }
    }
  }

  lemma StartServes(audience: seq<Member>, s: State, t: Tables, run: nat)
    requires run !in s.runners && Shows(s, t)
    ensures Run(audience, s, [Start(run)]) == Move(s, run, At(0))
    ensures Shows(Move(s, run, At(0)), ServeAll(t, audience[..0], {}))
  {
    assert [Start(run)][..0] == [];
    SameTablesShow(s, Move(s, run, At(0)), t);
  }

  /** A run that nothing interrupts ends in exactly the tables the sequential fan-out leaves. */
  lemma UninterruptedRunServesAll(audience: seq<Member>, s: State, t: Tables, run: nat, idOf: nat -> nat, fit: set<nat>)
    requires Distinct(audience) && Inv(audience, s) && run !in s.runners && Shows(s, t) && NewIds(s, idOf)
    ensures var u := Run(audience, s, RunEvents(audience, run, idOf, fit, |audience|) + [Look(run)]);
      u.runners == s.runners && Shows(u, ServeAll(t, audience, fit))
  {
    var es := RunEvents(audience, run, idOf, fit, |audience|);
    var v := Run(audience, s, es);
    PartServes(audience, s, t, run, idOf, fit, |audience|);
    assert (es + [Look(run)])[..|es|] == es;
    assert audience[..|audience|] == audience;
    assert s.runners[run := At(|audience|)] - {run} == s.runners;
    SameTablesShow(v, Step(audience, v, Look(run)), ServeAll(t, audience, fit));
  }

  // ----- What a cut leaves -----

  /** A run cut between the message and its campaign message leaves an orphan. */
  lemma CutLeavesOrphan(audience: seq<Member>, s: State, t: Tables, run: nat)
    requires Inv(audience, s) && run in s.runners && s.runners[run].Written? && Shows(s, t)
    ensures s.runners[run].i < |audience| && Orphan(t, audience[s.runners[run].i])
    ensures Shows(Step(audience, s, Cut(run)), t)
  {
    var r := s.runners[run];
    assert RunnerInv(audience, s, r);
    assert HasMessage(s.messages, audience[r.i].contact) by {
      assert s.messages[r.id].contact == audience[r.i].contact;
    }
    SameTablesShow(s, Step(audience, s, Cut(run)), t);
  }

  /** A run cut after that, but before the send job is queued, leaves the member stranded. */
  lemma CutStrands(audience: seq<Member>, s: State, t: Tables, run: nat)
    requires Inv(audience, s) && run in s.runners && (s.runners[run].Linked? || s.runners[run].Recorded?) && Shows(s, t)
    ensures s.runners[run].i < |audience| && audience[s.runners[run].i].included
    ensures Stranded(t, audience[s.runners[run].i])
    ensures Shows(Step(audience, s, Cut(run)), t)
  {
    var r := s.runners[run];
    assert RunnerInv(audience, s, r);
    NotQueued(s, r.id);
    SameTablesShow(s, Step(audience, s, Cut(run)), t);
  }

  lemma NotQueued(s: State, id: nat)
    requires TablesInv(s) && id in s.messages && id !in s.sends
    ensures !IsQueued(s, s.messages[id].contact)
  {
  }

  lemma StepKeepsLost(audience: seq<Member>, s: State, e: Event)
    ensures s.lost <= Step(audience, s, e).lost
  {
  }

  /** What was lost stays lost: no later statement of any run queues that message. */
  lemma {:induction false} LostForGood(audience: seq<Member>, s: State, es: seq<Event>, id: nat)
    requires Distinct(audience) && Inv(audience, s) && id in s.lost
    ensures id in Run(audience, s, es).lost && id !in Run(audience, s, es).sends
  {
    if es != [] {
      LostForGood(audience, s, es[..|es| - 1], id);
      StepKeepsLost(audience, Run(audience, s, es[..|es| - 1]), es[|es| - 1]);
    }
    RunKeeps(audience, s, es);
  }

  /** The contact of a lost message that never got its campaign message. */
  ghost predicate Unlinked(audience: seq<Member>, s: State, id: nat, i: nat) {
    && id in s.lost && id in s.messages && i < |audience| && audience[i].included
    && audience[i].contact == s.messages[id].contact && audience[i].contact !in s.links
  }

  lemma StepKeepsUnlinked(audience: seq<Member>, s: State, e: Event, id: nat, i: nat)
    requires Distinct(audience) && Inv(audience, s) && Unlinked(audience, s, id, i)
    ensures Unlinked(audience, Step(audience, s, e), id, i)
  {
    if e.Link? && e.run in s.runners && s.runners[e.run].Written? {
      assert RunnerInv(audience, s, s.runners[e.run]);
    }
    if e.Look? && e.run in s.runners && s.runners[e.run].At? {
      var i := s.runners[e.run].i;
      if i < |audience| && !audience[i].included { ExcludedApart(audience, i); }
    }
  }

  /** An orphan stays one: no run, and no number of runs, ever writes its campaign message. */
  lemma {:induction false} OrphanForGood(audience: seq<Member>, s: State, es: seq<Event>, id: nat, i: nat)
    requires Distinct(audience) && Inv(audience, s) && Unlinked(audience, s, id, i)
    ensures Unlinked(audience, Run(audience, s, es), id, i)
  {
    if es != [] {
      OrphanForGood(audience, s, es[..|es| - 1], id, i);
      RunKeeps(audience, s, es[..|es| - 1]);
      StepKeepsUnlinked(audience, Run(audience, s, es[..|es| - 1]), es[|es| - 1], id, i);
    }
  }
}
