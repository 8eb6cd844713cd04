/**
 How many hands it takes to make a load slip. Thirty are enough, and any more:
 here is, poll by poll, one whose accept is acknowledged but which is never seen
 to end. Fewer never are.
 */
module Stalls {
  import opened Wrappers
  import opened Geometry
  import opened Firmware
  import opened FirmwareLaws
  import opened CommandLaws
  import opened Runs
  import opened Motions
  import opened MoveLaws
  import opened LoadLaws
  import opened Courses
  import opened Hands
  import opened FlowLaws
  import S = Service
  import C = Catalogue

  // -- stretches in which nothing falls due --------------------------------

  lemma NothingDue(u: Unit, now: int)
    requires Fresh(u, now)
    ensures RunDue(u, now) == u
  {
    if u.events != [] { assert u.events[0] in u.events; }
  }

  /** What a status request does when nothing falls due in the read that follows it: a line in the log. */
  lemma QuietRead(s: Sim)
    requires Fresh(Found(s).u, s.now + LOOK_MS)
    ensures Poll(s) == Sim(Found(s).u.(w := Poll(s).u.w), s.now + LOOK_MS)
    ensures Poll(s).u.w.blips == Found(s).u.w.blips
  {
    hide Receive, RunDue;
    var f := Found(s);
    ReceiveStatus(f.u, f.now);
    var v := Receive(f.u, f.now, CMD_REQUEST_STATE, NO_ARGS).u;
    ReadsOnce(Sim(v, f.now));
    NothingDue(v, s.now + LOOK_MS);
  }

  lemma UndisturbedPoll(s: Sim)
    requires Fresh(s.u, s.now + LOOK_MS)
    ensures Found(s) == Sim(s.u, s.now + REPEAT_MS)
    ensures Poll(s) == Sim(s.u.(w := Poll(s).u.w), s.now + LOOK_MS) && Poll(s).u.w.blips == s.u.w.blips
  {
    hide Poll, RunDue;
    NothingDue(s.u, s.now + REPEAT_MS);
    QuietRead(s);
  }

  function Polls(s: Sim, n: nat): Sim
    decreases n
  {
    if n == 0 then s else Polls(Poll(s), n - 1)
  }

  /** A wait for idle looks in vain for as long as the unit is busy. */
  lemma {:induction false} LooksInVain(s: Sim, n: nat, deadline: int)
    requires Fresh(s.u, s.now + LOOK_MS * n)
    requires n > 0 ==> s.now + REPEAT_MS + LOOK_MS * (n - 1) < s.u.busyUntil
    requires s.now + LOOK_MS * n < deadline
    ensures WaitRun(s, ST_BUSY, 0, deadline) == WaitRun(Polls(s, n), ST_BUSY, 0, deadline)
    ensures Polls(s, n) == Sim(s.u.(w := Polls(s, n).u.w), s.now + LOOK_MS * n) && Polls(s, n).u.w.blips == s.u.w.blips
    decreases n
  {
    hide Poll, Sample, Shows, WaitRun, StatusWord, Found;
    if n > 0 {
      UndisturbedPoll(s);
      BusySample(s);
      WaitStep(s, ST_BUSY, 0, deadline);
      LooksInVain(Poll(s), n - 1, deadline);
    }
  }

  // -- one closure among hands ---------------------------------------------

  /** What may be pending for a while yet: a hand, or a timer. */
  predicate Patient(h: Happening) { h.Taken? || h.AckExpired? }

  /** `act` is next, and nothing else before `until`, when hands may begin to reach in. */
  ghost predicate Poised(u: Unit, m: Machine, busy: int, act: Act, until: int, hands: seq<Event>) {
    && Good(u) && u.m == m && u.busyUntil == busy && !u.w.blips
    && u.events != [] && Act(u.events[0].when, u.events[0].what) == act && act.when <= until
    && (forall x | x in u.events[1..] :: until <= x.when && Patient(x.what))
    && (forall x | x in hands :: x in u.events)
  }

  /** Nothing is due before `until`. */
  ghost predicate Pausing(u: Unit, m: Machine, busy: int, until: int, hands: seq<Event>) {
    && Good(u) && u.m == m && u.busyUntil == busy && !u.w.blips
    && (forall x | x in u.events :: until <= x.when && Patient(x.what))
    && (forall x | x in hands :: x in u.events)
  }

  lemma PoisedFresh(u: Unit, m: Machine, busy: int, act: Act, until: int, hands: seq<Event>, now: int)
    requires Poised(u, m, busy, act, until, hands) && now < act.when
    ensures Fresh(u, now) && Queued(u)
  {
    hide Good;
    GoodQueue(u);
    assert u.events == [u.events[0]] + u.events[1..];
  }

  /** What a closure schedules comes within so long, or is a timer. */
  predicate FollowsSoon(m: Machine, h: Happening, within: int) {
    Follows(m, h).Next? ==> Follows(m, h).delay < within || Follows(m, h).what.AckExpired?
  }

  /** Whether or not the closure of `act` schedules another to come before `until`. */
  ghost predicate Acted(u: Unit, m: Machine, busy: int, act: Act, until: int, hands: seq<Event>, now: int) {
    var n, ms, next := Altered(m, act.what), Labour(m, act.what), Follows(m, act.what);
    var later := if ms == 0 then busy else Max(busy, now + ms);
    if next.Next? && now + next.delay < until
    then Poised(u, n, later, Act(now + next.delay, next.what), until, hands)
    else Pausing(u, n, later, until, hands)
  }

  lemma EnqueueFirst(q: seq<Event>, e: Event)
    requires forall x | x in q :: e.when < x.when
    ensures Enqueue(q, e) == [e] + q
  {
    if q != [] { assert q[0] in q; }
  }

  lemma StepEvents(u: Unit, now: int)
    requires u.events != []
    ensures var next := Follows(u.m, u.events[0].what);
            Step(u, now).events
            == if next.Nothing? then u.events[1..]
               else Enqueue(u.events[1..], Event(now + next.delay, u.seqno + 1, next.what))
  {
    hide Enqueue, Altered, Labour, Follows;
  }

  lemma HandsBehind(q: seq<Event>, hands: seq<Event>)
    requires q != [] && !q[0].what.Taken? && forall x | x in hands :: x.what.Taken? && x in q
    ensures forall x | x in hands :: x in q[1..]
  {
    assert q == [q[0]] + q[1..];
  }

  lemma StepsAlone(u: Unit, m: Machine, busy: int, act: Act, until: int, hands: seq<Event>, now: int)
    requires Poised(u, m, busy, act, until, hands) && act.when <= now && !act.what.Taken?
    requires (forall x | x in hands :: x.what.Taken?) && FollowsSoon(m, act.what, until - now)
    ensures Acted(Step(u, now), m, busy, act, until, hands, now)
  {
    hide Good, Altered, Labour, Follows, Enqueue, Step, Accounted, Load;
    StepGood(u, now);
    StepState(u, now);
    StepEvents(u, now);
    HandsBehind(u.events, hands);
    var next, q := Follows(m, act.what), u.events[1..];
    if next.Next? {
      var e := Event(now + next.delay, u.seqno + 1, next.what);
      if now + next.delay < until { EnqueueFirst(q, e); } else { EnqueueMembers(q, e); }
    }
  }

  /** When `act` falls due it alone is run. */
  lemma RunsAlone(u: Unit, m: Machine, busy: int, act: Act, until: int, hands: seq<Event>, now: int)
    requires Poised(u, m, busy, act, until, hands) && act.when <= now < until && !act.what.Taken?
    requires (forall x | x in hands :: x.what.Taken?) && FollowsSoon(m, act.what, until - now)
    ensures Acted(RunDue(u, now), m, busy, act, until, hands, now)
  {
    hide Good, Altered, Labour, Enqueue, Fire, Acted;
    var v := Step(u, now);
    StepsAlone(u, m, busy, act, until, hands, now);
    ActedFresh(v, m, busy, act, until, hands, now, now);
    NothingDue(v, now);
    FireDue(Popped(u), u.events[0].what, now);
  }

  lemma ActedFresh(u: Unit, m: Machine, busy: int, act: Act, until: int, hands: seq<Event>, now: int, later: int)
    requires Acted(u, m, busy, act, until, hands, now) && later < until
    requires Follows(m, act.what).Next? ==> later < now + Follows(m, act.what).delay || now == later
    ensures Fresh(u, later)
  {
    hide Good, Altered, Labour;
    if Follows(m, act.what).Next? { FollowsLater(m, act.what); }
    if u.events != [] { assert u.events == [u.events[0]] + u.events[1..]; }
  }

  lemma SameActed(u: Unit, v: Unit, m: Machine, busy: int, act: Act, until: int, hands: seq<Event>, now: int)
    requires Acted(u, m, busy, act, until, hands, now) && Good(v) && v == u.(w := v.w) && v.w.blips == u.w.blips
    ensures Acted(v, m, busy, act, until, hands, now)
  {
    hide Good, Altered, Labour, Follows;
  }

  /** A poll in whose look `act` falls due. */
  lemma FiresAtLook(s: Sim, m: Machine, busy: int, act: Act, until: int, hands: seq<Event>)
    requires Poised(s.u, m, busy, act, until, hands) && act.when <= s.now + REPEAT_MS && s.now + LOOK_MS < until
    requires !act.what.Taken? && forall x | x in hands :: x.what.Taken?
    requires FollowsSoon(m, act.what, until - s.now - REPEAT_MS)
    requires Follows(m, act.what).Next? ==> POLL_MS < Follows(m, act.what).delay
    ensures Acted(Poll(s).u, m, busy, act, until, hands, s.now + REPEAT_MS) && Found(s).u.m == Altered(m, act.what)
  {
    hide Good, Altered, Labour, Poll, Acted, Fresh, RunDue, Ages, Follows;
    var f := Found(s);
    RunsAlone(s.u, m, busy, act, until, hands, f.now);
    ActedFresh(f.u, m, busy, act, until, hands, f.now, s.now + LOOK_MS);
    QuietRead(s);
    PoisedGood(s.u, m, busy, act, until, hands);
    PollPasses(s);
    SameActed(f.u, Poll(s).u, m, busy, act, until, hands, f.now);
    ActedMachine(f.u, m, busy, act, until, hands, f.now);
  }

  lemma PoisedGood(u: Unit, m: Machine, busy: int, act: Act, until: int, hands: seq<Event>)
    requires Poised(u, m, busy, act, until, hands)
    ensures Good(u)
  {
    hide Good;
  }

  lemma ActedMachine(u: Unit, m: Machine, busy: int, act: Act, until: int, hands: seq<Event>, now: int)
    requires Acted(u, m, busy, act, until, hands, now)
    ensures u.m == Altered(m, act.what)
  {
    hide Good, Altered, Labour, Follows;
  }

  /** One in whose read it does. */
  lemma FiresAtRead(s: Sim, m: Machine, busy: int, act: Act, until: int, hands: seq<Event>)
    requires Poised(s.u, m, busy, act, until, hands) && s.now + REPEAT_MS < act.when <= s.now + LOOK_MS < until
    requires !act.what.Taken? && forall x | x in hands :: x.what.Taken?
    requires FollowsSoon(m, act.what, until - s.now - LOOK_MS)
    ensures Found(s) == Sim(s.u, s.now + REPEAT_MS)
    ensures Acted(Poll(s).u, m, busy, act, until, hands, s.now + LOOK_MS)
  {
    hide Good, Altered, Labour, Acted, Fresh, RunDue, Ages, Receive, Follows;
    PoisedFresh(s.u, m, busy, act, until, hands, s.now + REPEAT_MS);
    NothingDue(s.u, s.now + REPEAT_MS);
    var f := Found(s);
    ReceiveStatus(f.u, f.now);
    PassiveAges(f.u, f.now, CMD_REQUEST_STATE, NO_ARGS);
    var v := Receive(f.u, f.now, CMD_REQUEST_STATE, NO_ARGS).u;
    AgesGood(f.u, v);
    ReadsOnce(Sim(v, f.now));
    RunsAlone(v, m, busy, act, until, hands, s.now + LOOK_MS);
  }

  // -- the hands -----------------------------------------------------------

  /** How long the move takes, from home to the first slot. */
  const MOVE_TAKES: nat := 2_673

  /** When the first of the hands reaches in, from then on: just after the accepted disc is in its slot. */
  const FIRST_MS: nat := 5_732

  lemma {:induction false} KnocksPlain(u: Unit, first: int, n: nat)
    ensures var v := Knocks(u, first, n);
            && v.m == u.m && v.w == u.w && v.busyUntil == u.busyUntil
            && Tally(v.events) == Tally(u.events).(takes := Tally(u.events).takes + n)
            && LastExpiry(v.events) == LastExpiry(u.events)
            && forall x | x in v.events :: x in u.events || (x.what.Taken? && first <= x.when)
  {
    hide Enqueue, Tally, LastExpiry;
    if n > 0 {
      var v, when := Knocks(u, first, n - 1), first + (n - 1) * KNOCK_MS;
      KnocksPlain(u, first, n - 1);
      var e := Event(when, v.seqno + 1, Taken);
      EnqueueMembers(v.events, e);
      EnqueueTally(v.events, e);
      EnqueueExpiry(v.events, e);
      LastExpiryNonNegative(v.events);
    }
  }

  /** A unit at rest at home, its bay and its first slot empty and nothing pending; no commands are lost. */
  ghost predicate Bare(s: Sim) {
    && Good(s.u) && s.u.events == [] && s.u.busyUntil <= s.now && 0 <= s.now && Load(s.u) == 0 && !s.u.w.blips
    && s.u.m.homed && s.u.m.position == HOME && SLOT_MIN !in s.u.m.occupied
  }

  function FirstHand(s: Sim): int { s.now + MOVE_TAKES + FIRST_MS }

  /** The same unit, with `n` hands to reach in, one every 972 ms. */
  function Beset(s: Sim, n: nat): Sim { Sim(Knocks(s.u, FirstHand(s), n), s.now) }

  /** `v` is `u` with `n` hands yet to reach in, the first no sooner than `first`. */
  ghost predicate Handed(u: Unit, v: Unit, first: int, n: nat) {
    && Good(v) && v.m == u.m && v.w == u.w && v.busyUntil == u.busyUntil
    && Tally(v.events) == Census(0, 0, 0, 0, 0, 0, 0, n) && LastExpiry(v.events) == 0
    && forall x | x in v.events :: x.what.Taken? && first <= x.when
  }

  lemma KnocksHanded(u: Unit, first: int, n: nat)
    requires Good(u) && u.events == []
    ensures Handed(u, Knocks(u, first, n), first, n)
  {
    hide Good, Knocks, Covers;
    KnocksPlain(u, first, n);
    KnocksCover(u, first, n);
  }

  lemma HandedCounts(s: Sim, v: Unit, n: nat)
    requires Bare(s) && Handed(s.u, v, FirstHand(s), n)
    ensures Tame(v) && Reaching(v) == n && !MouthTaken(v.m, Tally(v.events))
  {
    hide Good, LastExpiry;
  }

  lemma HandedSlots(s: Sim, v: Unit, n: nat)
    requires Bare(s) && Handed(s.u, v, FirstHand(s), n)
    ensures forall e | e in v.events :: SlotAgrees(v.m, e.what)
    ensures forall slot | Claimed(v, slot) :: slot in s.u.m.occupied
  {
    hide Good, LastExpiry, Tally;
  }

  /** It is in good order all the same. */
  lemma HandedReady(s: Sim, v: Unit, n: nat)
    requires Bare(s) && Handed(s.u, v, FirstHand(s), n)
    ensures Between(Sim(v, s.now)) && Reaching(v) == n
    ensures Fitting(v) && forall slot | Claimed(v, slot) :: slot in s.u.m.occupied
  {
    hide Good, Tally, LastExpiry, Tame, NoMotion, Load, Claimed, SlotAgrees, MouthTaken;
    HandedCounts(s, v, n);
    HandedSlots(s, v, n);
  }

  // -- poll by poll --------------------------------------------------------

  ghost predicate AllHands(hands: seq<Event>) { forall x | x in hands :: x.what.Taken? }

  lemma HandedPauses(s: Sim, v: Unit, n: nat)
    requires Bare(s) && Handed(s.u, v, FirstHand(s), n)
    ensures Pausing(v, s.u.m, s.u.busyUntil, FirstHand(s), v.events) && AllHands(v.events)
  {
    hide Good, Tally, LastExpiry;
  }

  lemma PausingPoll(p: Sim, m: Machine, busy: int, until: int, hands: seq<Event>)
    requires Pausing(p.u, m, busy, until, hands) && p.now + LOOK_MS < until
    ensures Found(p).u.m == m && Poll(p).now == p.now + LOOK_MS && Pausing(Poll(p).u, m, busy, until, hands)
  {
    hide Good, Poll, Found, Ages, Fresh;
    PausingFresh(p.u, m, busy, until, hands, p.now + LOOK_MS);
    UndisturbedPoll(p);
    PollPasses(p);
  }

  lemma PausingFresh(u: Unit, m: Machine, busy: int, until: int, hands: seq<Event>, now: int)
    requires Pausing(u, m, busy, until, hands) && now < until
    ensures Fresh(u, now)
  {
    hide Good;
  }

  // -- the move ------------------------------------------------------------

  /** Idle, its bay empty and homed: 729 ms of asking, and the move may begin. */
  lemma MoveBegins(k: Sim, m: Machine, busy: int, until: int, hands: seq<Event>)
    requires Pausing(k.u, m, busy, until, hands) && busy <= k.now && k.now + 729 < until && !m.discInBay && m.homed
    ensures ClearRun(k).r.Ok? && HomeRun(ClearRun(k).s).r.Ok?
    ensures var h := HomeRun(ClearRun(k).s).s; h.now == k.now + 729 && Pausing(h.u, m, busy, until, hands)
  {
    hide Good, Pausing, Poll, Sample, Found, WaitRun, Shows;
    PausingIdle(k, m, busy, until, hands, k.now + SETTLE_WAIT_MS);
    var p := Poll(k);
    PausingPoll(p, m, busy, until, hands);
    BaySample(p);
    PausingPoll(Poll(p), m, busy, until, hands);
    HomedSample(Poll(p));
  }

  lemma HomedSample(s: Sim)
    ensures Shows(Sample(s), ST_HOMED, 0) <==> !Found(s).u.m.homed
  {
    hide Found, StatusWord;
    MasksDecode(Found(s).u, Found(s).now);
    SampleIs(s);
  }

  /** The move is heard at once. */
  lemma MoveHeardAtOnce(h: Sim, m: Machine, busy: int, until: int, hands: seq<Event>)
    requires Pausing(h.u, m, busy, until, hands) && busy <= h.now && h.now + 1_699 < until
    requires !m.discInBay && !m.newDiscAck && m.homed && m.position == HOME
    ensures var e := RequireRun(h, CMD_SET_POS, MoveArgs(SLOT_MIN, false), TRIES);
            && e.reply.Some? && e.s.now == h.now + 243
            && Poised(e.s.u, m.(ackTimeout := false, retracted := false), h.now + 1_699,
                      Act(h.now + 1_699, Arrived(SLOT_MIN, false)), until, hands)
  {
    hide Good, Perform, RunDue, Receive, Tally, Outlook, Foreseen, Load;
    var f, args := Found(h), MoveArgs(SLOT_MIN, false);
    NothingDue(h.u, h.now + REPEAT_MS);
    MoveIfIdle(f.u, f.now, args);
    PatientLoad(f.u, m, busy, until, hands);
    MoveHeard(f, args);
    MoveQueues(f.u, f.now, until, hands);
    var v := Receive(f.u, f.now, CMD_SET_POS, args).u;
    ReadsOnce(Sim(v, f.now));
    NothingDue(v, f.now + POLL_MS);
  }

  lemma MoveIfIdle(u: Unit, now: int, args: Args)
    requires !Busy(u, now) && !u.w.blips && u.m.homed
    ensures var r := Receive(u, now, CMD_SET_POS, args);
            r == Perform(Listening(u, CMD_SET_POS, args), now, CMD_SET_POS, args) && r.reply.Some?
  {
    hide Perform;
    PerformReplies(Listening(u, CMD_SET_POS, args), now, CMD_SET_POS, args);
  }

  lemma MoveQueues(u: Unit, now: int, until: int, hands: seq<Event>)
    requires u.m.position == HOME && u.busyUntil <= now && now + 1_556 < until
    requires (forall x | x in u.events :: until <= x.when) && forall x | x in hands :: x in u.events
    ensures var args := MoveArgs(SLOT_MIN, false);
            var v := Perform(Listening(u, CMD_SET_POS, args), now, CMD_SET_POS, args).u;
            && v.m == u.m.(ackTimeout := false, retracted := false) && v.busyUntil == now + 1_556
            && v.w.blips == u.w.blips
            && v.events == [Event(now + 1_556, u.seqno + 1, Arrived(SLOT_MIN, false))] + u.events
  {
    hide Enqueue, StatusReply;
    EnqueueFirst(u.events, Event(now + 1_556, u.seqno + 1, Arrived(SLOT_MIN, false)));
  }

  /** Hands and timers move nothing. */
  lemma {:induction false} PatientCounts(q: seq<Event>)
    requires forall x | x in q :: Patient(x.what)
    ensures Moving(Tally(q)) == 0 && Tally(q).arrives == 0 && Tally(q).drawn == 0
  {
    hide One;
    if q != [] {
      TallyHead(q);
      assert q[0] in q && forall x | x in q[1..] :: x in q;
      PatientCount(q[0].what);
      PatientCounts(q[1..]);
    }
  }

  lemma PatientCount(h: Happening)
    requires Patient(h)
    ensures Moving(One(h)) == 0 && One(h).arrives == 0 && One(h).drawn == 0
  {
  }

  lemma PatientLoad(u: Unit, m: Machine, busy: int, until: int, hands: seq<Event>)
    requires Pausing(u, m, busy, until, hands) && !m.discInBay && !m.newDiscAck
    ensures Load(u) == 0 && NoMotion(u)
  {
    hide Good, Tally, Patient;
    PatientCounts(u.events);
  }

  /** And seen to end at the look 1,844 ms later. */
  lemma MoveEndsInTime(h: Sim, m: Machine, busy: int, until: int, hands: seq<Event>)
    requires Pausing(h.u, m, busy, until, hands) && busy <= h.now && h.now + 1_944 < until && AllHands(hands)
    requires !m.discInBay && !m.newDiscAck && m.homed && m.position == HOME
    ensures var t := TurnRun(h, MoveArgs(SLOT_MIN, false));
            && t.r.Ok? && t.s.now == h.now + 1_944
            && Pausing(t.s.u, Turned(m), h.now + 1_699, until, hands)
  {
    hide Good, Poll, Polls, WaitRun, RequireRun, Sample, Found, Poised, Pausing, Acted, Altered;
    MoveHeardAtOnce(h, m, busy, until, hands);
    var e := RequireRun(h, CMD_SET_POS, MoveArgs(SLOT_MIN, false), TRIES).s;
    var n, act := m.(ackTimeout := false, retracted := false), Act(h.now + 1_699, Arrived(SLOT_MIN, false));
    var deadline := e.now + SETTLE_WAIT_MS;
    PoisedPolls(e, 5, n, h.now + 1_699, act, until, hands, deadline);
    var p := Polls(e, 5);
    FiresAtRead(p, n, h.now + 1_699, act, until, hands);
    PollTakes(p);
    PoisedBusy(p, n, h.now + 1_699, act, until, hands);
    WaitStep(p, ST_BUSY, 0, deadline);
    ArrivedActed(Poll(p), n, h.now + 1_699, until, hands);
    PausingIdle(Poll(p), Turned(m), h.now + 1_699, until, hands, deadline);
  }

  /** The machine with its first slot turned to the mouth. */
  function Turned(m: Machine): Machine {
    Altered(m.(ackTimeout := false, retracted := false), Arrived(SLOT_MIN, false))
  }

  lemma ArrivedActed(q: Sim, n: Machine, busy: int, until: int, hands: seq<Event>)
    requires Acted(q.u, n, busy, Act(busy, Arrived(SLOT_MIN, false)), until, hands, q.now)
    ensures Pausing(q.u, Altered(n, Arrived(SLOT_MIN, false)), busy, until, hands)
  {
    hide Good, Altered, Pausing, Poised;
  }

  // -- the load ------------------------------------------------------------

  /** A disc is fed at once. */
  lemma FedAtOnce(t: Sim, m: Machine, busy: int, until: int, hands: seq<Event>)
    requires Pausing(t.u, m, busy, until, hands) && !m.discInBay && !m.newDiscAck && t.now < until
    ensures Poised(At(t.u, t.now, DiscArrives), m, busy, Act(t.now, DiscArrives), until, hands)
  {
    hide Good, Enqueue, Tally, Load, NoMotion;
    PatientLoad(t.u, m, busy, until, hands);
    FeedGood(t.u, t.now);
    var e := Event(t.now, t.u.seqno + 1, DiscArrives);
    EnqueueFirst(t.u.events, e);
    assert ([e] + t.u.events)[1..] == t.u.events;
  }

  /** The first look sees it at the aperture. */
  lemma SeenArrived(i: Sim, m: Machine, busy: int, hands: seq<Event>)
    requires Poised(i.u, m, busy, Act(i.now, DiscArrives), i.now + FIRST_MS, hands) && busy <= i.now && AllHands(hands)
    ensures WaitRun(i, ST_DISC_WAITING, ST_DISC_WAITING, i.now + INSERT_WINDOW_MS) == Watch(Poll(i), true)
    ensures Poll(i).now == i.now + 243
    ensures Poised(Poll(i).u, Altered(m, DiscArrives), i.now + 1_643, Act(i.now + 1_643, DrawnOff), i.now + FIRST_MS,
                   hands)
  {
    hide Good, Poll, Found, StatusWord, Sample, Shows;
    FiresAtLook(i, m, busy, Act(i.now, DiscArrives), i.now + FIRST_MS, hands);
    PollTakes(i);
    MasksDecode(Found(i).u, Found(i).now);
    SampleIs(i);
    WaitStep(i, ST_DISC_WAITING, ST_DISC_WAITING, i.now + INSERT_WINDOW_MS);
    ApertureShows(i);
  }

  lemma ApertureShows(s: Sim)
    ensures Shows(Sample(s), ST_DISC_WAITING, ST_DISC_WAITING) <==> Found(s).u.m.discWaiting
  {
    hide Found, StatusWord;
    MasksDecode(Found(s).u, Found(s).now);
    SampleIs(s);
  }

  lemma PoisedPolls(s: Sim, n: nat, m: Machine, busy: int, act: Act, until: int, hands: seq<Event>, deadline: int)
    requires Poised(s.u, m, busy, act, until, hands) && s.now + LOOK_MS * n < act.when
    requires n > 0 ==> s.now + REPEAT_MS + LOOK_MS * (n - 1) < busy
    requires s.now + LOOK_MS * n < deadline
    ensures WaitRun(s, ST_BUSY, 0, deadline) == WaitRun(Polls(s, n), ST_BUSY, 0, deadline)
    ensures Poised(Polls(s, n).u, m, busy, act, until, hands) && Polls(s, n).now == s.now + LOOK_MS * n
  {
    hide Good, WaitRun, Polls, Fresh;
    PoisedFresh(s.u, m, busy, act, until, hands, s.now + LOOK_MS * n);
    LooksInVain(s, n, deadline);
    PollsGood(s, n);
  }

  lemma PausingPolls(s: Sim, n: nat, m: Machine, busy: int, until: int, hands: seq<Event>, deadline: int)
    requires Pausing(s.u, m, busy, until, hands) && s.now + LOOK_MS * n < until
    requires n > 0 ==> s.now + REPEAT_MS + LOOK_MS * (n - 1) < busy
    requires s.now + LOOK_MS * n < deadline
    ensures WaitRun(s, ST_BUSY, 0, deadline) == WaitRun(Polls(s, n), ST_BUSY, 0, deadline)
    ensures Pausing(Polls(s, n).u, m, busy, until, hands) && Polls(s, n).now == s.now + LOOK_MS * n
  {
    hide Good, WaitRun, Polls;
    LooksInVain(s, n, deadline);
    PollsGood(s, n);
  }

  lemma {:induction false} PollsGood(s: Sim, n: nat)
    requires Good(s.u)
    ensures Good(Polls(s, n).u)
    decreases n
  {
    hide Good, Poll, Ages, Fresh;
    if n > 0 {
      PollPasses(s);
      PollsGood(Poll(s), n - 1);
    }
  }

  /** Drawn in at the read 1,701 ms after it was fed; idle at the look 3,545 ms after. */
  lemma DrawnThenIdle(seen: Sim, base: int, m: Machine, hands: seq<Event>)
    requires Poised(seen.u, m, base + 1_643, Act(base + 1_643, DrawnOff), base + FIRST_MS, hands)
    requires seen.now == base + 243 && AllHands(hands)
    ensures var w := IdleRun(seen, SETTLE_WAIT_MS);
            w.ok && w.s.now == base + 3_645
            && Pausing(w.s.u, Altered(m, DrawnOff), base + 3_501, base + FIRST_MS, hands)
  {
    hide Good, Poll, Polls, WaitRun, Sample, Found, Poised, Pausing, Acted, Altered;
    var deadline, act := seen.now + SETTLE_WAIT_MS, Act(base + 1_643, DrawnOff);
    PoisedPolls(seen, 5, m, base + 1_643, act, base + FIRST_MS, hands, deadline);
    var p := Polls(seen, 5);
    FiresAtRead(p, m, base + 1_643, act, base + FIRST_MS, hands);
    PollTakes(p);
    PoisedBusy(p, m, base + 1_643, act, base + FIRST_MS, hands);
    WaitStep(p, ST_BUSY, 0, deadline);
    var q := Poll(p);
    DrawnOffActed(q, base, m, hands);
    PausingPolls(q, 7, Altered(m, DrawnOff), base + 3_501, base + FIRST_MS, hands, deadline);
    PausingIdle(Polls(q, 7), Altered(m, DrawnOff), base + 3_501, base + FIRST_MS, hands, deadline);
  }

  lemma PoisedBusy(p: Sim, m: Machine, busy: int, act: Act, until: int, hands: seq<Event>)
    requires Poised(p.u, m, busy, act, until, hands) && Found(p) == Sim(p.u, p.now + REPEAT_MS)
             && p.now + REPEAT_MS < busy
    ensures !Shows(Sample(p), ST_BUSY, 0)
  {
    hide Good, Sample, Found;
    BusySample(p);
  }

  lemma DrawnOffActed(q: Sim, base: int, m: Machine, hands: seq<Event>)
    requires q.now == base + 1_701
    requires Acted(q.u, m, base + 1_643, Act(base + 1_643, DrawnOff), base + FIRST_MS, hands, q.now)
    ensures Pausing(q.u, Altered(m, DrawnOff), base + 3_501, base + FIRST_MS, hands)
  {
    hide Good, Altered, Pausing, Poised;
  }

  lemma PausingIdle(p: Sim, m: Machine, busy: int, until: int, hands: seq<Event>, deadline: int)
    requires Pausing(p.u, m, busy, until, hands) && busy <= p.now + REPEAT_MS && p.now + LOOK_MS < until
    ensures WaitRun(p, ST_BUSY, 0, deadline) == Watch(Poll(p), true)
    ensures Poll(p).now == p.now + LOOK_MS && Pausing(Poll(p).u, m, busy, until, hands)
  {
    hide Good, Poll, Sample, Found, Ages;
    UndisturbedPoll(p);
    BusySample(p);
    WaitStep(p, ST_BUSY, 0, deadline);
    PollPasses(p);
  }

  /** The accept is heard at once, and the disc on its way into the slot. */
  lemma AcceptedAtOnce(w: Sim, base: int, m: Machine, hands: seq<Event>)
    requires Pausing(w.u, m, base + 3_501, base + FIRST_MS, hands) && w.now == base + 3_645 && m.newDiscAck
    ensures var e := RequireRun(w, CMD_ACCEPT_DISC, NO_ARGS, TRIES);
            && e.reply.Some? && e.s.now == base + 3_888 && e.s.u.busyUntil == base + 5_588 && Good(e.s.u)
            && Stowed(e.s.u, m.position) && Shut(e.s.u) && forall x | x in hands :: x in e.s.u.events
  {
    hide Good, Perform, RunDue, Receive, Tally, Outlook, Foreseen;
    var f := Found(w);
    NothingDue(w.u, w.now + REPEAT_MS);
    HeardIfIdle(f.u, f.now);
    AcceptQueues(f.u, f.now);
    AcceptHeard(f, NO_ARGS);
    var v := Receive(f.u, f.now, CMD_ACCEPT_DISC, NO_ARGS).u;
    ReadsOnce(Sim(v, f.now));
    NothingDue(v, f.now + POLL_MS);
    assert Event(f.now + INGEST_MS, f.u.seqno + 1, Stored(m.position)) in v.events;
    StoringShut(v, m.position, Tally(f.u.events));
  }

  lemma HeardIfIdle(u: Unit, now: int)
    requires !Busy(u, now) && !u.w.blips
    ensures var r := Receive(u, now, CMD_ACCEPT_DISC, NO_ARGS);
            r == Perform(Listening(u, CMD_ACCEPT_DISC, NO_ARGS), now, CMD_ACCEPT_DISC, NO_ARGS) && r.reply.Some?
  {
    hide Perform;
    PerformReplies(Listening(u, CMD_ACCEPT_DISC, NO_ARGS), now, CMD_ACCEPT_DISC, NO_ARGS);
  }

  lemma AcceptQueues(u: Unit, now: int)
    requires u.m.newDiscAck
    ensures var v := Perform(Listening(u, CMD_ACCEPT_DISC, NO_ARGS), now, CMD_ACCEPT_DISC, NO_ARGS).u;
            forall x :: x in v.events
              <==> x in u.events || x == Event(now + INGEST_MS, u.seqno + 1, Stored(u.m.position))
  {
    hide Enqueue, StatusReply;
    EnqueueMembers(u.events, Event(now + INGEST_MS, u.seqno + 1, Stored(u.m.position)));
  }

  /** From then on hands hide the unit from every look, until the job gives up. */
  lemma NeverSeenIdle(e: Sim, u: Unit, base: int, n: nat)
    requires n > MOST_HANDS && Good(u) && u.busyUntil <= base && e.now == base + 3_888 && e.u.busyUntil == base + 5_588
             && Good(e.u)
    requires forall x | x in Knocks(u, base + FIRST_MS, n).events :: x in e.u.events
    ensures !IdleRun(e, SETTLE_WAIT_MS).ok
  {
    hide Good, WaitRun, Knocks, Covers, Reaching;
    var v := Knocks(u, base + FIRST_MS, n);
    KnocksCover(u, base + FIRST_MS, n);
    forall k: nat | k < 124 ensures Covers(e.u, Look(e.now, k)) {
      if k < 7 {
        WindowCovers(e.u, Look(e.now, k));
      } else {
        assert Look(e.now, k) == base + FIRST_MS + LOOK_MS * (k - 7);
        HandsCover(v, e.u, Look(e.now, k));
      }
    }
    KnockedNeverIdle(e, 124, e.now + SETTLE_WAIT_MS);
  }

  lemma WindowCovers(u: Unit, x: int)
    requires x < u.busyUntil
    ensures Covers(u, x)
  {
  }

  lemma HandsCover(v: Unit, u: Unit, x: int)
    requires Covers(v, x) && v.busyUntil <= x && forall e | e in v.events :: e in u.events
    ensures Covers(u, x)
  {
  }

  /** A slot stowed is claimed at the end of any wait. */
  lemma StaysClaimed(e: Sim, slot: Byte, mask: bv16, want: bv16, deadline: int)
    requires Good(e.u) && Shut(e.u) && Stowed(e.u, slot)
    ensures Claimed(WaitRun(e, mask, want, deadline).s.u, slot)
  {
    hide Good, WaitRun, Stowed, Claimed, Shut, Fresh, Accounted, Outlook, Load, Tame, NoMotion, LastExpiry, Reaching,
         OnlyTalked, Drops;
    var t := WaitRun(e, mask, want, deadline).s;
    WaitPasses(e, mask, want, deadline);
    StowedClaims(t.u, slot);
  }

  /** With a disc on its way in nothing is on its way out. */
  lemma StoringShut(u: Unit, slot: Byte, c: Census)
    requires Good(u) && Tally(u.events) == Plus(One(Stored(slot)), c)
    ensures Shut(u)
  {
    hide Tally, Queued, Covered, NeverTurnedLoaded;
  }

  // -- all together --------------------------------------------------------

  lemma BesetHanded(s: Sim, n: nat)
    requires Bare(s)
    ensures Handed(s.u, Beset(s, n).u, FirstHand(s), n)
  {
    hide Handed, Good, Knocks;
    BareParts(s);
    KnocksHanded(s.u, FirstHand(s), n);
  }

  lemma BareParts(s: Sim)
    requires Bare(s)
    ensures Good(s.u) && s.u.events == [] && s.u.busyUntil <= s.now
    ensures s.u.m.homed && s.u.m.position == HOME && !s.u.m.discInBay && !s.u.m.newDiscAck
  {
    hide Good, Tally;
  }

  lemma TurnedParts(m: Machine)
    ensures Turned(m).position == SLOT_MIN && Turned(m).discInBay == m.discInBay && Turned(m).newDiscAck == m.newDiscAck
  {
  }

  lemma DrawnIn(m: Machine)
    ensures var n := Altered(Altered(m, DiscArrives), DrawnOff); n.newDiscAck && n.position == m.position
  {
  }

  /** From the disc at the aperture on. */
  lemma FedForsaken(s: Sim, t: Sim, m: Machine, busy: int, hands: seq<Event>, n: nat)
    requires Pausing(t.u, m, busy, t.now + FIRST_MS, hands) && busy <= t.now && !m.discInBay && !m.newDiscAck
    requires Good(s.u) && s.u.busyUntil <= t.now && AllHands(hands)
    requires n > MOST_HANDS && hands == Knocks(s.u, t.now + FIRST_MS, n).events
    ensures InsertRun(t, Some(0)).ok && Forsaken(InsertRun(t, Some(0)).s, m.position)
  {
    hide Good, Knocks, Poised, Pausing, Altered, WaitRun, RequireRun, AllHands, Stowed, Claimed, Poll, Enqueue, Shut;
    var i, base := Sim(At(t.u, t.now, DiscArrives), t.now), t.now;
    FedAtOnce(t, m, busy, base + FIRST_MS, hands);
    SeenArrived(i, m, busy, hands);
    DrawnThenIdle(Poll(i), base, Altered(m, DiscArrives), hands);
    var w := IdleRun(Poll(i), SETTLE_WAIT_MS);
    DrawnIn(m);
    AcceptedAtOnce(w.s, base, Altered(Altered(m, DiscArrives), DrawnOff), hands);
    var e := RequireRun(w.s, CMD_ACCEPT_DISC, NO_ARGS, TRIES);
    NeverSeenIdle(e.s, s.u, base, n);
    StaysClaimed(e.s, m.position, ST_BUSY, 0, e.s.now + SETTLE_WAIT_MS);
  }

  /** A load of the first slot, its disc fed at once, slips: acknowledged and stored, and given up on. */
  lemma HandsMakeItSlip(s: Sim, n: nat)
    requires Bare(s) && n > MOST_HANDS
    ensures LoadSlips(Beset(s, n), SLOT_MIN, Some(0))
  {
    hide Bare, Handed, Good, Knocks, Pausing, Turned, ClearRun, HomeRun, TurnRun, InsertRun, Forsaken, AllHands;
    var k, until := Beset(s, n), FirstHand(s);
    var hands := k.u.events;
    BareParts(s);
    BesetHanded(s, n);
    HandedPauses(s, k.u, n);
    MoveBegins(k, s.u.m, s.u.busyUntil, until, hands);
    var h := HomeRun(ClearRun(k).s).s;
    MoveEndsInTime(h, s.u.m, s.u.busyUntil, until, hands);
    TurnedParts(s.u.m);
    FedForsaken(s, TurnRun(h, MoveArgs(SLOT_MIN, false)).s, Turned(s.u.m), h.now + 1_699, hands, n);
  }

  /**
   A load that slips with `n` hands yet to reach in, though the catalogue holds of
   the unit all that a load may ask of it.
   */
  ghost predicate SlipsWith(rows: C.Rows, k: Sim, order: S.Order, n: nat) {
    && S.Accepted(rows, order) && S.FedWhenAsked(order) && S.Slips(rows, k, order)
    && Between(k) && Fitting(k.u) && S.Tucked(rows, k) && Reaching(k.u) == n
  }

  lemma BesetSlips(s: Sim, rows: C.Rows, n: nat)
    requires Bare(s) && C.StoredSlots(rows) == s.u.m.occupied && SLOT_MIN !in C.Slots(rows) && n > MOST_HANDS
    ensures SlipsWith(rows, Beset(s, n), S.Add(SLOT_MIN, Some(0)), n)
  {
    hide Bare, Handed, Good, Knocks, LoadSlips, Between, Fitting, Claimed, Reaching, C.StoredSlots, C.Slots;
    HandsMakeItSlip(s, n);
    BesetHanded(s, n);
    HandedReady(s, Beset(s, n).u, n);
  }

  /** An empty carousel just switched on, that loses no commands. */
  function NewUnit(): Sim {
    Sim(Unit(Machine({}, 0, false, false, false, false, false, false, false, 0, 0), 0, true, [], 0,
             Wire(0, false, [], [], [])), 0)
  }

  /** And once sent home. */
  function AtHome(): Sim { Course(NewUnit(), [Hear(CMD_SET_POS, NO_ARGS), Wait(SEEK_BASE_MS)]) }

  lemma SentHome(u: Unit)
    requires u == NewUnit().u
    ensures var v := Handle(u, 0, CMD_SET_POS, NO_ARGS).u;
            && v.m == u.m && v.busyUntil == 1_500 && v.events == [Event(1_500, 1, Arrived(0, false))] && !v.w.blips
  {
    hide StatusReply, Enqueue;
    NothingDue(u, 0);
    EnqueueFirst([], Event(1_500, 1, Arrived(0, false)));
  }

  lemma HomeIsBare()
    ensures Bare(AtHome()) && AtHome().u.m.occupied == {}
  {
    hide Good, Tally, Handle, RunDue, Load;
    var s := NewUnit();
    var h := Do(s, Hear(CMD_SET_POS, NO_ARGS));
    S.NewUnitGood(s.u.m, s.u.w);
    SentHome(s.u);
    HearsHome(s);
    ArrivesHome(h);
    assert Course(h, [Wait(SEEK_BASE_MS)]) == Do(h, Wait(SEEK_BASE_MS));
    assert AtHome() == Do(h, Wait(SEEK_BASE_MS));
  }

  lemma HearsHome(s: Sim)
    requires s == NewUnit() && Good(s.u)
    ensures Good(Do(s, Hear(CMD_SET_POS, NO_ARGS)).u)
  {
    hide Good, Receive, RunDue;
    NothingDue(s.u, 0);
    DoGood(s, Hear(CMD_SET_POS, NO_ARGS));
  }

  lemma ArrivesHome(h: Sim)
    requires Good(h.u) && h.u.m == NewUnit().u.m && h.u.busyUntil == 1_500 && !h.u.w.blips && h.now == 0
    requires h.u.events == [Event(1_500, 1, Arrived(0, false))]
    ensures var t := Do(h, Wait(SEEK_BASE_MS)); Bare(t) && t.u.m.occupied == {}
  {
    hide Good, Bare, Step, Accounted, RunDue, Load, Tally, Enqueue, DueCount;
    var v := Step(h.u, SEEK_BASE_MS);
    StepState(h.u, SEEK_BASE_MS);
    StepEvents(h.u, SEEK_BASE_MS);
    StepGood(h.u, SEEK_BASE_MS);
    RunsOne(h.u, SEEK_BASE_MS);
    RestsBare(Sim(v, SEEK_BASE_MS));
  }

  lemma RunsOne(u: Unit, now: int)
    requires |u.events| == 1 && u.events[0].when <= now && Step(u, now).events == []
    ensures RunDue(u, now) == Step(u, now)
  {
    hide Fire;
    NothingDue(Step(u, now), now);
    FireDue(Popped(u), u.events[0].what, now);
  }

  lemma RestsBare(t: Sim)
    requires Good(t.u) && t.u.events == [] && t.u.busyUntil <= t.now && 0 <= t.now && !t.u.w.blips
    requires t.u.m.homed && t.u.m.position == HOME && t.u.m.occupied == {} && !t.u.m.discInBay && !t.u.m.newDiscAck
    ensures Bare(t)
  {
    hide Good;
  }

  /** A load can slip with so many hands yet to reach in if and only if they are more than `MOST_HANDS`. */
  lemma HandsThatSlip(n: nat)
    ensures (exists rows, k, order :: SlipsWith(rows, k, order, n)) <==> n > MOST_HANDS
  {
    hide Bare, LoadSlips, Between, Fitting, Reaching, C.StoredSlots, C.Slots, Beset;
    if n > MOST_HANDS {
      var rows: C.Rows := map[];
      HomeIsBare();
      NothingStored(rows);
      BesetSlips(AtHome(), rows, n);
    } else if rows, k, order :| SlipsWith(rows, k, order, n) {
      S.SlipsAreLoads(rows, k, order);
      FewHandsNeverSlip(k, S.SlotOf(rows, order), order.insert);
    }
  }

  lemma NothingStored(rows: C.Rows)
    requires rows == map[]
    ensures C.StoredSlots(rows) == {} == C.Slots(rows)
  {
  }
}
