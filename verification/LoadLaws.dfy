/**
 A disc on its way in: seen at the aperture, drawn off it, and then either
 accepted before its window closes or spat back into the bay. Hands may be
 emptying the bay at any time meanwhile.
 */
module LoadLaws {
  import opened Wrappers
  import opened Firmware
  import opened FirmwareLaws
  import opened CommandLaws
  import opened Runs
  import opened Motions
  import opened MoveLaws
  import opened Hands
  import opened Sensors

  // -- the one closure that matters ----------------------------------------

  datatype Act = Act(when: int, what: Happening)

  predicate Idle(h: Happening) { h.Settled? || h.Taken? }

  /** What is pending besides cosmetic closures and hands. */
  function Acts(q: seq<Event>): seq<Act> {
    if q == [] then []
    else if Idle(q[0].what) then Acts(q[1..])
    else [Act(q[0].when, q[0].what)] + Acts(q[1..])
  }

  lemma {:induction false} EnqueueActs(q: seq<Event>, e: Event)
    requires Idle(e.what) || Acts(q) == []
    ensures Acts(Enqueue(q, e)) == if Idle(e.what) then Acts(q) else [Act(e.when, e.what)]
  {
    if q == [] || Before(e, q[0]) {
      assert ([e] + q)[1..] == q;
    } else {
      EnqueueActs(q[1..], e);
      assert ([q[0]] + Enqueue(q[1..], e))[1..] == Enqueue(q[1..], e);
    }
  }

  lemma {:induction false} ActsMember(q: seq<Event>)
    requires Acts(q) != []
    ensures exists e :: e in q && e.when == Acts(q)[0].when && e.what == Acts(q)[0].what
  {
    if Idle(q[0].what) {
      ActsMember(q[1..]);
      assert q == [q[0]] + q[1..];
    } else {
      assert q[0] in q;
    }
  }

  /** Same unit, give or take a hand at its empty bay and the cosmetic flag. */
  ghost predicate Alike(u: Unit, v: Unit) {
    && v.m == u.m.(retracted := v.m.retracted, ackTimeout := v.m.ackTimeout)
    && Acts(v.events) == Acts(u.events)
    && v.w == u.w
    && u.busyUntil <= v.busyUntil
    && (NoHands(u) ==> NoHands(v) && v.busyUntil == u.busyUntil)
  }

  lemma StepAlike(u: Unit, now: int)
    requires u.events != [] && Queued(u) && !u.m.discInBay && Idle(u.events[0].what)
    ensures Alike(u, Step(u, now)) && Queued(Step(u, now)) && !Step(u, now).m.discInBay
  {
    hide Tally, One, Plus;
    StepStepped(u, now);
    TallyHead(u.events);
    TakesOf(u.events[0].what, Tally(u.events[1..]));
  }

  lemma TakesOf(h: Happening, c: Census)
    ensures Plus(One(h), c).takes == c.takes + if h.Taken? then 1 else 0
  {
    match h
    case Arrived(_, presenting) => case _ =>
  }

  lemma AlikeTransitive(u: Unit, v: Unit, w: Unit)
    requires Alike(u, v) && Alike(v, w)
    ensures Alike(u, w)
  {
    hide Acts, NoHands;
  }

  /** While the one act is still to come, nothing else changes the unit. */
  lemma {:induction false} RunDueAlike(u: Unit, now: int)
    requires Queued(u) && !u.m.discInBay && (Acts(u.events) == [] || now < Acts(u.events)[0].when)
    ensures Alike(u, RunDue(u, now))
    decreases DueCount(u.events, now)
  {
    hide Tally, Queued, Fire;
    if u.events != [] && u.events[0].when <= now {
      StepAlike(u, now);
      FireDue(Popped(u), u.events[0].what, now);
      RunDueAlike(Step(u, now), now);
      AlikeTransitive(u, Step(u, now), RunDue(u, now));
    }
  }

  lemma HeadDue(q: seq<Event>, now: int)
    requires Sorted(q) && Acts(q) != [] && Acts(q)[0].when <= now
    ensures q != [] && q[0].when <= now
  {
    ActsMember(q);
    var e :| e in q && e.when == Acts(q)[0].when;
    assert q == [q[0]] + q[1..];
  }

  /** When the act falls due, it runs next after the hands before it. */
  lemma {:induction false} RunDueReaches(u: Unit, now: int) returns (w: Unit)
    requires Good(u) && !u.m.discInBay && Acts(u.events) != [] && Acts(u.events)[0].when <= now
    ensures Good(w) && Alike(u, w) && w.events != [] && !Idle(w.events[0].what) && w.events[0].when <= now
    ensures RunDue(u, now) == RunDue(Step(w, now), now)
    decreases DueCount(u.events, now)
  {
    hide Good, Fire, Idle, NoHands, Acts;
    GoodQueue(u);
    HeadDue(u.events, now);
    if Idle(u.events[0].what) {
      StepAlike(u, now);
      StepGood(u, now);
      FireDue(Popped(u), u.events[0].what, now);
      w := RunDueReaches(Step(u, now), now);
      AlikeTransitive(u, Step(u, now), w);
    } else {
      w := u;
    }
  }

  // -- how far the disc has got --------------------------------------------

  /**
   A disc fed to a resting unit: to reach the aperture at `arrival`; seen there,
   to be drawn off it at `drawn`; or drawn in, to be put back out at `expiry`,
   the unit busy no later than `busy` if no hands are about.
   */
  datatype Stage = Awaited(arrival: int) | Seen(drawn: int) | Drawn(expiry: int, busy: int)

  /** The stage once everything due at `now` has run. */
  function Later(g: Stage, now: int): Stage {
    match g
    case Awaited(e) => if e <= now then Seen(now + APERTURE_MS) else g
    case Seen(b) => if b <= now then Drawn(now + SETTLE_MS + ACK_WINDOW_MS, now + SETTLE_MS) else g
    case Drawn(_, _) => g
  }

  /**
   Never acknowledged, the disc is out again and the error latched: in the bay, unless
   a hand has taken it since. `lone` says that no hands have been about from the start.
   */
  ghost predicate Spat(u: Unit, now: int, c: Core, lone: bool) {
    && Good(u) && Tame(u) && NoMotion(u) && LastExpiry(u.events) <= now && u.m.ackTimeout
    && (lone ==> Calm(u) && Outlook(u) == c.(bay := true) && u.busyUntil <= now + BAY_MS)
  }

  ghost predicate Pending(u: Unit, c: Core, act: Act, waiting: bool, ack: bool) {
    && CoreOf(u.m) == c && !c.bay
    && u.m.discWaiting == waiting && u.m.newDiscAck == ack
    && Acts(u.events) == [act]
  }

  /** The unit has come to rest with core `c`, but for a disc that has got as far as `g`. */
  ghost predicate In(s: Sim, c: Core, g: Stage, lone: bool) {
    && Good(s.u) && 0 <= s.now && (!g.Awaited? ==> Fresh(s.u, s.now)) && (lone ==> NoHands(s.u))
    && match g
       case Awaited(e) =>
         Pending(s.u, c, Act(e, DiscArrives), false, false) && s.now <= e && (lone ==> s.u.busyUntil <= s.now)
       case Seen(b) =>
         Pending(s.u, c, Act(b, DrawnOff), true, false) && (lone ==> s.u.busyUntil <= b)
       case Drawn(x, z) =>
         if x <= s.now then Spat(s.u, s.now, c, lone)
         else
           && Pending(s.u, c, Act(x, AckExpired), false, true)
           && x - ACK_WINDOW_MS <= s.u.busyUntil && (lone ==> s.u.busyUntil <= z <= x + BAY_MS)
  }

  function ActOf(g: Stage): Act {
    match g
    case Awaited(e) => Act(e, DiscArrives)
    case Seen(b) => Act(b, DrawnOff)
    case Drawn(x, _) => Act(x, AckExpired)
  }

  lemma AlikePending(u: Unit, v: Unit, c: Core, act: Act, waiting: bool, ack: bool)
    requires Alike(u, v) && Pending(u, c, act, waiting, ack)
    ensures Pending(v, c, act, waiting, ack)
  {
    hide Acts, NoHands;
  }

  lemma AlikeBusy(u: Unit, v: Unit)
    requires Alike(u, v)
    ensures u.busyUntil <= v.busyUntil && (NoHands(u) ==> NoHands(v) && v.busyUntil == u.busyUntil)
  {
  }

  lemma PendingAct(u: Unit, c: Core, act: Act, waiting: bool, ack: bool)
    requires Pending(u, c, act, waiting, ack)
    ensures !u.m.discInBay && Acts(u.events) == [act]
  {
  }

  /** Before the act falls due the stage does not change. */
  lemma StageWaits(s: Sim, c: Core, g: Stage, lone: bool, now: int)
    requires In(s, c, g, lone) && s.now <= now < ActOf(g).when
    ensures In(Sim(RunDue(s.u, now), now), c, g, lone)
  {
    hide Good, Fresh, RunDue, Acts, Pending, Spat, Ages, NoHands, Alike;
    GoodQueue(s.u);
    PendingAct(s.u, c, ActOf(g), g.Seen?, g.Drawn?);
    RunDueAlike(s.u, now);
    RunDueAges(s.u, now);
    AgesGood(s.u, RunDue(s.u, now));
    AlikePending(s.u, RunDue(s.u, now), c, ActOf(g), g.Seen?, g.Drawn?);
    AlikeBusy(s.u, RunDue(s.u, now));
  }

  lemma StepActs(w: Unit, now: int, act: Act)
    requires w.events != [] && !Idle(w.events[0].what) && Acts(w.events) == [act]
    requires act.what.DiscArrives? || act.what.DrawnOff? || act.what.AckExpired?
    ensures w.events[0].what == act.what
    ensures var next := Follows(w.m, act.what);
            Acts(Step(w, now).events) == if next.Nothing? then [] else [Act(now + next.delay, next.what)]
  {
    hide Enqueue, Altered, Labour;
    var next := Follows(w.m, act.what);
    var first := [Act(w.events[0].when, w.events[0].what)];
    assert Acts(w.events) == first + Acts(w.events[1..]);
    assert (first + Acts(w.events[1..]))[0] == first[0];
    assert Acts(w.events[1..]) == [];
    if next.Next? {
      EnqueueActs(w.events[1..], Event(now + next.delay, w.seqno + 1, next.what));
    }
  }

  lemma StepState(w: Unit, now: int)
    requires w.events != []
    ensures var v := Step(w, now);
            var ms := Labour(w.m, w.events[0].what);
            && v.m == Altered(w.m, w.events[0].what)
            && v.busyUntil == (if ms == 0 then w.busyUntil else Max(w.busyUntil, now + ms))
  {
    hide Enqueue, Altered, Labour, Follows;
  }

  /** The arrival itself: the disc is at the aperture, and about to be drawn off it. */
  lemma StepArrival(w: Unit, now: int, c: Core, e: int)
    requires w.events != [] && !Idle(w.events[0].what) && Pending(w, c, Act(e, DiscArrives), false, false)
    ensures Pending(Step(w, now), c, Act(now + APERTURE_MS, DrawnOff), true, false)
    ensures Step(w, now).busyUntil == Max(w.busyUntil, now + APERTURE_MS)
  {
    hide Step, Acts, Idle;
    StepActs(w, now, Act(e, DiscArrives));
    StepState(w, now);
  }

  /** Drawn off the aperture: it waits to be acknowledged, and will be put back out if it is not. */
  lemma StepDrawn(w: Unit, now: int, c: Core, b: int)
    requires w.events != [] && !Idle(w.events[0].what) && Pending(w, c, Act(b, DrawnOff), true, false)
    ensures Pending(Step(w, now), c, Act(now + SETTLE_MS + ACK_WINDOW_MS, AckExpired), false, true)
    ensures Step(w, now).busyUntil == Max(w.busyUntil, now + SETTLE_MS)
  {
    hide Step, Acts, Idle;
    StepActs(w, now, Act(b, DrawnOff));
    StepState(w, now);
  }

  /** Put back out. */
  lemma StepExpired(w: Unit, now: int, c: Core, x: int)
    requires w.events != [] && !Idle(w.events[0].what) && Pending(w, c, Act(x, AckExpired), false, true)
    ensures var v := Step(w, now);
            Acts(v.events) == [] && !v.m.newDiscAck && v.m.ackTimeout && CoreOf(v.m) == c.(bay := true)
            && v.busyUntil == Max(w.busyUntil, now + BAY_MS)
  {
    hide Step, Acts, Idle;
    StepActs(w, now, Act(x, AckExpired));
    StepState(w, now);
  }

  lemma StepHands(u: Unit, now: int)
    requires u.events != [] && Queued(u) && NoHands(u)
    ensures NoHands(Step(u, now))
  {
    hide Step, Stepped;
    StepStepped(u, now);
    SteppedReaching(u, Step(u, now), now);
  }

  /** Up to the instant the act runs, nothing about the stage has changed. */
  lemma StageReaches(s: Sim, c: Core, g: Stage, lone: bool, now: int) returns (w: Unit)
    requires In(s, c, g, lone) && ActOf(g).when <= now && (g.Drawn? ==> s.now < g.expiry)
    ensures Good(w) && w.events != [] && !Idle(w.events[0].what) && w.events[0].when <= now && Queued(w)
    ensures RunDue(s.u, now) == RunDue(Step(w, now), now)
    ensures Pending(w, c, ActOf(g), g.Seen?, g.Drawn?) && s.u.busyUntil <= w.busyUntil
    ensures lone ==> NoHands(w) && w.busyUntil == s.u.busyUntil
  {
    hide Good, Fresh, RunDue, Acts, NoHands, Alike, Step, Idle, Pending, Spat;
    PendingAct(s.u, c, ActOf(g), g.Seen?, g.Drawn?);
    w := RunDueReaches(s.u, now);
    AlikePending(s.u, w, c, ActOf(g), g.Seen?, g.Drawn?);
    AlikeBusy(s.u, w);
    GoodQueue(w);
  }

  lemma InBusy(s: Sim, c: Core, g: Stage, lone: bool)
    requires In(s, c, g, lone)
    ensures Good(s.u) && 0 <= s.now && (lone ==> NoHands(s.u))
    ensures lone && g.Awaited? ==> s.u.busyUntil <= s.now
    ensures lone && g.Seen? ==> s.u.busyUntil <= g.drawn
    ensures lone && g.Drawn? && s.now < g.expiry ==> s.u.busyUntil <= g.busy <= g.expiry + BAY_MS
  {
    hide Good, Fresh, NoHands, Pending, Spat;
  }

  lemma ArrivalRuns(s: Sim, c: Core, e: int, lone: bool, now: int)
    requires In(s, c, Awaited(e), lone) && s.now <= now && e <= now
    ensures In(Sim(RunDue(s.u, now), now), c, Seen(now + APERTURE_MS), lone)
  {
    hide Good, RunDue, NoHands, Step, Idle, Pending, In;
    InBusy(s, c, Awaited(e), lone);
    var w := StageReaches(s, c, Awaited(e), lone, now);
    StepArrival(w, now, c, e);
    if lone { StepHands(w, now); }
    StepGood(w, now);
    Settles(Step(w, now), c, Seen(now + APERTURE_MS), lone, now);
  }

  lemma DrawnRuns(s: Sim, c: Core, b: int, lone: bool, now: int)
    requires In(s, c, Seen(b), lone) && s.now <= now && b <= now
    ensures In(Sim(RunDue(s.u, now), now), c, Drawn(now + SETTLE_MS + ACK_WINDOW_MS, now + SETTLE_MS), lone)
  {
    hide Good, RunDue, NoHands, Step, Idle, Pending, In;
    InBusy(s, c, Seen(b), lone);
    var w := StageReaches(s, c, Seen(b), lone, now);
    StepDrawn(w, now, c, b);
    if lone { StepHands(w, now); }
    StepGood(w, now);
    Settles(Step(w, now), c, Drawn(now + SETTLE_MS + ACK_WINDOW_MS, now + SETTLE_MS), lone, now);
  }

  /** Whatever else is due at that instant changes nothing more. */
  lemma Settles(u: Unit, c: Core, g: Stage, lone: bool, now: int)
    requires Good(u) && !g.Awaited? && 0 <= now < ActOf(g).when
    requires Pending(u, c, ActOf(g), g.Seen?, g.Drawn?) && (lone ==> NoHands(u))
    requires lone ==> u.busyUntil <= (if g.Seen? then g.drawn else g.busy)
    requires g.Drawn? ==> g.expiry - ACK_WINDOW_MS <= u.busyUntil && g.busy <= g.expiry + BAY_MS
    ensures In(Sim(RunDue(u, now), now), c, g, lone)
  {
    hide Good, Fresh, RunDue, Acts, Pending, Spat, Ages, NoHands, Alike;
    GoodQueue(u);
    PendingAct(u, c, ActOf(g), g.Seen?, g.Drawn?);
    RunDueAlike(u, now);
    RunDueAges(u, now);
    AgesGood(u, RunDue(u, now));
    AlikePending(u, RunDue(u, now), c, ActOf(g), g.Seen?, g.Drawn?);
    AlikeBusy(u, RunDue(u, now));
  }

  // -- back out ------------------------------------------------------------

  /** With no act pending nothing moves, nothing is coming and no timer is armed. */
  lemma {:induction false} ActsNone(q: seq<Event>)
    requires Acts(q) == []
    ensures var t := Tally(q); Moving(t) == 0 && t.arrives == 0 && t.drawn == 0 && LastExpiry(q) == 0
  {
    hide One, Plus, Idle;
    if q != [] {
      TallyHead(q);
      assert Idle(q[0].what);
      ActsNone(q[1..]);
      IdleCounts(q[0].what, Tally(q[1..]));
    }
  }

  lemma IdleCounts(h: Happening, c: Census)
    requires Idle(h)
    ensures var d := Plus(One(h), c); Moving(d) == Moving(c) && d.arrives == c.arrives && d.drawn == c.drawn
    ensures !h.AckExpired?
  {
  }

  lemma ExpiryRuns(s: Sim, c: Core, x: int, z: int, lone: bool, now: int)
    requires In(s, c, Drawn(x, z), lone) && s.now < x <= now
    ensures In(Sim(RunDue(s.u, now), now), c, Drawn(x, z), lone)
  {
    hide Good, Fresh, RunDue, NoHands, Step, Idle, Pending, Spat;
    var w := StageReaches(s, c, Drawn(x, z), lone, now);
    StepExpired(w, now, c, x);
    if lone { StepHands(w, now); }
    StepGood(w, now);
    ExpiredSpat(Step(w, now), c, lone, now);
    SpatRuns(Step(w, now), now, c, lone, now);
  }

  lemma ExpiredSpat(v: Unit, c: Core, lone: bool, now: int)
    requires Good(v) && Acts(v.events) == [] && !v.m.newDiscAck && v.m.ackTimeout && 0 <= now
    requires lone ==> NoHands(v) && CoreOf(v.m) == c.(bay := true) && v.busyUntil <= now + BAY_MS
    ensures Spat(v, now, c, lone)
  {
    hide Good, Acts, Tally, Outlook, LastExpiry;
    ActsNone(v.events);
    NoMotionArrived(v);
  }

  lemma SpatRuns(u: Unit, before: int, c: Core, lone: bool, now: int)
    requires Spat(u, before, c, lone) && before <= now
    ensures Spat(RunDue(u, now), now, c, lone) && Fresh(RunDue(u, now), now) && Good(RunDue(u, now))
    ensures lone ==> NoHands(RunDue(u, now))
  {
    hide Good, Fresh, RunDue, Outlook, LastExpiry, Tame, NoMotion, Ran;
    RunDueAges(u, now);
    LatchRises(u, now);
  }

  /** Any stretch of waiting moves the disc just as far as it should. */
  lemma StageRuns(s: Sim, c: Core, g: Stage, lone: bool, now: int)
    requires In(s, c, g, lone) && s.now <= now
    ensures In(Sim(RunDue(s.u, now), now), c, Later(g, now), lone)
  {
    hide Good, Fresh, RunDue, Acts, Ages, NoHands, Alike, Pending, In, Spat;
    if now < ActOf(g).when {
      StageWaits(s, c, g, lone, now);
    } else if g.Awaited? {
      ArrivalRuns(s, c, g.arrival, lone, now);
    } else if g.Seen? {
      DrawnRuns(s, c, g.drawn, lone, now);
    } else if s.now < g.expiry {
      ExpiryRuns(s, c, g.expiry, g.busy, lone, now);
    } else {
      StageSpat(s, c, g.expiry, g.busy, lone, now);
    }
  }

  lemma StageSpat(s: Sim, c: Core, x: int, z: int, lone: bool, now: int)
    requires In(s, c, Drawn(x, z), lone) && x <= s.now <= now
    ensures In(Sim(RunDue(s.u, now), now), c, Drawn(x, z), lone)
  {
    hide Good, Fresh, RunDue, Pending, Outlook, Tame, NoMotion, LastExpiry;
    SpatRuns(s.u, s.now, c, lone, now);
  }

  // -- polling a unit that is taking a disc --------------------------------

  lemma SpatSame(u: Unit, v: Unit, now: int, c: Core, lone: bool)
    requires Spat(u, now, c, lone) && SameMachine(u, v) && Good(v) && v.m.ackTimeout == u.m.ackTimeout
    requires v.busyUntil <= Max(u.busyUntil, now + BLIP_FOR_MS)
    ensures Spat(v, now, c, lone)
  {
    hide Good, Tally, Foresee, LastExpiry;
  }

  lemma PendingSame(u: Unit, v: Unit, c: Core, act: Act, waiting: bool, ack: bool)
    requires Pending(u, c, act, waiting, ack) && SameMachine(u, v)
    ensures Pending(v, c, act, waiting, ack)
  {
    hide Acts;
  }

  lemma HandsSame(u: Unit, v: Unit)
    requires SameMachine(u, v)
    ensures NoHands(v) == NoHands(u)
  {
  }

  /** A command that moves and clears nothing leaves the stage alone. */
  lemma StagePassive(s: Sim, c: Core, g: Stage, lone: bool, v: Unit)
    requires In(s, c, g, lone) && SameMachine(s.u, v) && Good(v) && v.busyUntil == s.u.busyUntil
    requires v.m.ackTimeout == s.u.m.ackTimeout
    ensures In(Sim(v, s.now), c, g, lone)
  {
    hide Good, Acts, Spat, Pending, NoHands;
    HandsSame(s.u, v);
    if g.Drawn? && g.expiry <= s.now {
      SpatSame(s.u, v, s.now, c, lone);
    } else {
      PendingSame(s.u, v, c, ActOf(g), g.Seen?, g.Drawn?);
    }
  }

  /** A lost one keeps a unit that has drawn its disc in busy a little longer. */
  lemma StageBlip(s: Sim, c: Core, x: int, z: int, lone: bool, v: Unit)
    requires In(s, c, Drawn(x, z), lone) && SameMachine(s.u, v) && Good(v)
    requires v.busyUntil <= Max(s.u.busyUntil, s.now + BLIP_FOR_MS) && v.m.ackTimeout == s.u.m.ackTimeout
    ensures In(Sim(v, s.now), c, Drawn(x, Max(z, s.now + BLIP_FOR_MS)), lone)
  {
    hide Good, Acts, Spat, Pending, NoHands;
    HandsSame(s.u, v);
    if x <= s.now {
      SpatSame(s.u, v, s.now, c, lone);
    } else {
      PendingSame(s.u, v, c, Act(x, AckExpired), false, true);
    }
  }

  /** A poll, stage by stage. */
  lemma PollStage(s: Sim, c: Core, g: Stage, lone: bool)
    requires In(s, c, g, lone)
    ensures In(Found(s), c, Later(g, s.now + REPEAT_MS), lone)
    ensures In(Poll(s), c, Later(Later(g, s.now + REPEAT_MS), s.now + REPEAT_MS + POLL_MS), lone)
  {
    hide In, Good, Receive, RunDue, SameMachine, Later, OnlyTalked;
    StageRuns(s, c, g, lone, s.now + REPEAT_MS);
    var f := Found(s);
    var h := Later(g, s.now + REPEAT_MS);
    ReceiveStatus(f.u, f.now);
    PassiveReceive(f.u, f.now, CMD_REQUEST_STATE, NO_ARGS);
    ReceiveFlags(f.u, f.now, CMD_REQUEST_STATE, NO_ARGS);
    var v := Receive(f.u, f.now, CMD_REQUEST_STATE, NO_ARGS).u;
    InBusy(f, c, h, lone);
    PassiveAges(f.u, f.now, CMD_REQUEST_STATE, NO_ARGS);
    AgesGood(f.u, v);
    StagePassive(f, c, h, lone, v);
    StageRuns(Sim(v, f.now), c, h, lone, f.now + POLL_MS);
    ReadsOnce(Sim(v, f.now));
  }

  /** The aperture flag is up exactly while the disc waits there. */
  lemma StageSample(s: Sim, c: Core, g: Stage, lone: bool)
    requires In(Found(s), c, g, lone)
    ensures Shows(Sample(s), ST_DISC_WAITING, ST_DISC_WAITING) <==> g.Seen?
  {
    hide Good, Fresh, RunDue, Acts, NoHands, Found, StatusWord, Outlook, LastExpiry, Tally;
    SampleIs(s);
    MasksDecode(Found(s).u, Found(s).now);
    if g.Drawn? && g.expiry <= Found(s).now { TameWaitsNot(Found(s).u); }
  }

  lemma TameWaitsNot(u: Unit)
    requires Good(u) && Tame(u)
    ensures !u.m.discWaiting
  {
    hide Tally, Queued, Orderly, NeverTurnedLoaded;
    if u.m.discWaiting {
      var e :| e in u.events && e.what == DrawnOff;
      TallyCounts(u.events, e);
    }
  }

  // -- watching for the disc -----------------------------------------------

  /** The instant of the last status a wait looks at, should it never be satisfied. */
  function LastLook(start: int, deadline: int): int {
    start + REPEAT_MS + if deadline <= start then 0
      else (REPEAT_MS + POLL_MS) * ((deadline - 1 - start) / (REPEAT_MS + POLL_MS))
  }

  /** The wait for the take and the wait for the insertion both look past their own deadlines. */
  lemma LooksPastDeadline(start: int)
    ensures LastLook(start, start + INSERT_WINDOW_MS) == start + 30_032
    ensures LastLook(start, start + TAKE_WINDOW_MS) == start + 5_003
  {
  }

  /** The looks of a wait come one poll apart. */
  lemma NextLook(start: int, deadline: int)
    requires start < deadline
    ensures LastLook(start, deadline) == if start + 243 < deadline then LastLook(start + 243, deadline) else start + 143
    ensures start + 143 <= LastLook(start, deadline)
              && (start + 243 < deadline ==> start + 386 <= LastLook(start, deadline))
  {
  }

  /** A disc at the aperture stays there long enough to be seen. */
  lemma SeenAtOnce(s: Sim, c: Core, b: int, lone: bool, deadline: int)
    requires In(s, c, Seen(b), lone) && s.now + REPEAT_MS + POLL_MS < b
    ensures WaitRun(s, ST_DISC_WAITING, ST_DISC_WAITING, deadline) == Watch(Poll(s), true)
    ensures In(Poll(s), c, Seen(b), lone)
  {
    hide In, Poll, Sample, Found;
    PollStage(s, c, Seen(b), lone);
    StageSample(s, c, Seen(b), lone);
  }

  /** An insertion is reported if and only if it comes no later than the wait's last look. */
  lemma {:induction false} InsertSeen(s: Sim, c: Core, e: int, lone: bool, deadline: int) returns (b: int)
    requires In(s, c, Awaited(e), lone) && s.now < deadline
    ensures var w := WaitRun(s, ST_DISC_WAITING, ST_DISC_WAITING, deadline);
            && (w.ok <==> e <= LastLook(s.now, deadline))
            && (w.ok ==> In(w.s, c, Seen(b), lone) && w.s.now < b <= w.s.now + 1_400)
    decreases deadline - s.now
  {
    hide In, Poll, Sample, Found, Shows, LastLook;
    NextLook(s.now, deadline);
    PollStage(s, c, Awaited(e), lone);
    PollTakes(s);
    FoundTakes(s);
    var p := Poll(s);
    var g := Later(Awaited(e), s.now + REPEAT_MS);
    StageSample(s, c, g, lone);
    b := if g.Seen? then g.drawn else p.now + APERTURE_MS;
    if g.Awaited? && p.now < deadline {
      if e <= p.now {
        SeenAtOnce(p, c, b, lone, deadline);
        PollTakes(p);
      } else {
        b := InsertSeen(p, c, e, lone, deadline);
      }
    }
  }

  // -- letting it settle ---------------------------------------------------

  /** A disc still at the aperture is yet to be drawn off it, and the unit busy until then. */
  lemma SeenFuture(s: Sim, c: Core, b: int, lone: bool)
    requires In(s, c, Seen(b), lone)
    ensures s.now < b <= s.u.busyUntil
  {
    hide Tally, Acts, Queued, Orderly, NeverTurnedLoaded, NoHands;
    ActsMember(s.u.events);
  }

  lemma DrawnBusy(s: Sim, c: Core, x: int, z: int, lone: bool)
    requires In(s, c, Drawn(x, z), lone)
    ensures s.now < x ==> x - ACK_WINDOW_MS <= s.u.busyUntil
  {
    hide Good, Fresh, Pending, Spat, NoHands;
  }

  lemma BusySample(s: Sim)
    ensures Shows(Sample(s), ST_BUSY, 0) <==> !Busy(Found(s).u, Found(s).now)
  {
    hide StatusWord, Found, Busy;
    SampleIs(s);
    MasksDecode(Found(s).u, Found(s).now);
  }

  /** The latest the disc can be put back out. */
  function OutBy(g: Stage): int {
    match g
    case Awaited(e) => e + REPEAT_MS + APERTURE_MS + REPEAT_MS + SETTLE_MS + ACK_WINDOW_MS
    case Seen(b) => b + REPEAT_MS + SETTLE_MS + ACK_WINDOW_MS
    case Drawn(x, _) => x
  }

  lemma LaterOut(g: Stage, before: int, now: int)
    requires !g.Awaited? && before <= now <= before + REPEAT_MS && (g.Seen? ==> before < g.drawn)
    ensures OutBy(Later(g, now)) <= OutBy(g) && !Later(g, now).Awaited?
    ensures g.Drawn? ==> Later(g, now) == g
  {
  }

  lemma PollOut(s: Sim, c: Core, g: Stage, lone: bool) returns (h: Stage)
    requires In(s, c, g, lone) && !g.Awaited?
    ensures In(Poll(s), c, h, lone) && !h.Awaited? && OutBy(h) <= OutBy(g) && (g.Drawn? ==> h == g)
    ensures Shows(Sample(s), ST_BUSY, 0) ==> h.Drawn? && h.expiry - ACK_WINDOW_MS + POLL_MS <= Poll(s).now
  {
    hide In, Poll, Sample, Found, Shows, Later, OutBy;
    PollStage(s, c, g, lone);
    PollTakes(s);
    FoundTakes(s);
    BusySample(s);
    var f := Found(s);
    var k := Later(g, f.now);
    if g.Seen? { SeenFuture(s, c, g.drawn, lone); }
    LaterOut(g, s.now, f.now);
    if k.Seen? { SeenFuture(f, c, k.drawn, lone); } else { DrawnBusy(f, c, k.expiry, k.busy, lone); }
    LaterOut(k, f.now, Poll(s).now);
    h := Later(k, Poll(s).now);
  }

  /** A unit seen idle has drawn its disc in, and no longer ago than it took to look. */
  lemma {:induction false} SettleStage(s: Sim, c: Core, g: Stage, lone: bool, deadline: int) returns (h: Stage)
    requires In(s, c, g, lone) && !g.Awaited?
    ensures var w := WaitRun(s, ST_BUSY, 0, deadline);
            && In(w.s, c, h, lone) && !h.Awaited? && OutBy(h) <= OutBy(g) && (g.Drawn? ==> h == g)
            && (w.ok ==> h.Drawn? && h.expiry - ACK_WINDOW_MS + POLL_MS <= w.s.now)
    decreases deadline - s.now
  {
    hide In, Poll, Sample, Shows, OutBy;
    PollTakes(s);
    h := PollOut(s, c, g, lone);
    if !Shows(Sample(s), ST_BUSY, 0) && Poll(s).now < deadline {
      h := SettleStage(Poll(s), c, h, lone, deadline);
    }
  }

  /** Left alone, a unit that has drawn its disc in goes idle long before the window closes. */
  lemma {:induction false} DrawnIdle(s: Sim, c: Core, x: int, z: int, deadline: int)
    requires In(s, c, Drawn(x, z), true) && z + 343 <= x && s.now + 243 < x && z + POLL_MS < deadline
    ensures var w := WaitRun(s, ST_BUSY, 0, deadline);
            w.ok && In(w.s, c, Drawn(x, z), true) && x - 9_900 <= w.s.now <= Max(z + 343, s.now + 243)
    decreases deadline - s.now
  {
    hide In, Poll, Sample, Shows, WaitRun;
    PollTakes(s);
    WaitStep(s, ST_BUSY, 0, deadline);
    DrawnPoll(s, c, x, z);
    if !Shows(Sample(s), ST_BUSY, 0) { DrawnIdle(Poll(s), c, x, z, deadline); }
  }

  /** One look at such a unit. */
  lemma DrawnPoll(s: Sim, c: Core, x: int, z: int)
    requires In(s, c, Drawn(x, z), true) && s.now + 243 < x
    ensures In(Poll(s), c, Drawn(x, z), true)
    ensures Shows(Sample(s), ST_BUSY, 0) ==> x - ACK_WINDOW_MS <= s.now + REPEAT_MS
    ensures !Shows(Sample(s), ST_BUSY, 0) ==> s.now + REPEAT_MS < z
  {
    hide In, Poll, Sample, Shows, Found, Good, NoHands;
    PollTakes(s);
    FoundTakes(s);
    PollStage(s, c, Drawn(x, z), true);
    BusySample(s);
    InBusy(Found(s), c, Drawn(x, z), true);
    DrawnBusy(Found(s), c, x, z, true);
  }

  lemma {:induction false} SeenIdle(s: Sim, c: Core, b: int, deadline: int) returns (x: int)
    requires In(s, c, Seen(b), true) && b + 3_000 <= deadline
    ensures var w := WaitRun(s, ST_BUSY, 0, deadline);
            && w.ok && In(w.s, c, Drawn(x, x - ACK_WINDOW_MS), true)
            && x - 9_900 <= w.s.now <= x - ACK_WINDOW_MS + 343
    decreases deadline - s.now
  {
    hide In, Poll, Sample, Shows, Found;
    PollTakes(s);
    FoundTakes(s);
    PollStage(s, c, Seen(b), true);
    SeenFuture(s, c, b, true);
    BusySample(s);
    var f, p := Found(s), Poll(s);
    var g := Later(Seen(b), f.now);
    var h := Later(g, p.now);
    if g.Seen? { SeenFuture(f, c, g.drawn, true); } else { DrawnBusy(f, c, g.expiry, g.busy, true); }
    assert !Shows(Sample(s), ST_BUSY, 0);
    if h.Seen? {
      SeenFuture(p, c, b, true);
      x := SeenIdle(p, c, b, deadline);
    } else {
      x := h.expiry;
      DrawnIdle(p, c, x, h.busy, deadline);
    }
  }

  // -- acknowledging it ----------------------------------------------------

  lemma {:induction false} DrawnReads(s: Sim, c: Core, x: int, z: int, lone: bool, n: nat)
    requires In(s, c, Drawn(x, z), lone)
    ensures In(Reads(s, n), c, Drawn(x, z), lone) && Reads(s, n).now == s.now + n * POLL_MS
  {
    hide In, RunDue;
    if n > 0 {
      DrawnReads(s, c, x, z, lone, n - 1);
      var p := Reads(s, n - 1);
      StageRuns(p, c, Drawn(x, z), lone, p.now + POLL_MS);
    }
  }

  /** An accept that is lost leaves the disc where it is, and its timer running. */
  lemma AcceptLost(s: Sim, c: Core, x: int, z: int, lone: bool)
    requires In(s, c, Drawn(x, z), lone) && CommandRun(s, CMD_ACCEPT_DISC, NO_ARGS).reply.None?
    ensures var t := CommandRun(s, CMD_ACCEPT_DISC, NO_ARGS).s;
            In(t, c, Drawn(x, Max(z, s.now + REPEAT_MS + BLIP_FOR_MS)), lone) && t.now == s.now + REPEAT_MS + ACK_MS
    ensures lone && z <= s.now && s.now + REPEAT_MS < x ==> s.u.w.blips
  {
    hide In, Good, Receive, SameMachine, OnlyTalked, RunDue, Reads;
    StageRuns(s, c, Drawn(x, z), lone, s.now + REPEAT_MS);
    var f := Found(s);
    var v := Receive(f.u, f.now, CMD_ACCEPT_DISC, NO_ARGS).u;
    InBusy(f, c, Drawn(x, z), lone);
    RunDueWire(s.u, f.now);
    if lone && z <= s.now && s.now + REPEAT_MS < x { LostToBlip(f.u, f.now, CMD_ACCEPT_DISC, NO_ARGS); }
    ReceiveUnheard(f.u, f.now, CMD_ACCEPT_DISC, NO_ARGS);
    PassiveReceive(f.u, f.now, CMD_ACCEPT_DISC, NO_ARGS);
    PassiveAges(f.u, f.now, CMD_ACCEPT_DISC, NO_ARGS);
    AgesGood(f.u, v);
    StageBlip(f, c, x, z, lone, v);
    DrawnReads(Sim(v, f.now), c, x, Max(z, f.now + BLIP_FOR_MS), lone, ACK_MS / POLL_MS);
  }

  /** Where an acknowledged accept was heard. */
  ghost predicate AcceptedAt(h: Sim, e: Exchange) {
    var r := Receive(h.u, h.now, CMD_ACCEPT_DISC, NO_ARGS);
    r.reply.Some? && e == Exchange(Reads(Sim(r.u, h.now), 1), r.reply)
  }

  lemma FoundReaching(s: Sim)
    requires Good(s.u)
    ensures Reaching(Found(s).u) <= Reaching(s.u)
  {
    hide Good, Found, Reaching, Ages;
    FoundPasses(s);
    AgesReaching(s.u, Found(s).u);
  }

  lemma LostReaching(s: Sim)
    requires Good(s.u) && CommandRun(s, CMD_ACCEPT_DISC, NO_ARGS).reply.None?
    ensures var t := CommandRun(s, CMD_ACCEPT_DISC, NO_ARGS).s;
            Reaching(IdleRun(t, RETRY_WAIT_MS).s.u) <= Reaching(s.u)
  {
    hide Good, CommandRun, WaitRun, Reaching, Ages, Fresh;
    var t := CommandRun(s, CMD_ACCEPT_DISC, NO_ARGS).s;
    CommandPasses(s, CMD_ACCEPT_DISC, NO_ARGS);
    AgesGood(s.u, t.u);
    WaitPasses(t, ST_BUSY, 0, t.now + RETRY_WAIT_MS);
    AgesReaching(s.u, t.u);
    AgesReaching(t.u, IdleRun(t, RETRY_WAIT_MS).s.u);
  }

  /**
   Three tries take long enough for the disc to be back out when the last of them
   fails, and little enough for all of them to come before that if nothing else
   keeps the unit busy.
   */
  lemma {:induction false} AcceptRun(s: Sim, c: Core, x: int, z: int, lone: bool, tries: nat) returns (h: Sim, y: int)
    requires In(s, c, Drawn(x, z), lone) && tries > 0
    ensures var e := RequireRun(s, CMD_ACCEPT_DISC, NO_ARGS, tries);
            && (e.reply.None? ==>
                  In(e.s, c, Drawn(x, y), lone) && e.s.now >= s.now + tries * 3_143 + (tries - 1) * 243
                  && (lone && z <= s.now && s.now + REPEAT_MS < x ==> s.u.w.blips))
            && (e.reply.Some? ==>
                  In(h, c, Drawn(x, y), lone) && AcceptedAt(h, e) && s.now <= h.now <= e.s.now
                  && Reaching(h.u) <= Reaching(s.u)
                  && (lone && z <= s.now && s.now + (tries - 1) * 3_386 + 343 <= x ==> h.now < x))
    decreases tries
  {
    hide Reaching, Good, Ages, In, Receive, RunDue, Reads, CommandRun, WaitRun;
    var cmd := CMD_ACCEPT_DISC;
    var e := CommandRun(s, cmd, NO_ARGS);
    if e.reply.Some? {
      StageRuns(s, c, Drawn(x, z), lone, s.now + REPEAT_MS);
      h, y := Found(s), z;
      InBusy(s, c, Drawn(x, z), lone);
      FoundReaching(s);
      AcceptedHere(s);
    } else {
      AcceptLost(s, c, x, z, lone);
      y := Max(z, s.now + REPEAT_MS + BLIP_FOR_MS);
      h := s;
      if tries > 1 {
        var t := e.s;
        var w := IdleRun(t, RETRY_WAIT_MS);
        var g := SettleStage(t, c, Drawn(x, y), lone, t.now + RETRY_WAIT_MS);
        WaitTakes(t, ST_BUSY, 0, t.now + RETRY_WAIT_MS);
        InBusy(s, c, Drawn(x, z), lone);
        LostReaching(s);
        if lone && z <= s.now && s.now + (tries - 1) * 3_386 + 343 <= x {
          DrawnIdle(t, c, x, y, t.now + RETRY_WAIT_MS);
          h, y := AcceptRun(w.s, c, x, y, lone, tries - 1);
        } else {
          h, y := AcceptRun(w.s, c, x, y, lone, tries - 1);
        }
      }
    }
  }

  /** Idle, its disc drawn in and still to be acknowledged: an accept it is offered is heard, or lost to a blip. */
  predicate Attentive(h: Sim, x: int) {
    && Able(h, CMD_ACCEPT_DISC, NO_ARGS) && h.u.m.newDiscAck && h.now < x
    && var r := Receive(h.u, h.now, CMD_ACCEPT_DISC, NO_ARGS);
       r.reply.None? ==> r.u.w.dropped == h.u.w.dropped + [Dropped(CMD_ACCEPT_DISC, NO_ARGS, Blip, |h.u.w.log|)]
  }

  lemma AttentiveAt(h: Sim, c: Core, x: int, z: int)
    requires In(h, c, Drawn(x, z), true) && z <= h.now < x
    ensures Attentive(h, x)
  {
    hide In, Receive, Good, NoHands;
    InBusy(h, c, Drawn(x, z), true);
    DrawnBusy(h, c, x, z, true);
    DrawnWaiting(h, c, x, z);
    if Receive(h.u, h.now, CMD_ACCEPT_DISC, NO_ARGS).reply.None? {
      LostToBlip(h.u, h.now, CMD_ACCEPT_DISC, NO_ARGS);
    }
  }

  /**
   Every one of the three accepts reaches a unit that is idle and has its disc
   still to be acknowledged, before the window closes; one that is lost is lost
   to a blip.
   */
  lemma {:induction false} AcceptOffers(s: Sim, c: Core, x: int, z: int, tries: nat)
    requires In(s, c, Drawn(x, z), true) && tries > 0
    requires z <= s.now && s.now + (tries - 1) * 3_386 + 343 <= x
    ensures forall h | h in Offers(s, CMD_ACCEPT_DISC, NO_ARGS, tries) :: s.now < h.now && Attentive(h, x)
    decreases tries
  {
    hide In, Attentive, CommandRun, WaitRun, RunDue;
    var cmd := CMD_ACCEPT_DISC;
    var e := CommandRun(s, cmd, NO_ARGS);
    StageRuns(s, c, Drawn(x, z), true, s.now + REPEAT_MS);
    AttentiveAt(Found(s), c, x, z);
    if e.reply.None? && tries > 1 {
      var y := Max(z, s.now + REPEAT_MS + BLIP_FOR_MS);
      AcceptLost(s, c, x, z, true);
      WaitTakes(e.s, ST_BUSY, 0, e.s.now + RETRY_WAIT_MS);
      DrawnIdle(e.s, c, x, y, e.s.now + RETRY_WAIT_MS);
      AcceptOffers(IdleRun(e.s, RETRY_WAIT_MS).s, c, x, y, tries - 1);
    }
  }

  lemma AcceptedHere(s: Sim)
    requires CommandRun(s, CMD_ACCEPT_DISC, NO_ARGS).reply.Some?
    ensures AcceptedAt(Found(s), CommandRun(s, CMD_ACCEPT_DISC, NO_ARGS)) && Found(s).now == s.now + REPEAT_MS
    ensures Found(s).now <= CommandRun(s, CMD_ACCEPT_DISC, NO_ARGS).s.now
  {
    hide Receive, RunDue;
    var f := Found(s);
    ReadsOnce(Sim(Receive(f.u, f.now, CMD_ACCEPT_DISC, NO_ARGS).u, f.now));
  }

  // -- taking it in, end to end --------------------------------------------

  /** The disc was seen at the aperture a moment ago. */
  ghost predicate Fed(s: Sim, lone: bool) {
    exists b :: In(s, CoreOf(s.u.m), Seen(b), lone) && b <= s.now + 1_400
  }

  /** No ack timer outlives `until`. */
  predicate TimersBy(u: Unit, until: int) { LastExpiry(u.events) <= until }

  lemma InSpat(s: Sim, c: Core, x: int, z: int, lone: bool)
    requires In(s, c, Drawn(x, z), lone) && x <= s.now
    ensures Spat(s.u, s.now, c, lone)
  {
  }

  lemma SpatParts(s: Sim, c: Core, lone: bool)
    requires Spat(s.u, s.now, c, lone)
    ensures Sound(s) && TimersBy(s.u, s.now) && s.u.m.ackTimeout
    ensures lone && c.position <= 100 ==> Prompt(s) && Outlook(s.u) == c.(bay := true)
  {
    hide Good, Tame, Outlook, LastExpiry, NoHands, NoMotion;
  }

  /** By the time the wait gives up the disc is out; if it succeeds, the whole window is still to come. */
  lemma FedSettles(s: Sim, b: int, lone: bool) returns (x: int, z: int)
    requires In(s, CoreOf(s.u.m), Seen(b), lone) && b <= s.now + 1_400
    ensures var w := IdleRun(s, SETTLE_WAIT_MS);
            && In(w.s, CoreOf(s.u.m), Drawn(x, z), lone)
            && (w.ok ==> x <= w.s.now + 9_900)
            && (!w.ok ==> x <= w.s.now)
            && (lone ==> w.ok && z <= w.s.now && w.s.now + 9_657 <= x)
  {
    hide In;
    var c := CoreOf(s.u.m);
    var deadline := s.now + SETTLE_WAIT_MS;
    WaitTakes(s, ST_BUSY, 0, deadline);
    if lone {
      x := SeenIdle(s, c, b, deadline);
      z := x - ACK_WINDOW_MS;
    } else {
      var h := SettleStage(s, c, Seen(b), lone, deadline);
      var t := WaitRun(s, ST_BUSY, 0, deadline).s;
      if h.Seen? { SeenFuture(t, c, h.drawn, lone); }
      x, z := h.expiry, h.busy;
    }
  }

  lemma {:induction false} ActsExpiry(q: seq<Event>, x: int)
    requires Acts(q) == [Act(x, AckExpired)]
    ensures LastExpiry(q) <= Max(x, 0)
  {
    hide Idle;
    if Idle(q[0].what) {
      IdleCounts(q[0].what, Census(0, 0, 0, 0, 0, 0, 0, 0));
      ActsExpiry(q[1..], x);
    } else {
      var first := [Act(q[0].when, q[0].what)];
      assert Acts(q) == first + Acts(q[1..]);
      assert (first + Acts(q[1..]))[0] == first[0];
      assert Acts(q[1..]) == [];
      ActsNone(q[1..]);
    }
  }

  lemma DrawnTimers(s: Sim, c: Core, x: int, z: int, lone: bool)
    requires In(s, c, Drawn(x, z), lone)
    ensures TimersBy(s.u, Max(x, s.now)) && Good(s.u) && Fresh(s.u, s.now)
  {
    hide Good, Fresh, Acts, LastExpiry, Tame, NoHands, Outlook;
    if s.now < x { ActsExpiry(s.u.events, x); }
  }

  /** The most hands that cannot keep an acknowledged accept from being seen through. */
  const MOST_HANDS: nat := 29

  /** An acknowledged accept keeps the unit busy for as long as it takes the disc in, and no longer. */
  lemma AcceptBusy(h: Sim, c: Core, x: int, z: int, lone: bool)
    requires In(h, c, Drawn(x, z), lone) && Receive(h.u, h.now, CMD_ACCEPT_DISC, NO_ARGS).reply.Some?
    ensures var v := Receive(h.u, h.now, CMD_ACCEPT_DISC, NO_ARGS).u;
            Good(v) && Tame(v) && v.busyUntil <= h.now + INGEST_MS && Reaching(v) == Reaching(h.u)
  {
    hide In, Good, Fresh, Receive, Tally, LastExpiry, Outlook, Foreseen, Tame, Reaching, Bears, Accounted;
    DrawnTimers(h, c, x, z, lone);
    AcceptHeard(h, NO_ARGS);
    HeardIdle(h, CMD_ACCEPT_DISC, NO_ARGS);
    if !h.u.m.newDiscAck {
      DrawnTame(h, c, x, z, lone);
      SameMachineTame(h.u, Receive(h.u, h.now, CMD_ACCEPT_DISC, NO_ARGS).u);
    }
  }

  /** It is seen through, unless more hands than that are yet to reach in. */
  lemma AcceptThenIdle(h: Sim, c: Core, x: int, z: int, lone: bool, e: Exchange)
    requires In(h, c, Drawn(x, z), lone) && AcceptedAt(h, e) && Reaching(h.u) <= MOST_HANDS
    ensures IdleRun(e.s, SETTLE_WAIT_MS).ok
  {
    hide In, Good, Tame, Receive, RunDue, WaitRun, Reaching, Ages, Fresh;
    var v := Receive(h.u, h.now, CMD_ACCEPT_DISC, NO_ARGS).u;
    AcceptBusy(h, c, x, z, lone);
    ReadsOnce(Sim(v, h.now));
    RunDueSpends(v, h.now + POLL_MS);
    RunDueAges(v, h.now + POLL_MS);
    AgesGood(v, e.s.u);
    AgesCalm(v, e.s.u);
    FewHandsSeenPast(e.s, 7, e.s.now + SETTLE_WAIT_MS);
  }

  /** An acknowledged accept leaves no disc waiting at the mouth, whether it was in time or not. */
  lemma AcceptEnds(h: Sim, c: Core, x: int, z: int, lone: bool, e: Exchange)
    requires In(h, c, Drawn(x, z), lone) && AcceptedAt(h, e)
    ensures Sound(e.s) && TimersBy(e.s.u, Max(x, e.s.now)) && h.now <= e.s.now
  {
    hide In, Good, Fresh, Receive, Reads, Ages, Tally, LastExpiry, Outlook, Foreseen, Tame;
    DrawnTimers(h, c, x, z, lone);
    AcceptHeard(h, NO_ARGS);
    var v := Receive(h.u, h.now, CMD_ACCEPT_DISC, NO_ARGS).u;
    if !h.u.m.newDiscAck {
      DrawnTame(h, c, x, z, lone);
      SameMachineTame(h.u, v);
    }
    ReadsPass(Sim(v, h.now), 1);
    AgesCalm(v, e.s.u);
    AgesGood(v, e.s.u);
  }

  lemma DrawnTame(s: Sim, c: Core, x: int, z: int, lone: bool)
    requires In(s, c, Drawn(x, z), lone) && !s.u.m.newDiscAck
    ensures Tame(s.u)
  {
    hide Good, Fresh, LastExpiry, NoHands, Outlook, Tame;
  }

  /** One that was in time puts the disc into the slot behind the mouth. */
  lemma AcceptStores(h: Sim, c: Core, x: int, z: int, e: Exchange)
    requires In(h, c, Drawn(x, z), true) && AcceptedAt(h, e) && h.now < x && c.position <= 100
    ensures Prompt(e.s) && Outlook(e.s.u) == c.(occupied := c.occupied + {c.position})
  {
    hide In, Good, Fresh, Receive, Reads, Ages, LastExpiry, Outlook, Tame, Tally, NoHands;
    DrawnTimers(h, c, x, z, true);
    DrawnWaiting(h, c, x, z);
    AcceptHeard(h, NO_ARGS);
    var v := Receive(h.u, h.now, CMD_ACCEPT_DISC, NO_ARGS).u;
    StoredCalm(h.u, v, h.u.m.position);
    ReadsPass(Sim(v, h.now), 1);
    AgesCalm(v, e.s.u);
    AgesGood(v, e.s.u);
  }

  lemma DrawnWaiting(h: Sim, c: Core, x: int, z: int)
    requires In(h, c, Drawn(x, z), true) && h.now < x
    ensures h.u.m.newDiscAck && CoreOf(h.u.m) == c && NoHands(h.u)
  {
    hide Good, Fresh, Acts, NoHands, Spat;
  }

  lemma StoredCalm(u: Unit, v: Unit, slot: Byte)
    requires Tame(v) && NoHands(u) && Tally(v.events) == Plus(One(Stored(slot)), Tally(u.events))
    ensures Calm(v)
  {
    hide Tally, Tame;
    TakesOf(Stored(slot), Tally(u.events));
  }

  function BayFull(c: Core): Core { c.(bay := true) }

  function Filled(c: Core): Core { c.(occupied := c.occupied + {c.position}) }

  /**
   Taking in a disc seen at the aperture, whatever hands are about: however it
   ends, no disc is left at the mouth waiting for an acknowledgement, and after a
   failure no timer is left running either. One never acknowledged leaves the error
   latched; one acknowledged is given up only with more hands about than that.
   */
  ghost predicate TakesIn(s: Sim, t: Sim, r: Outcome<()>) {
    r.Lost? ||
    (Sound(t) && Accounted(s.u, t.u) && Drops(s.u.w, t.u.w) && TimersBy(t.u, t.now + if r.Ok? then 9_900 else 0)
     && Claims(s.u, t.u, if r.Ok? || r.why == TimedOut then {Outlook(s.u).position} else {})
     && Reaching(t.u) <= Reaching(s.u) && (r == Failed(TimedOut) ==> Reaching(s.u) > MOST_HANDS)
     && (r == Failed(NeverSettled) || r == Failed(NotAcknowledged) ==> t.u.m.ackTimeout))
  }

  /** With no hands about: the disc is in the slot, or no accept was heard and it is back in the bay. */
  ghost predicate Loads(s: Sim, t: Sim, r: Outcome<()>) {
    var c := CoreOf(s.u.m);
    && (!r.Lost? ==> OnlyBlips(s.u.w, t.u.w))
    && (r.Ok? ==> Quiet(t) && Outlook(t.u) == Filled(c))
    && (r.Failed? ==>
          r.why == NotAcknowledged && Prompt(t) && Outlook(t.u) == BayFull(c) && Unlucky(s, t) && t.u.m.ackTimeout)
  }

  /** Taking a disc in, as a function of the state it starts in. */
  function IngestRun(s: Sim): Outturn {
    var w := IdleRun(s, SETTLE_WAIT_MS);
    if !w.ok then Outturn(w.s, Failed(NeverSettled))
    else
      var e := RequireRun(w.s, CMD_ACCEPT_DISC, NO_ARGS, TRIES);
      if e.reply.None? then Outturn(e.s, Failed(NotAcknowledged))
      else
        var t := IdleRun(e.s, SETTLE_WAIT_MS);
        Outturn(t.s, if t.ok then Ok(()) else Failed(TimedOut))
  }

  lemma SettleFails(s: Sim, lone: bool)
    requires Fed(s, lone) && !IdleRun(s, SETTLE_WAIT_MS).ok
    ensures !lone && Sound(IdleRun(s, SETTLE_WAIT_MS).s)
    ensures TimersBy(IdleRun(s, SETTLE_WAIT_MS).s.u, IdleRun(s, SETTLE_WAIT_MS).s.now)
    ensures IdleRun(s, SETTLE_WAIT_MS).s.u.m.ackTimeout
  {
    hide In, WaitRun, Good, Tame, LastExpiry;
    var b :| In(s, CoreOf(s.u.m), Seen(b), lone) && b <= s.now + 1_400;
    var x, z := FedSettles(s, b, lone);
    var w := IdleRun(s, SETTLE_WAIT_MS).s;
    InSpat(w, CoreOf(s.u.m), x, z, lone);
    SpatParts(w, CoreOf(s.u.m), lone);
  }

  lemma WaitReaching(s: Sim, mask: bv16, want: bv16, deadline: int)
    requires Good(s.u)
    ensures Reaching(WaitRun(s, mask, want, deadline).s.u) <= Reaching(s.u)
  {
    hide Good, WaitRun, Ages, Fresh, Reaching;
    WaitPasses(s, mask, want, deadline);
    AgesReaching(s.u, WaitRun(s, mask, want, deadline).s.u);
  }

  lemma AcceptFollows(s: Sim, lone: bool)
    requires Fed(s, lone) && IdleRun(s, SETTLE_WAIT_MS).ok && (lone ==> s.u.m.position <= 100)
    ensures var c := CoreOf(s.u.m);
            var e := RequireRun(IdleRun(s, SETTLE_WAIT_MS).s, CMD_ACCEPT_DISC, NO_ARGS, TRIES);
            && Sound(e.s) && (e.reply.None? ==> e.s.u.m.ackTimeout)
            && (e.reply.Some? && Reaching(s.u) <= MOST_HANDS ==> IdleRun(e.s, SETTLE_WAIT_MS).ok)
            && TimersBy(e.s.u, e.s.now + if e.reply.Some? then 9_900 else 0)
            && (lone ==> Prompt(e.s) && Outlook(e.s.u) == (if e.reply.Some? then Filled(c) else BayFull(c))
                         && OnlyBlips(s.u.w, e.s.u.w)
                         && (e.reply.None? ==> Unlucky(s, e.s)))
  {
    hide In, WaitRun, Good, Tame, LastExpiry, RequireRun, Outlook, Prompt, AcceptedAt, TimersBy, Unlucky, OnlyBlips,
         Reaching;
    var b :| In(s, CoreOf(s.u.m), Seen(b), lone) && b <= s.now + 1_400;
    var x, z := FedSettles(s, b, lone);
    var w := IdleRun(s, SETTLE_WAIT_MS).s;
    InBusy(s, CoreOf(s.u.m), Seen(b), lone);
    WaitReaching(s, ST_BUSY, 0, s.now + SETTLE_WAIT_MS);
    WaitDrops(s, ST_BUSY, 0, s.now + SETTLE_WAIT_MS);
    WaitOnlyBlips(s, ST_BUSY, 0, s.now + SETTLE_WAIT_MS);
    AcceptAnswered(w, CoreOf(s.u.m), x, z, lone);
    if Reaching(s.u) <= MOST_HANDS { AcceptSeenThrough(w, CoreOf(s.u.m), x, z, lone); }
    if lone {
      var e := RequireRun(w, CMD_ACCEPT_DISC, NO_ARGS, TRIES);
      OnlyBlipsTransitive(s.u.w, w.u.w, e.s.u.w);
      RequireDrops(w, CMD_ACCEPT_DISC, NO_ARGS, TRIES);
      if e.reply.None? { UnluckySince(s, w, e.s); }
    }
  }

  lemma AcceptSeenThrough(w: Sim, c: Core, x: int, z: int, lone: bool)
    requires In(w, c, Drawn(x, z), lone) && Reaching(w.u) <= MOST_HANDS
    ensures var e := RequireRun(w, CMD_ACCEPT_DISC, NO_ARGS, TRIES);
            e.reply.Some? ==> IdleRun(e.s, SETTLE_WAIT_MS).ok
  {
    hide In, RequireRun, WaitRun, AcceptedAt, Reaching;
    var h, y := AcceptRun(w, c, x, z, lone, TRIES);
    var e := RequireRun(w, CMD_ACCEPT_DISC, NO_ARGS, TRIES);
    if e.reply.Some? { AcceptThenIdle(h, c, x, y, lone, e); }
  }

  lemma AcceptAnswered(w: Sim, c: Core, x: int, z: int, lone: bool)
    requires In(w, c, Drawn(x, z), lone) && x <= w.now + 9_900
    requires lone ==> c.position <= 100 && z <= w.now && w.now + 9_657 <= x
    ensures var e := RequireRun(w, CMD_ACCEPT_DISC, NO_ARGS, TRIES);
            && Sound(e.s) && (e.reply.None? ==> e.s.u.m.ackTimeout)
            && TimersBy(e.s.u, e.s.now + if e.reply.Some? then 9_900 else 0)
            && (lone ==> Prompt(e.s) && Outlook(e.s.u) == (if e.reply.Some? then Filled(c) else BayFull(c))
                         && OnlyBlips(w.u.w, e.s.u.w)
                         && (e.reply.None? ==> Unlucky(w, e.s)))
  {
    hide In, Good, Tame, RequireRun, Outlook, Prompt, AcceptedAt, Offers, OnlyBlips, Unlucky, LostRun;
    var e := RequireRun(w, CMD_ACCEPT_DISC, NO_ARGS, TRIES);
    var h, y := AcceptRun(w, c, x, z, lone, TRIES);
    RequireDrops(w, CMD_ACCEPT_DISC, NO_ARGS, TRIES);
    if lone {
      AcceptOffers(w, c, x, z, TRIES);
      RequireOnlyBlips(w, CMD_ACCEPT_DISC, NO_ARGS, TRIES);
      if e.reply.None? {
        RequireLostRun(w, CMD_ACCEPT_DISC, NO_ARGS, TRIES);
        LostRunUnlucky(w, e.s, CMD_ACCEPT_DISC, NO_ARGS);
      }
    }
    if e.reply.None? {
      InSpat(e.s, c, x, y, lone);
      SpatParts(e.s, c, lone);
    } else {
      AcceptEnds(h, c, x, y, lone, e);
      if lone { AcceptStores(h, c, x, y, e); }
    }
  }

  // -- feeding it ----------------------------------------------------------

  /** At rest, with no disc coming and no timer running, nothing is pending but hands. */
  lemma {:induction false} RestActs(q: seq<Event>, now: int)
    requires Moving(Tally(q)) == 0 && Tally(q).arrives == 0 && Tally(q).drawn == 0
    requires LastExpiry(q) <= now && forall e | e in q :: now < e.when
    ensures Acts(q) == []
  {
    hide One, Idle, Moving;
    if q != [] {
      TallyHead(q);
      RestHead(q[0].what, Tally(q[1..]));
      assert q[0] in q && forall e | e in q[1..] :: e in q;
      RestActs(q[1..], now);
    }
  }

  lemma RestHead(h: Happening, c: Census)
    requires var d := Plus(One(h), c); Moving(d) == 0 && d.arrives == 0 && d.drawn == 0
    ensures (Idle(h) || h.AckExpired?) && Moving(c) == 0 && c.arrives == 0 && c.drawn == 0
  {
    match h
    case Arrived(_, presenting) => case _ =>
  }

  /** A disc fed to a resting unit with nothing at its mouth. */
  lemma InsertScheduled(s: Sim, e: int, lone: bool)
    requires AtRest(s) && Load(s.u) == 0 && TimersBy(s.u, s.now) && 0 <= s.now <= e
    requires lone ==> NoHands(s.u) && s.u.busyUntil <= s.now
    ensures var u := At(s.u, e, DiscArrives);
            && In(Sim(u, s.now), CoreOf(s.u.m), Awaited(e), lone)
            && (s.u.m.position !in s.u.m.occupied ==> Accounted(s.u, u))
  {
    hide Tally, LastExpiry, Acts, Sorted, NeverTurnedLoaded, Enqueue, Accounted;
    if s.u.m.position !in s.u.m.occupied { InsertAccounted(s.u, e); }
    EmptyMouthTame(s.u);
    TameWaitsNot(s.u);
    RestActs(s.u.events, s.now);
    EnqueueActs(s.u.events, Event(e, s.u.seqno + 1, DiscArrives));
    AtLaws(s.u, e, DiscArrives);
  }

  lemma InsertAccounted(u: Unit, e: int)
    requires Queued(u) && u.m.position !in u.m.occupied
    ensures Accounted(u, At(u, e, DiscArrives))
  {
    hide Tally, Sorted, Enqueue;
    AtLaws(u, e, DiscArrives);
  }

  /** With no disc coming, a wait for one is never satisfied. */
  lemma {:induction false} NobodyInserts(s: Sim, deadline: int)
    requires Sound(s)
    ensures !WaitRun(s, ST_DISC_WAITING, ST_DISC_WAITING, deadline).ok
    decreases deadline - s.now
  {
    hide Good, Tame, Poll, Sample, Found, StatusWord, Ages, Fresh;
    PollTakes(s);
    FoundPasses(s);
    AgesCalm(s.u, Found(s).u);
    TameWaitsNot(Found(s).u);
    MasksDecode(Found(s).u, Found(s).now);
    SampleIs(s);
    if Poll(s).now < deadline {
      PollPasses(s);
      AgesCalm(s.u, Poll(s).u);
      NobodyInserts(Poll(s), deadline);
    }
  }

  /** A wait of any kind leaves a quiet unit quiet. */
  lemma WaitStaysQuiet(s: Sim, mask: bv16, want: bv16, deadline: int)
    requires Quiet(s)
    ensures Quiet(WaitRun(s, mask, want, deadline).s)
    ensures Outlook(WaitRun(s, mask, want, deadline).s.u) == Outlook(s.u)
  {
    hide Quiet, WaitRun, Outlook, Good, Calm, Prompt, Passes, Fresh, NoMotion;
    QuietGood(s);
    WaitPasses(s, mask, want, deadline);
    PassesQuiet(s, WaitRun(s, mask, want, deadline).s);
  }

  // -- a hand at the bay ---------------------------------------------------

  /** A disc lies in the bay of a resting unit, and one hand reaches for it at `e`. */
  ghost predicate Reach(u: Unit, c: Core, e: int) {
    && Good(u) && Tame(u) && NoMotion(u) && CoreOf(u.m) == c && c.bay
    && Tally(u.events).takes == 1
    && exists ev :: ev in u.events && ev.what == Taken && ev.when == e
  }

  /** It has taken it, which the unit reports as an error. */
  ghost predicate Emptied(u: Unit, now: int, c: Core) {
    && Good(u) && Calm(u) && NoMotion(u) && Outlook(u) == c.(bay := false)
    && u.busyUntil <= now + TAKE_MS && u.m.ackTimeout
  }

  lemma ReachHead(u: Unit, c: Core, e: int)
    requires u.events != [] && Reach(u, c, e)
    ensures u.events[0].what.Taken? || u.events[0].what.Settled? || u.events[0].what.AckExpired?
    ensures u.events[0].what.Taken? ==> u.events[0].when == e && Tally(u.events[1..]).takes == 0
    ensures !u.events[0].what.Taken? ==> exists ev :: ev in u.events[1..] && ev.what == Taken && ev.when == e
  {
    hide Tally, Good, Moving;
    TallyHead(u.events);
    RestHead(u.events[0].what, Tally(u.events[1..]));
    TakesOf(u.events[0].what, Tally(u.events[1..]));
    var ev :| ev in u.events && ev.what == Taken && ev.when == e;
    if u.events[0].what.Taken? && ev != u.events[0] {
      TakesCounted(u.events[1..], ev);
    }
  }

  lemma TakesCounted(q: seq<Event>, e: Event)
    requires e in q && e.what == Taken
    ensures Tally(q).takes > 0
  {
    hide Tally;
    TallyCounts(q, e);
  }

  lemma StepReach(u: Unit, now: int, c: Core, e: int)
    requires u.events != [] && u.events[0].when <= now && Reach(u, c, e)
    ensures var v := Step(u, now);
            if u.events[0].what.Taken?
            then e <= now && Good(v) && Calm(v) && NoMotion(v) && CoreOf(v.m) == c.(bay := false) && v.m.ackTimeout
                 && v.busyUntil == Max(u.busyUntil, now + TAKE_MS)
            else Reach(v, c, e) && v.busyUntil == u.busyUntil
  {
    hide Good, Step, Tally, Stepped;
    GoodQueue(u);
    ReachHead(u, c, e);
    StepGood(u, now);
    StepKeepsTame(u, now);
    StepStepped(u, now);
    StepTakes(u, now);
    StepState(u, now);
  }

  lemma StepTakes(u: Unit, now: int)
    requires u.events != [] && Queued(u)
    ensures Tally(Step(u, now).events).takes == Tally(u.events[1..]).takes
    ensures Tally(u.events).takes == Tally(u.events[1..]).takes + if u.events[0].what.Taken? then 1 else 0
    ensures forall e | e in u.events[1..] :: e in Step(u, now).events
  {
    hide Tally, Step, Altered, Follows, Labour, One, OneMore;
    StepStepped(u, now);
    FollowsKinds(u.m, u.events[0].what);
    TakesOf(u.events[0].what, Tally(u.events[1..]));
  }

  lemma {:induction false} RunDueReach(u: Unit, now: int, c: Core, e: int)
    requires Reach(u, c, e) && u.busyUntil <= now
    ensures var v := RunDue(u, now);
            if e <= now then Emptied(v, now, c) else Reach(v, c, e) && v.busyUntil <= now
    decreases DueCount(u.events, now)
  {
    hide Good, Fire, Tally, Outlook, Fresh, Ages, Ran;
    GoodQueue(u);
    if u.events != [] && u.events[0].when <= now {
      var v := Step(u, now);
      FireDue(Popped(u), u.events[0].what, now);
      StepReach(u, now, c, e);
      if u.events[0].what.Taken? {
        NoMotionArrived(v);
        RunDueAges(v, now);
        AgesGood(v, RunDue(v, now));
        AgesCalm(v, RunDue(v, now));
        LatchRises(v, now);
      } else {
        RunDueReach(v, now, c, e);
      }
    } else {
      AllFuture(u.events, now);
    }
  }

  lemma ReachSame(u: Unit, v: Unit, c: Core, e: int)
    requires Reach(u, c, e) && SameMachine(u, v) && Good(v)
    ensures Reach(v, c, e)
  {
    hide Good;
  }

  lemma EmptiedSame(u: Unit, v: Unit, now: int, c: Core)
    requires Emptied(u, now, c) && SameMachine(u, v) && Good(v) && v.busyUntil == u.busyUntil
    requires v.m.ackTimeout == u.m.ackTimeout
    ensures Emptied(v, now, c)
  {
    hide Good, Tally, Foresee;
  }

  lemma EmptiedRuns(u: Unit, now: int, c: Core, later: int)
    requires Emptied(u, now, c)
    ensures Emptied(RunDue(u, later), now, c)
  {
    hide Good, RunDue, Outlook, Fresh, Tame, NoHands, NoMotion, Ran;
    RunDueAges(u, later);
    LatchRises(u, later);
  }

  /** One poll while a hand reaches for the disc. */
  lemma ReachPoll(s: Sim, c: Core, e: int)
    requires Reach(s.u, c, e) && s.u.busyUntil <= s.now
    ensures var f, p := Found(s), Poll(s);
            if e <= f.now then Emptied(f.u, f.now, c) && Emptied(p.u, f.now, c)
            else
              && Reach(f.u, c, e)
              && if e <= p.now then Emptied(p.u, p.now, c) else Reach(p.u, c, e) && p.u.busyUntil <= p.now
  {
    hide Reach, Emptied, Good, Receive, RunDue, SameMachine, OnlyTalked;
    var f := Found(s);
    RunDueReach(s.u, f.now, c, e);
    var v := Receive(f.u, f.now, CMD_REQUEST_STATE, NO_ARGS).u;
    ReceiveStatus(f.u, f.now);
    PassiveReceive(f.u, f.now, CMD_REQUEST_STATE, NO_ARGS);
    ReceiveFlags(f.u, f.now, CMD_REQUEST_STATE, NO_ARGS);
    ReadsOnce(Sim(v, f.now));
    if e <= f.now { EmptiedGood(f.u, f.now, c); } else { ReachGood(f.u, c, e); }
    PassiveAges(f.u, f.now, CMD_REQUEST_STATE, NO_ARGS);
    AgesGood(f.u, v);
    if e <= f.now {
      EmptiedSame(f.u, v, f.now, c);
      EmptiedRuns(v, f.now, c, f.now + POLL_MS);
    } else {
      ReachSame(f.u, v, c, e);
      RunDueReach(v, f.now + POLL_MS, c, e);
    }
  }

  lemma EmptiedGood(u: Unit, now: int, c: Core)
    requires Emptied(u, now, c)
    ensures Good(u) && u.m.discInBay == false
  {
    hide Good, Outlook;
    NoMotionArrived(u);
  }

  lemma ReachGood(u: Unit, c: Core, e: int)
    requires Reach(u, c, e)
    ensures Good(u) && u.m.discInBay
  {
    hide Good;
  }

  lemma BaySample(s: Sim)
    ensures Shows(Sample(s), ST_DISC_IN_BAY, 0) <==> !Found(s).u.m.discInBay
  {
    hide StatusWord, Found;
    SampleIs(s);
    MasksDecode(Found(s).u, Found(s).now);
  }

  lemma EmptiedPrompt(s: Sim, c: Core, now: int)
    requires Emptied(s.u, now, c) && now <= s.now && c.position <= 100
    ensures Prompt(s) && Outlook(s.u) == c.(bay := false) && s.u.m.ackTimeout
  {
    hide Good, Outlook, Calm, NoMotion;
  }

  /** A disc that is gone is reported gone at the next look. */
  lemma GoneAtOnce(s: Sim, c: Core, now: int, deadline: int)
    requires Emptied(s.u, now, c) && now <= s.now && c.position <= 100
    ensures var w := WaitRun(s, ST_DISC_IN_BAY, 0, deadline);
            w == Watch(Poll(s), true) && Prompt(w.s) && Outlook(w.s.u) == c.(bay := false) && w.s.u.m.ackTimeout
  {
    hide Good, Poll, Sample, Found, Outlook, Fresh, Ages, Tame, NoHands;
    EmptiedPrompt(s, c, now);
    FoundPasses(s);
    AgesCalm(s.u, Found(s).u);
    NoMotionArrived(Found(s).u);
    BaySample(s);
    PollPasses(s);
    PassesPrompt(s, Poll(s));
  }

  /** A take is reported if and only if it comes no later than the wait's last look. */
  lemma {:induction false} TakeSeen(s: Sim, c: Core, e: int, deadline: int)
    requires Reach(s.u, c, e) && s.u.busyUntil <= s.now < deadline && c.position <= 100
    ensures var w := WaitRun(s, ST_DISC_IN_BAY, 0, deadline);
            && (w.ok <==> e <= LastLook(s.now, deadline))
            && (w.ok ==> Prompt(w.s) && Outlook(w.s.u) == c.(bay := false) && w.s.u.m.ackTimeout)
    decreases deadline - s.now
  {
    hide Reach, Emptied, Good, Poll, Sample, Found, Outlook, Prompt, Shows, LastLook;
    NextLook(s.now, deadline);
    ReachPoll(s, c, e);
    PollTakes(s);
    FoundTakes(s);
    BaySample(s);
    var f, p := Found(s), Poll(s);
    if e <= f.now {
      EmptiedGood(f.u, f.now, c);
      EmptiedPrompt(p, c, f.now);
    } else {
      ReachGood(f.u, c, e);
      if p.now < deadline {
        if e <= p.now { GoneAtOnce(p, c, p.now, deadline); } else { TakeSeen(p, c, e, deadline); }
      }
    }
  }

  /** A disc in the bay of a quiet unit is nobody's to take: the wait gives up and nothing has changed. */
  lemma {:induction false} NobodyTakes(s: Sim, deadline: int)
    requires Quiet(s) && Outlook(s.u).bay
    ensures !WaitRun(s, ST_DISC_IN_BAY, 0, deadline).ok
    decreases deadline - s.now
  {
    hide Quiet, Poll, Sample, Outlook, Prompt, OnlyBlips, Shows;
    PollTakes(s);
    PollQuiet(s);
    QuietSampleBay(s);
    if Poll(s).now < deadline { NobodyTakes(Poll(s), deadline); }
  }

  lemma QuietSampleBay(s: Sim)
    requires Quiet(s)
    ensures Shows(Sample(s), ST_DISC_IN_BAY, 0) <==> !Outlook(s.u).bay
  {
    hide Good, Found, StatusWord, Outlook, Prompt, Fresh, NoMotion;
    FoundQuiet(s);
    BaySample(s);
  }

  /** The hand reaches out. */
  lemma TakeScheduled(s: Sim, e: int)
    requires Quiet(s) && Outlook(s.u).bay && s.now <= e
    ensures var u := At(s.u, e, Taken);
            Reach(u, Outlook(s.u), e) && u.busyUntil <= s.now && Accounted(s.u, u)
  {
    hide Tally, Sorted, NeverTurnedLoaded, Enqueue, Outlook, Foresee;
    QuietGood(s);
    AtLaws(s.u, e, Taken);
  }

  /** What watching for the disc reports, and how it leaves one that it saw. */
  ghost predicate Notices(s: Sim, t: Sim, timeout: nat, c: Core, e: int, lone: bool, seen: bool) {
    && seen == (e <= LastLook(s.now, s.now + timeout))
    && (seen ==> Fed(t, lone) && CoreOf(t.u.m) == c)
  }

  lemma InsertNoticed(s: Sim, timeout: nat, c: Core, e: int, lone: bool)
    requires In(s, c, Awaited(e), lone) && timeout > 0
    ensures var w := WaitRun(s, ST_DISC_WAITING, ST_DISC_WAITING, s.now + timeout);
            Notices(s, w.s, timeout, c, e, lone, w.ok)
  {
    hide WaitRun, LastLook;
    var b := InsertSeen(s, c, e, lone, s.now + timeout);
    var w := WaitRun(s, ST_DISC_WAITING, ST_DISC_WAITING, s.now + timeout);
    if w.ok { SeenCore(w.s, c, b, lone); }
  }

  lemma SeenCore(s: Sim, c: Core, b: int, lone: bool)
    requires In(s, c, Seen(b), lone)
    ensures CoreOf(s.u.m) == c
  {
    hide Good, Fresh, NoHands, Acts;
  }

  /** What watching the bay reports while a hand reaches for the disc. */
  ghost predicate Misses(s: Sim, t: Sim, timeout: nat, c: Core, e: int, gone: bool) {
    && gone == (e <= LastLook(s.now, s.now + timeout))
    && (gone ==> Prompt(t) && Outlook(t.u) == c.(bay := false) && t.u.m.ackTimeout)
  }

  lemma AccountedTransitive(u: Unit, v: Unit, w: Unit)
    requires Accounted(u, v) && Accounted(v, w)
    ensures Accounted(u, w)
  {
    hide Fitting, Discs;
  }

  lemma KeptAccounted(s: Sim, t: Sim)
    requires Minded(s, t)
    ensures Accounted(s.u, t.u) && Drops(s.u.w, t.u.w) && Sound(t) && LastExpiry(t.u.events) <= LastExpiry(s.u.events)
    ensures Reaching(t.u) <= Reaching(s.u)
  {
    hide Accounted, Good, Tame, LastExpiry, Reaching;
  }

  lemma AgesAccounted(u: Unit, v: Unit)
    requires Ages(u, v)
    ensures Accounted(u, v) && Good(v) && Drops(u.w, v.w) && Onward(u, v)
  {
  }

  lemma SurvivesAccounted(u: Unit, v: Unit, cmd: Byte)
    requires Survives(u, v, cmd)
    ensures Accounted(u, v) && Good(v) && Drops(u.w, v.w) && Bears(u, v, cmd) && Reaching(v) <= Reaching(u)
  {
  }

  lemma FedGood(s: Sim)
    requires Fed(s, false) || Fed(s, true)
    ensures Good(s.u)
  {
  }

  lemma LostIngest(s: Sim)
    ensures forall t :: TakesIn(s, t, Lost) && Loads(s, t, Lost)
  {
  }

  lemma IngestUnsettled(s: Sim, w: Sim)
    requires IdleRun(s, SETTLE_WAIT_MS) == Watch(w, false) && Ages(s.u, w.u)
    ensures Fed(s, false) ==> TakesIn(s, w, Failed(NeverSettled))
    ensures !Fed(s, true)
  {
    hide Fed, WaitRun, Ages, Sound, Accounted, TimersBy, Claimed, Outlook, Reaching;
    AgesAccounted(s.u, w.u);
    AgesReaching(s.u, w.u);
    if Fed(s, false) { SettleFails(s, false); }
    if Fed(s, true) { SettleFails(s, true); }
  }

  lemma IngestUnheard(s: Sim, w: Sim, e: Sim)
    requires IdleRun(s, SETTLE_WAIT_MS) == Watch(w, true) && Ages(s.u, w.u)
    requires RequireRun(w, CMD_ACCEPT_DISC, NO_ARGS, TRIES) == Exchange(e, None) && Survives(w.u, e.u, CMD_ACCEPT_DISC)
    ensures Fed(s, false) ==> TakesIn(s, e, Failed(NotAcknowledged))
    ensures Fed(s, true) && s.u.m.position <= 100 ==> Loads(s, e, Failed(NotAcknowledged))
  {
    hide Fed, WaitRun, Ages, Sound, Accounted, TimersBy, Survives, RequireRun, Prompt, Outlook, BayFull, Unlucky,
         OnlyBlips, Onward, Claims, Reaching;
    AgesAccounted(s.u, w.u);
    AgesReaching(s.u, w.u);
    RequireLost(w, CMD_ACCEPT_DISC, NO_ARGS, TRIES);
    AgesAccounted(w.u, e.u);
    AgesReaching(w.u, e.u);
    OnwardTransitive(s.u, w.u, e.u);
    OnwardClaims(s.u, e.u);
    SurvivesAccounted(w.u, e.u, CMD_ACCEPT_DISC);
    AccountedTransitive(s.u, w.u, e.u);
    if Fed(s, false) { AcceptFollows(s, false); }
    if Fed(s, true) && s.u.m.position <= 100 { AcceptFollows(s, true); }
  }

  lemma IngestHeard(s: Sim, w: Sim, e: Sim, t: Sim, idle: bool)
    requires IdleRun(s, SETTLE_WAIT_MS) == Watch(w, true) && Ages(s.u, w.u)
    requires RequireRun(w, CMD_ACCEPT_DISC, NO_ARGS, TRIES).s == e && Survives(w.u, e.u, CMD_ACCEPT_DISC)
    requires RequireRun(w, CMD_ACCEPT_DISC, NO_ARGS, TRIES).reply.Some?
    requires Watch(t, idle) == IdleRun(e, SETTLE_WAIT_MS) && (Sound(e) ==> Kept(e, t))
    ensures var r := if idle then Ok(()) else Failed(TimedOut);
            (Fed(s, false) ==> TakesIn(s, t, r)) && (Fed(s, true) && s.u.m.position <= 100 ==> Loads(s, t, r))
  {
    hide Onward, Bears, Claims, Fed, WaitRun, Ages, Sound, Accounted, Survives, RequireRun, Prompt, Outlook, Filled,
         BayFull, Kept, Quiet, SameUpToBlips, TakesIn, Loads, TimersBy, Reaching;
    AgesAccounted(s.u, w.u);
    AgesReaching(s.u, w.u);
    SurvivesAccounted(w.u, e.u, CMD_ACCEPT_DISC);
    AccountedTransitive(s.u, w.u, e.u);
    OnwardThenBears(s.u, w.u, e.u, CMD_ACCEPT_DISC);
    if Fed(s, false) {
      AcceptFollows(s, false);
      BearsAccept(s.u, e.u);
      IngestEnds(s, e, t, idle);
    }
    if Fed(s, true) && s.u.m.position <= 100 {
      AcceptFollows(s, true);
      LoadEnds(s, e, t, idle);
    }
  }

  lemma IngestEnds(s: Sim, e: Sim, t: Sim, idle: bool)
    requires Sound(e) && Accounted(s.u, e.u) && Drops(s.u.w, e.u.w) && TimersBy(e.u, e.now + 9_900)
    requires Claims(s.u, e.u, {Outlook(s.u).position})
    requires Reaching(e.u) <= Reaching(s.u) && (Reaching(s.u) <= MOST_HANDS ==> IdleRun(e, SETTLE_WAIT_MS).ok)
    requires Watch(t, idle) == IdleRun(e, SETTLE_WAIT_MS) && (Sound(e) ==> Kept(e, t))
    ensures TakesIn(s, t, if idle then Ok(()) else Failed(TimedOut))
  {
    hide WaitRun, Sound, Accounted, Minded, LastExpiry, Claimed, Outlook, Reaching;
    WaitTakes(e, ST_BUSY, 0, e.now + SETTLE_WAIT_MS);
    KeptAccounted(e, t);
    AccountedTransitive(s.u, e.u, t.u);
  }

  lemma OnwardClaims(u: Unit, v: Unit)
    requires Onward(u, v)
    ensures Claims(u, v, {})
  {
    hide Claimed;
  }

  lemma BearsAccept(u: Unit, v: Unit)
    requires Bears(u, v, CMD_ACCEPT_DISC)
    ensures Claims(u, v, {Outlook(u).position})
  {
    hide Claimed, Outlook;
  }

  lemma LoadEnds(s: Sim, e: Sim, t: Sim, idle: bool)
    requires Prompt(e) && Outlook(e.u) == Filled(CoreOf(s.u.m)) && Watch(t, idle) == IdleRun(e, SETTLE_WAIT_MS)
    requires OnlyBlips(s.u.w, e.u.w)
    ensures Loads(s, t, if idle then Ok(()) else Failed(TimedOut))
  {
    hide WaitRun, Prompt, Outlook, Quiet, OnlyBlips, Filled, Unlucky;
    SettleSame(e);
    SameQuiet(e, t);
    OnlyBlipsTransitive(s.u.w, e.u.w, t.u.w);
  }

  lemma SameQuiet(s: Sim, t: Sim)
    requires SameUpToBlips(s, t)
    ensures Quiet(t)
  {
  }
}
