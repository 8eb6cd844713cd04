/**
 Every course of events the unit can go through: time passing, commands arriving
 at any moment, discs fed and taken by any hands. What holds after all of them,
 and what holds after those that keep the host's rules.
 */
module Courses {
  import opened Firmware
  import opened FirmwareLaws
  import opened CommandLaws
  import opened Runs
  import opened Motions

  datatype Deed =
    | Wait(ms: nat)
    | Hear(cmd: Byte, args: Args)
    | Feed(at: int)
    | Take(at: int)

  function Do(s: Sim, d: Deed): Sim {
    match d
    case Wait(ms) => Sim(RunDue(s.u, s.now + ms), s.now + ms)
    case Hear(cmd, args) => Sim(Handle(s.u, s.now, cmd, args).u, s.now)
    case Feed(at) => Sim(At(s.u, at, DiscArrives), s.now)
    case Take(at) => Sim(At(s.u, at, Taken), s.now)
  }

  function Course(s: Sim, ds: seq<Deed>): Sim
    decreases |ds|
  {
    if ds == [] then s else Course(Do(s, ds[0]), ds[1..])
  }

  // -- any course ----------------------------------------------------------

  ghost predicate Covering(u: Unit) { Queued(u) && Covered(u) }

  lemma AtCovering(u: Unit, v: Unit, when: int, what: Happening)
    requires Queued(u) && v == At(u, when, what) && (Motion(what) ==> when <= u.busyUntil)
    requires forall e | e in u.events :: Motion(e.what) ==> e.when <= u.busyUntil
    requires u.m.discWaiting ==> exists e :: e in u.events && e.what == DrawnOff
    ensures Covering(v)
  {
    hide Tally, One, Plus, Enqueue, Sorted, Motion;
    AtLaws(u, when, what);
  }

  lemma {:induction false} RunDueCovering(u: Unit, now: int)
    requires Covering(u)
    ensures Covering(RunDue(u, now))
    decreases DueCount(u.events, now)
  {
    hide Covered, Fire, Altered, Labour, Tally;
    if u.events != [] && u.events[0].when <= now {
      StepStepped(u, now);
      SteppedCovered(u, Step(u, now), now);
      FireDue(Popped(u), u.events[0].what, now);
      RunDueCovering(Step(u, now), now);
    }
  }

  lemma BeginCovering(u: Unit, m: Machine, w: Wire, now: int, ms: nat, delay: int, what: Happening)
    requires Covering(u) && m.discWaiting == u.m.discWaiting && delay <= ms
    ensures Covering(Begin(u, m, w, now, ms, delay, what))
  {
    hide Enqueue, Motion, Sorted;
    var v := WorkFor(u.(m := m, w := w), now, ms, true);
    AtCovering(v, Begin(u, m, w, now, ms, delay, what), now + delay, what);
  }

  lemma PerformCovering(u: Unit, l: Unit, now: int, cmd: Byte, args: Args)
    requires Covering(u) && l == Listening(u, cmd, args)
    ensures Covering(Perform(l, now, cmd, args).u)
  {
    hide StatusReply, SerialReply, Enqueue, Sorted, Motion, SeekMs;
    var m := u.m;
    if cmd == CMD_SET_POS {
      SetPosBegins(u, now, args);
      BeginCovering(u, m.(ackTimeout := false, retracted := false), l.w, now, MoveMs(m, args), Travel(m, args),
                    Arrived(args.x1, Presenting(m, args)));
    } else if cmd == CMD_RETRACT {
      BeginCovering(u, m, l.w, now, RETRACT_MS, RETRACT_BAY_MS, BackInSlot);
    } else if cmd == CMD_ACCEPT_DISC && m.newDiscAck {
      BeginCovering(u, m.(newDiscAck := false), l.w, now, INGEST_MS, INGEST_MS, Stored(m.position));
    }
  }

  lemma ReceiveCovering(u: Unit, now: int, cmd: Byte, args: Args)
    requires Covering(u)
    ensures Covering(Receive(u, now, cmd, args).u)
  {
    hide Receive, Perform, Sorted, Motion;
    if Receive(u, now, cmd, args).reply.Some? {
      ReceiveHeard(u, now, cmd, args);
      PerformCovering(u, Listening(u, cmd, args), now, cmd, args);
    } else {
      ReceiveUnheard(u, now, cmd, args);
    }
  }

  lemma DoCovering(s: Sim, d: Deed)
    requires Covering(s.u)
    ensures Covering(Do(s, d).u)
  {
    hide Receive, RunDue, Sorted, At;
    match d
    case Wait(ms) => RunDueCovering(s.u, s.now + ms);
    case Hear(cmd, args) =>
      RunDueCovering(s.u, s.now);
      ReceiveCovering(RunDue(s.u, s.now), s.now, cmd, args);
    case Feed(at) => AtCovering(s.u, At(s.u, at, DiscArrives), at, DiscArrives);
    case Take(at) => AtCovering(s.u, At(s.u, at, Taken), at, Taken);
  }

  /** Whatever anyone does to the unit, no motion ever outlasts its busy window. */
  lemma {:induction false} AlwaysCovering(s: Sim, ds: seq<Deed>)
    requires Covering(s.u)
    ensures Covering(Course(s, ds).u)
    decreases |ds|
  {
    hide Covering, Do;
    if ds != [] {
      DoCovering(s, ds[0]);
      AlwaysCovering(Do(s, ds[0]), ds[1..]);
    }
  }

  /**
   So a reply that says the unit is idle says that it has finished: in every
   state it can get into, nothing is moving and no disc is at the aperture.
   */
  lemma IdleAlwaysMeansDone(s: Sim, ds: seq<Deed>)
    requires Covering(s.u)
    ensures var t := Course(s, ds);
            var v := RunDue(t.u, t.now);
            !Busy(v, t.now) ==> (forall e | e in v.events :: !Motion(e.what)) && !v.m.discWaiting
  {
    hide Course, RunDue, Motion;
    AlwaysCovering(s, ds);
    var t := Course(s, ds);
    var v := RunDue(t.u, t.now);
    RunDueCovering(t.u, t.now);
    RunDueLeaves(t.u, t.now);
    assert forall h: Happening :: h == DrawnOff ==> Motion(h) by { DrawnMoves(); }
  }

  lemma DrawnMoves()
    ensures Motion(DrawnOff)
  {
  }

  lemma {:induction false} RunDueLeaves(u: Unit, now: int)
    requires Queued(u)
    ensures Fresh(RunDue(u, now), now)
    decreases DueCount(u.events, now)
  {
    hide Fire, Altered, Labour, Tally;
    if u.events != [] && u.events[0].when <= now {
      StepStepped(u, now);
      FireDue(Popped(u), u.events[0].what, now);
      RunDueLeaves(Step(u, now), now);
    } else {
      AllFuture(u.events, now);
    }
  }

  // -- a course that keeps the host's rules --------------------------------

  /** No move with anything at the mouth, and no disc fed but to a resting, empty-mouthed unit. */
  predicate Careful(s: Sim, d: Deed) {
    match d
    case Wait(_) => true
    case Hear(cmd, _) => Fit(RunDue(s.u, s.now), cmd)
    case Feed(at) => Load(s.u) == 0 && NoMotion(s.u)
    case Take(_) => true
  }

  predicate AllCareful(s: Sim, ds: seq<Deed>)
    decreases |ds|
  {
    ds == [] || (Careful(s, ds[0]) && AllCareful(Do(s, ds[0]), ds[1..]))
  }

  lemma FeedGood(u: Unit, at: int)
    requires Good(u) && Load(u) == 0 && NoMotion(u)
    ensures Good(At(u, at, DiscArrives))
  {
    hide Tally, Sorted, NeverTurnedLoaded, Enqueue;
    AtLaws(u, at, DiscArrives);
  }

  /** A hand may reach for the bay at any time at all. */
  lemma TakeAnytime(u: Unit, at: int)
    requires Good(u)
    ensures Good(At(u, at, Taken)) && Accounted(u, At(u, at, Taken))
    ensures Tame(u) ==> Tame(At(u, at, Taken))
    ensures LastExpiry(At(u, at, Taken).events) <= LastExpiry(u.events)
  {
    hide Tally, Sorted, NeverTurnedLoaded, Enqueue, LastExpiry;
    AtLaws(u, at, Taken);
    EnqueueExpiry(u.events, Event(at, u.seqno + 1, Taken));
    LastExpiryNonNegative(u.events);
  }

  lemma DoGood(s: Sim, d: Deed)
    requires Good(s.u) && Careful(s, d)
    ensures Good(Do(s, d).u)
  {
    hide Receive, RunDue, Good, Load, NoMotion, At, Ages, Fit, Fresh;
    match d
    case Wait(ms) =>
      RunDueAges(s.u, s.now + ms);
      AgesGood(s.u, RunDue(s.u, s.now + ms));
    case Hear(cmd, args) =>
      var v := RunDue(s.u, s.now);
      RunDueAges(s.u, s.now);
      AgesGood(s.u, v);
      ReceiveSurvives(v, s.now, cmd, args);
      SurvivesGood(v, Receive(v, s.now, cmd, args).u, cmd);
    case Feed(at) => FeedGood(s.u, at);
    case Take(at) => TakeAnytime(s.u, at);
  }

  /** Along any such course at most one disc is ever on its way, and none is ever turned with. */
  lemma {:induction false} AlwaysGood(s: Sim, ds: seq<Deed>)
    requires Good(s.u) && AllCareful(s, ds)
    ensures Good(Course(s, ds).u)
    decreases |ds|
  {
    hide Good, Do, Careful;
    if ds != [] {
      DoGood(s, ds[0]);
      AlwaysGood(Do(s, ds[0]), ds[1..]);
    }
  }

  lemma CarefulNeverTurns(s: Sim, ds: seq<Deed>)
    requires Good(s.u) && AllCareful(s, ds)
    ensures NeverTurnedLoaded(Course(s, ds).u.w.log) && Load(Course(s, ds).u) <= 1
  {
    hide AllCareful, Course, Queued, Covered, Tally;
    AlwaysGood(s, ds);
  }

  // -- how long it can be busy ---------------------------------------------

  /**
   The busy window reaches no further ahead than the longest move, and nothing turns
   the carousel past its last slot.
   */
  ghost predicate Bounded(u: Unit, now: int) {
    && u.busyUntil <= now + BUSIEST_MS && u.m.position <= 100
    && forall e | e in u.events && e.what.Arrived? :: e.what.target <= 100
  }

  /** Moves are sent to slots that exist. */
  predicate ToSlots(ds: seq<Deed>) {
    forall d | d in ds && d.Hear? && d.cmd == CMD_SET_POS :: d.args.x1 <= 100
  }

  lemma AtBounded(u: Unit, now: int, when: int, what: Happening)
    requires Bounded(u, now) && (what.Arrived? ==> what.target <= 100)
    ensures Bounded(At(u, when, what), now)
  {
    hide Enqueue;
    EnqueueMembers(u.events, Event(when, u.seqno + 1, what));
  }

  lemma StepBounded(u: Unit, now: int)
    requires Bounded(u, now) && u.events != [] && Queued(u)
    ensures Bounded(Step(u, now), now)
  {
    hide Step, Altered, Labour, Follows, Tally;
    StepStepped(u, now);
    AlteredPosition(u.m, u.events[0].what);
    LabourBound(u.m, u.events[0].what);
    NextFillsNothing(u.m, u.m, u.events[0].what, 0);
    assert u.events[0] in u.events;
  }

  lemma LabourBound(m: Machine, h: Happening)
    ensures Labour(m, h) <= BUSIEST_MS
  {
  }

  lemma {:induction false} RunDueBounded(u: Unit, now: int)
    requires Bounded(u, now) && Queued(u)
    ensures Bounded(RunDue(u, now), now) && Queued(RunDue(u, now))
    decreases DueCount(u.events, now)
  {
    hide Fire, Bounded, Sorted;
    if u.events != [] && u.events[0].when <= now {
      StepBounded(u, now);
      StepCount(u, now);
      FireDue(Popped(u), u.events[0].what, now);
      RunDueBounded(Step(u, now), now);
      assert RunDue(u, now) == RunDue(Step(u, now), now);
    }
  }

  lemma PerformBounded(u: Unit, now: int, cmd: Byte, args: Args)
    requires Bounded(u, now) && (cmd == CMD_SET_POS ==> args.x1 <= 100)
    ensures Bounded(Perform(Listening(u, cmd, args), now, cmd, args).u, now)
  {
    hide StatusReply, SerialReply, Enqueue, SeekMs;
    var l := Listening(u, cmd, args);
    if cmd == CMD_SET_POS {
      SetPosBegins(u, now, args);
      TravelBound(u.m, args);
      var v := WorkFor(u.(m := u.m.(ackTimeout := false, retracted := false), w := l.w), now, MoveMs(u.m, args), true);
      AtBounded(v, now, now + Travel(u.m, args), Arrived(args.x1, Presenting(u.m, args)));
    } else if cmd == CMD_RETRACT {
      AtBounded(WorkFor(l, now, RETRACT_MS, true), now, now + RETRACT_BAY_MS, BackInSlot);
    } else if cmd == CMD_ACCEPT_DISC && u.m.newDiscAck {
      AtBounded(WorkFor(l.(m := l.m.(newDiscAck := false)), now, INGEST_MS, true), now, now + INGEST_MS,
                Stored(u.m.position));
    }
  }

  lemma ReceiveBounded(u: Unit, now: int, cmd: Byte, args: Args)
    requires Bounded(u, now) && (cmd == CMD_SET_POS ==> args.x1 <= 100)
    ensures Bounded(Receive(u, now, cmd, args).u, now)
  {
    hide Receive, Perform;
    if Receive(u, now, cmd, args).reply.Some? {
      ReceiveHeard(u, now, cmd, args);
      PerformBounded(u, now, cmd, args);
    } else {
      ReceiveUnheard(u, now, cmd, args);
    }
  }

  lemma DoBounded(s: Sim, d: Deed)
    requires Covering(s.u) && Bounded(s.u, s.now) && ToSlots([d])
    ensures Bounded(Do(s, d).u, Do(s, d).now)
  {
    hide Receive, RunDue, At, Covered, Sorted;
    assert d in [d];
    match d
    case Wait(ms) => RunDueBounded(s.u, s.now + ms);
    case Hear(cmd, args) =>
      RunDueBounded(s.u, s.now);
      ReceiveBounded(RunDue(s.u, s.now), s.now, cmd, args);
    case Feed(at) => AtBounded(s.u, s.now, at, DiscArrives);
    case Take(at) => AtBounded(s.u, s.now, at, Taken);
  }

  /** Whatever anyone does to the unit, it is never busy for longer than its longest move. */
  lemma {:induction false} AlwaysBounded(s: Sim, ds: seq<Deed>)
    requires Covering(s.u) && Bounded(s.u, s.now) && ToSlots(ds)
    ensures Bounded(Course(s, ds).u, Course(s, ds).now)
    decreases |ds|
  {
    hide Covering, Do, Bounded;
    if ds != [] {
      DoCovering(s, ds[0]);
      DoBounded(s, ds[0]);
      AlwaysBounded(Do(s, ds[0]), ds[1..]);
    }
  }

  lemma {:induction false} ForeseeBounded(c: Core, q: seq<Event>)
    requires c.position <= 100 && forall e | e in q && e.what.Arrived? :: e.what.target <= 100
    ensures Foresee(c, q).position <= 100
    decreases q
  {
    if q != [] {
      assert q[0] in q;
      ForeseeBounded(Foreseen(c, q[0].what), q[1..]);
    }
  }

  /** So every calm state a unit can get into by such a course is one a move can be relied on in. */
  lemma AlwaysPrompt(s: Sim, ds: seq<Deed>)
    requires Good(s.u) && Bounded(s.u, s.now) && AllCareful(s, ds) && ToSlots(ds)
    ensures Calm(Course(s, ds).u) ==> Prompt(Course(s, ds))
  {
    hide Course, AllCareful, Sorted, Orderly, Covered, Tame, Foresee;
    AlwaysGood(s, ds);
    AlwaysBounded(s, ds);
    var t := Course(s, ds);
    ForeseeBounded(CoreOf(t.u.m), t.u.events);
  }
}
