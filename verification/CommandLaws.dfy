/**
 What one command does to the unit: a dropped or passive one changes nothing
 that matters, and each of the three actuating ones starts exactly one motion,
 whose outcome is known from the moment it is heard.
 */
module CommandLaws {
  import opened Wrappers
  import opened Firmware
  import opened FirmwareLaws

  // -- idleness ------------------------------------------------------------

  lemma OneMoving(h: Happening)
    ensures Moving(One(h)) > 0 || One(h).drawn > 0 <==> Motion(h)
    ensures Moving(One(h)) == 0 ==> forall c :: Foreseen(c, h) == c
  {
    match h
    case Arrived(_, presenting) => case _ =>
  }

  lemma {:induction false} MotionWitness(q: seq<Event>)
    requires Moving(Tally(q)) + Tally(q).drawn > 0
    ensures exists e :: e in q && Motion(e.what)
  {
    hide One, Motion;
    if q != [] {
      TallyHead(q);
      OneMoving(q[0].what);
      if !Motion(q[0].what) {
        MotionWitness(q[1..]);
        assert q == [q[0]] + q[1..];
      }
    }
  }

  lemma {:induction false} StillForesees(c: Core, q: seq<Event>)
    requires Moving(Tally(q)) == 0
    ensures Foresee(c, q) == c
    decreases q
  {
    hide Tally, One, Foreseen;
    if q != [] {
      TallyHead(q);
      OneMoving(q[0].what);
      StillForesees(c, q[1..]);
    }
  }

  lemma {:induction false} MotionForesees(c: Core, q: seq<Event>, e: Event)
    requires Moving(Tally(q)) == 0
    ensures Foresee(c, Enqueue(q, e)) == Foreseen(c, e.what)
    decreases q
  {
    hide Tally, One, Foreseen;
    if q == [] || Before(e, q[0]) {
      assert ([e] + q)[1..] == q;
      StillForesees(Foreseen(c, e.what), q);
    } else {
      TallyHead(q);
      OneMoving(q[0].what);
      MotionForesees(c, q[1..], e);
      assert ([q[0]] + Enqueue(q[1..], e))[1..] == Enqueue(q[1..], e);
    }
  }

  lemma FreshIdle(u: Unit, now: int)
    requires Good(u) && Fresh(u, now) && !Busy(u, now)
    ensures forall e | e in u.events :: !Motion(e.what)
    ensures !u.m.discWaiting
  {
    hide Tally, Orderly, Queued, NeverTurnedLoaded;
  }

  /**
   A unit that reports itself idle has finished: nothing is moving, no disc is
   at the aperture, and where it stands is where it was heading.
   */
  lemma IdleMeansDone(u: Unit, now: int)
    requires Good(u) && Fresh(u, now) && !Busy(u, now)
    ensures NoMotion(u) && !u.m.discWaiting && Tally(u.events).drawn == 0 && Outlook(u) == CoreOf(u.m)
  {
    hide Tally, Good, Motion, Fresh, Busy;
    FreshIdle(u, now);
    if Moving(Tally(u.events)) + Tally(u.events).drawn > 0 {
      MotionWitness(u.events);
    }
    StillForesees(CoreOf(u.m), u.events);
  }

  // -- what the unit hears -------------------------------------------------

  /** A command the unit did not hear left no trace but, perhaps, a blip. */
  ghost predicate Unheard(u: Unit, v: Unit, now: int) {
    && v.m == u.m && v.events == u.events && v.seqno == u.seqno && v.w.log == u.w.log && Drops(u.w, v.w)
    && u.busyUntil <= v.busyUntil <= Max(u.busyUntil, now + BLIP_FOR_MS)
  }

  /** The unit as it stands when it has decided to process a command. */
  function Listening(u: Unit, cmd: Byte, args: Args): Unit {
    u.(w := Log(u.m, if u.w.blips && !AlwaysAnswered(cmd) then Draw(u.w) else u.w, cmd, args))
  }

  /** The unit never refuses what it has heard. */
  lemma PerformReplies(u: Unit, now: int, cmd: Byte, args: Args)
    ensures Perform(u, now, cmd, args).reply.Some?
  {
    hide StatusReply, SerialReply, At, SeekMs, WorkFor;
  }

  lemma ReceiveUnheard(u: Unit, now: int, cmd: Byte, args: Args)
    requires Receive(u, now, cmd, args).reply.None?
    ensures Unheard(u, Receive(u, now, cmd, args).u, now)
  {
    hide Perform, Log;
    PerformReplies(Listening(u, cmd, args), now, cmd, args);
    var r := Receive(u, now, cmd, args);
    if Busy(u, now) && !AlwaysAnswered(cmd) {
      assert r.u == Drop(u, cmd, args, MidMotion).u;
    } else if u.w.blips && !AlwaysAnswered(cmd) && u.w.luck != [] && u.w.luck[0] {
      assert r.u == Drop(WorkFor(u.(w := Draw(u.w)), now, BLIP_FOR_MS, false), cmd, args, Blip).u;
    }
  }

  lemma ReceiveHeard(u: Unit, now: int, cmd: Byte, args: Args)
    requires Receive(u, now, cmd, args).reply.Some?
    ensures Receive(u, now, cmd, args) == Perform(Listening(u, cmd, args), now, cmd, args)
    ensures !Busy(u, now) || AlwaysAnswered(cmd)
    ensures cmd == CMD_SET_POS && args.x1 != 0 ==> u.m.homed
  {
    hide Perform;
  }

  /** Serials and versions are told even in mid-motion. */
  lemma AlwaysHeard(u: Unit, now: int, cmd: Byte, args: Args)
    requires AlwaysAnswered(cmd)
    ensures Receive(u, now, cmd, args) == Perform(Listening(u, cmd, args), now, cmd, args)
    ensures Receive(u, now, cmd, args).reply.Some?
  {
    hide Perform;
    PerformReplies(Listening(u, cmd, args), now, cmd, args);
  }

  lemma SerialTold(u: Unit, now: int, args: Args)
    ensures Handle(u, now, CMD_GET_SERIAL, args).reply == Some(SerialReply(u.w.serial))
  {
    hide SerialReply, RunDue, Receive;
    RunDueWire(u, now);
    AlwaysHeard(RunDue(u, now), now, CMD_GET_SERIAL, args);
  }

  // -- commands that move nothing ------------------------------------------

  /** What an opcode handler returns when it moves nothing. */
  ghost predicate Passive(u: Unit, r: Response) {
    && r.u.events == u.events && r.u.seqno == u.seqno && r.u.busyUntil == u.busyUntil && r.u.w == u.w
    && r.u.m == u.m.(ackTimeout := r.u.m.ackTimeout)
  }

  lemma PassivePerform(u: Unit, now: int, cmd: Byte, args: Args)
    requires !Actuates(cmd)
    ensures Passive(u, Perform(u, now, cmd, args))
  {
    hide StatusReply, SerialReply;
  }

  /** Same machine, same queue; at most the busy window, the latched error and the wire differ. */
  ghost predicate SameMachine(u: Unit, v: Unit) {
    && v.m == u.m.(ackTimeout := v.m.ackTimeout) && v.events == u.events && v.seqno == u.seqno
    && u.busyUntil <= v.busyUntil
  }

  lemma SameMachineGood(u: Unit, v: Unit)
    requires Good(u) && SameMachine(u, v) && NeverTurnedLoaded(v.w.log)
    ensures Good(v) && Accounted(u, v) && Load(v) == Load(u)
  {
    hide Tally, NeverTurnedLoaded, Sorted;
  }

  lemma TalkNeverTurns(a: seq<Heard>, b: seq<Heard>)
    requires NeverTurnedLoaded(a) && OnlyTalked(a, b)
    ensures NeverTurnedLoaded(b)
  {
    forall h | h in b ensures h.cmd == CMD_SET_POS ==> !h.bay {
      var i :| 0 <= i < |b| && b[i] == h;
      if i < |a| { assert b[..|a|][i] == h; }
    }
  }

  lemma SameMachineAges(u: Unit, v: Unit)
    requires Good(u) && SameMachine(u, v) && OnlyTalked(u.w.log, v.w.log) && Drops(u.w, v.w)
    ensures Ages(u, v)
  {
    hide Tally, Foresee, LastExpiry, Queued, Covered, Orderly, NeverTurnedLoaded, OnlyTalked, Load, Accounted, Moving;
    TalkNeverTurns(u.w.log, v.w.log);
    SameMachineGood(u, v);
  }

  /** Anything but a move, a retract or an accept leaves the machine as it was; so does any dropped command. */
  lemma PassiveReceive(u: Unit, now: int, cmd: Byte, args: Args)
    requires Receive(u, now, cmd, args).reply.None? || !Actuates(cmd)
    ensures SameMachine(u, Receive(u, now, cmd, args).u)
    ensures OnlyTalked(u.w.log, Receive(u, now, cmd, args).u.w.log) && Drops(u.w, Receive(u, now, cmd, args).u.w)
  {
    hide Perform, Receive;
    if Receive(u, now, cmd, args).reply.Some? {
      ReceiveHeard(u, now, cmd, args);
      PassivePerform(Listening(u, cmd, args), now, cmd, args);
    } else {
      ReceiveUnheard(u, now, cmd, args);
    }
  }

  lemma PassiveAges(u: Unit, now: int, cmd: Byte, args: Args)
    requires Good(u)
    requires Receive(u, now, cmd, args).reply.None? || !Actuates(cmd)
    ensures Ages(u, Receive(u, now, cmd, args).u)
  {
    hide Good, Ages, Receive, SameMachine, OnlyTalked, Drops;
    PassiveReceive(u, now, cmd, args);
    SameMachineAges(u, Receive(u, now, cmd, args).u);
  }

  // -- commands that start a motion ----------------------------------------

  /** `v` is the idle `u` with exactly one motion begun, and nothing else about its discs changed. */
  ghost predicate Started(u: Unit, v: Unit, what: Happening, until: int) {
    && Good(v)
    && Accounted(u, v)
    && Outlook(v) == Foreseen(CoreOf(u.m), what)
    && v.busyUntil == until
    && LastExpiry(v.events) <= LastExpiry(u.events)
    && Tally(v.events) == Plus(One(what), Tally(u.events))
    && CoreOf(v.m) == CoreOf(u.m)
    && forall slot | Claimed(v, slot) :: Claimed(u, slot) || Fills(u.m, what, slot)
  }

  /** The unit with a motion of `ms` begun on a machine and wire already adjusted for it. */
  function Begin(u: Unit, m: Machine, w: Wire, now: int, ms: nat, delay: int, what: Happening): Unit {
    At(WorkFor(u.(m := m, w := w), now, ms, true), now + delay, what)
  }

  lemma BeginGood(u: Unit, m: Machine, w: Wire, now: int, ms: nat, delay: int, what: Happening)
    requires Good(u) && Fresh(u, now) && !Busy(u, now)
    requires m.discWaiting == u.m.discWaiting && Tidy(m, Plus(One(what), Tally(u.events)))
    requires NeverTurnedLoaded(w.log) && delay <= ms && 0 < ms && !what.DrawnOff?
    ensures var v := Begin(u, m, w, now, ms, delay, what);
            Good(v) && v.busyUntil == now + ms && Tally(v.events) == Plus(One(what), Tally(u.events))
  {
    hide Tally, One, Enqueue, Tidy, Plus, NeverTurnedLoaded, Sorted;
    FreshIdle(u, now);
    AtLaws(WorkFor(u.(m := m, w := w), now, ms, true), now + delay, what);
  }

  lemma BeginFitting(u: Unit, m: Machine, w: Wire, now: int, ms: nat, delay: int, what: Happening)
    requires Good(u) && m.occupied == u.m.occupied && m.position == u.m.position
    requires Fits(u, m, what)
    ensures Accounted(u, Begin(u, m, w, now, ms, delay, what))
  {
    hide Tally, One, Enqueue, Tidy, Plus, Sorted, DiscsOf, Roomy;
    AtLaws(WorkFor(u.(m := m, w := w), now, ms, true), now + delay, what);
  }

  /** A motion that can begin on `m` without a disc going astray. */
  predicate Fits(u: Unit, m: Machine, what: Happening) {
    var c := Plus(One(what), Tally(u.events));
    && DiscsOf(m, c) == DiscsOf(u.m, Tally(u.events))
    && (Roomy(u.m, Tally(u.events)) ==> Roomy(m, c) && SlotAgrees(m, what))
  }

  lemma BeginOutlook(u: Unit, m: Machine, w: Wire, now: int, ms: nat, delay: int, what: Happening)
    requires NoMotion(u) && !what.AckExpired?
    ensures var v := Begin(u, m, w, now, ms, delay, what);
            Outlook(v) == Foreseen(CoreOf(m), what) && LastExpiry(v.events) <= LastExpiry(u.events)
  {
    hide Tally, Foreseen, Enqueue;
    var e := Event(now + delay, u.seqno + 1, what);
    MotionForesees(CoreOf(m), u.events, e);
    EnqueueExpiry(u.events, e);
    LastExpiryNonNegative(u.events);
  }

  lemma BeginClaims(u: Unit, m: Machine, w: Wire, now: int, ms: nat, delay: int, what: Happening)
    requires Good(u) && CoreOf(m) == CoreOf(u.m)
    ensures forall slot | Claimed(Begin(u, m, w, now, ms, delay, what), slot) ::
              Claimed(u, slot) || Fills(u.m, what, slot)
  {
    hide Tally, Enqueue, Sorted;
    AtLaws(WorkFor(u.(m := m, w := w), now, ms, true), now + delay, what);
  }

  lemma BeginStarts(u: Unit, m: Machine, w: Wire, now: int, ms: nat, delay: int, what: Happening)
    requires Good(u) && Fresh(u, now) && !Busy(u, now)
    requires CoreOf(m) == CoreOf(u.m) && m.discWaiting == u.m.discWaiting
    requires Tidy(m, Plus(One(what), Tally(u.events))) && Fits(u, m, what)
    requires NeverTurnedLoaded(w.log) && delay <= ms && 0 < ms && !what.DrawnOff? && !what.AckExpired?
    ensures Started(u, Begin(u, m, w, now, ms, delay, what), what, now + ms)
  {
    hide Tally, One, Enqueue, Tidy, Plus, NeverTurnedLoaded, Good, Fresh, Busy, Foresee, LastExpiry, Foreseen, Fits,
         Accounted, Claimed, Fills;
    IdleMeansDone(u, now);
    BeginClaims(u, m, w, now, ms, delay, what);
    BeginGood(u, m, w, now, ms, delay, what);
    BeginFitting(u, m, w, now, ms, delay, what);
    BeginOutlook(u, m, w, now, ms, delay, what);
  }

  lemma TurnedLater(log: seq<Heard>, h: Heard)
    requires NeverTurnedLoaded(log) && (h.cmd == CMD_SET_POS ==> !h.bay)
    ensures NeverTurnedLoaded(log + [h])
  {
  }

  lemma GoodParts(u: Unit)
    requires Good(u)
    ensures Tidy(u.m, Tally(u.events)) && NeverTurnedLoaded(u.w.log)
  {
  }

  function Presenting(m: Machine, args: Args): bool { args.x2 != 0 && args.x1 in m.occupied }

  function Travel(m: Machine, args: Args): nat {
    SeekMs(m.position, args.x1) + if Presenting(m, args) then PUSH_MS else 0
  }

  function MoveMs(m: Machine, args: Args): nat { Travel(m, args) + if Presenting(m, args) then BAY_MS else 0 }

  /**
   A move heard by an idle, empty-mouthed unit ends where it says, with the disc out
   exactly if it was asked for and there.
   */
  lemma SetPosStarts(u: Unit, now: int, args: Args)
    requires Good(u) && Fresh(u, now) && !Busy(u, now) && Load(u) == 0
    ensures var v := Perform(Listening(u, CMD_SET_POS, args), now, CMD_SET_POS, args).u;
            && Started(u, v, Arrived(args.x1, Presenting(u.m, args)), now + MoveMs(u.m, args))
            && !v.m.ackTimeout && !v.m.newDiscAck
            && v.w.log == u.w.log + [Heard(CMD_SET_POS, args, false, false)]
  {
    hide Tally, Good, Fresh, Started, StatusReply, Foreseen, Enqueue, NeverTurnedLoaded;
    var l := Listening(u, CMD_SET_POS, args);
    var m := u.m.(ackTimeout := false, retracted := false);
    var what := Arrived(args.x1, Presenting(u.m, args));
    GoodParts(u);
    IdleMeansDone(u, now);
    TurnedLater(u.w.log, Heard(CMD_SET_POS, args, false, false));
    BeginStarts(u, m, l.w, now, MoveMs(u.m, args), Travel(u.m, args), what);
    SetPosBegins(u, now, args);
  }

  lemma SetPosBegins(u: Unit, now: int, args: Args)
    ensures var l := Listening(u, CMD_SET_POS, args);
            Perform(l, now, CMD_SET_POS, args).u
            == Begin(u, u.m.(ackTimeout := false, retracted := false), l.w, now, MoveMs(u.m, args), Travel(u.m, args),
                     Arrived(args.x1, Presenting(u.m, args)))
  {
    hide StatusReply, SeekMs, Enqueue;
  }

  /** A retract heard by an idle unit puts whatever is in the bay into the slot behind it. */
  lemma RetractStarts(u: Unit, now: int, args: Args)
    requires Good(u) && Fresh(u, now) && !Busy(u, now)
    ensures var v := Perform(Listening(u, CMD_RETRACT, args), now, CMD_RETRACT, args).u;
            && Started(u, v, BackInSlot, now + RETRACT_MS)
            && v.m == u.m
            && v.w.log == u.w.log + [Heard(CMD_RETRACT, args, u.m.discInBay, u.m.newDiscAck)]
  {
    hide Tally, Good, Fresh, Started, StatusReply, Foreseen, NeverTurnedLoaded;
    var l := Listening(u, CMD_RETRACT, args);
    GoodParts(u);
    IdleMeansDone(u, now);
    TurnedLater(u.w.log, Heard(CMD_RETRACT, args, u.m.discInBay, u.m.newDiscAck));
    BeginStarts(u, u.m, l.w, now, RETRACT_MS, RETRACT_BAY_MS, BackInSlot);
    assert Perform(l, now, CMD_RETRACT, args).u == Begin(u, u.m, l.w, now, RETRACT_MS, RETRACT_BAY_MS, BackInSlot);
  }

  /** An accept heard by an idle unit that has drawn a disc in stores it behind the mouth. */
  lemma AcceptStarts(u: Unit, now: int, args: Args)
    requires Good(u) && Fresh(u, now) && !Busy(u, now) && u.m.newDiscAck
    ensures var v := Perform(Listening(u, CMD_ACCEPT_DISC, args), now, CMD_ACCEPT_DISC, args).u;
            && Started(u, v, Stored(u.m.position), now + INGEST_MS)
            && Tame(v)
            && v.w.log == u.w.log + [Heard(CMD_ACCEPT_DISC, args, u.m.discInBay, true)]
  {
    hide Tally, Good, Fresh, StatusReply, Foreseen, NeverTurnedLoaded, Foresee;
    var l := Listening(u, CMD_ACCEPT_DISC, args);
    GoodParts(u);
    IdleMeansDone(u, now);
    TurnedLater(u.w.log, Heard(CMD_ACCEPT_DISC, args, u.m.discInBay, true));
    BeginStarts(u, u.m.(newDiscAck := false), l.w, now, INGEST_MS, INGEST_MS, Stored(u.m.position));
    assert Perform(l, now, CMD_ACCEPT_DISC, args).u
        == Begin(u, u.m.(newDiscAck := false), l.w, now, INGEST_MS, INGEST_MS, Stored(u.m.position));
  }

  /** An accept with no disc drawn in is answered, and does nothing. */
  lemma AcceptDeclines(u: Unit, now: int, args: Args)
    requires Good(u) && !u.m.newDiscAck
    ensures var v := Perform(Listening(u, CMD_ACCEPT_DISC, args), now, CMD_ACCEPT_DISC, args).u;
            Good(v) && Accounted(u, v) && SameMachine(u, v) && v.busyUntil == u.busyUntil
  {
    hide Tally, StatusReply, NeverTurnedLoaded, Sorted;
    TurnedLater(u.w.log, Heard(CMD_ACCEPT_DISC, args, u.m.discInBay, false));
  }
}
