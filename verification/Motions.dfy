/**
 The three retried commands that move something: what the unit is heading for
 once one of them has been acknowledged.
 */
module Motions {
  import opened Firmware
  import opened FirmwareLaws
  import opened CommandLaws
  import opened Runs

  const TRIES: nat := 3

  lemma HeardIdle(h: Sim, cmd: Byte, args: Args)
    requires Receive(h.u, h.now, cmd, args).reply.Some? && Actuates(cmd)
    ensures !Busy(h.u, h.now)
    ensures Receive(h.u, h.now, cmd, args).u == Perform(Listening(h.u, cmd, args), h.now, cmd, args).u
  {
    hide Receive, Perform;
    ReceiveHeard(h.u, h.now, cmd, args);
  }

  lemma StartedCalm(u: Unit, v: Unit, what: Happening, until: int)
    requires Started(u, v, what, until) && Calm(u) && !v.m.newDiscAck && Motion(what) && !what.DrawnOff?
    ensures Calm(v)
  {
    hide Tally, Good, Foreseen, LastExpiry, Foresee;
    var c := One(what);
    assert c.arrives == c.drawn == c.takes == 0;
  }

  lemma StartedTame(u: Unit, v: Unit, what: Happening, until: int)
    requires Started(u, v, what, until) && Tame(u) && !v.m.newDiscAck && Motion(what) && !what.DrawnOff?
    ensures Tame(v)
  {
    hide Tally, Good, Foreseen, LastExpiry, Foresee;
    var c := One(what);
    assert c.arrives == c.drawn == 0;
  }

  lemma StartedParts(u: Unit, v: Unit, what: Happening, until: int)
    requires Started(u, v, what, until)
    ensures Good(v) && Accounted(u, v) && Outlook(v) == Foreseen(CoreOf(u.m), what)
    ensures v.busyUntil == until && LastExpiry(v.events) <= LastExpiry(u.events)
    ensures forall slot | Claimed(v, slot) :: Claimed(u, slot) || Fills(u.m, what, slot)
    ensures !what.Taken? ==> Reaching(v) == Reaching(u)
  {
  }

  /** Where a move ends: at its target, homed, with the disc out exactly if one was asked for and there. */
  function MoveOutcome(c: Core, args: Args): Core {
    Foreseen(c, Arrived(args.x1, args.x2 != 0 && args.x1 in c.occupied))
  }

  lemma EmptyMouthTame(u: Unit)
    requires Load(u) == 0
    ensures Tame(u)
  {
  }

  lemma MoveHeard(h: Sim, args: Args)
    requires Good(h.u) && Fresh(h.u, h.now) && Load(h.u) == 0
    requires Receive(h.u, h.now, CMD_SET_POS, args).reply.Some?
    ensures var v := Receive(h.u, h.now, CMD_SET_POS, args).u;
            && Good(v) && Accounted(h.u, v) && Tame(v) && !v.m.ackTimeout
            && Claims(h.u, v, {}) && Outlook(v).position == args.x1 && Reaching(v) == Reaching(h.u)
            && LastExpiry(v.events) <= LastExpiry(h.u.events)
            && v.busyUntil == h.now + MoveMs(h.u.m, args)
            && (Calm(h.u) ==> Calm(v) && Outlook(v) == MoveOutcome(Outlook(h.u), args)
                              && CoreOf(h.u.m) == Outlook(h.u))
  {
    hide Good, Fresh, Load, Receive, Perform, Tally, Outlook, LastExpiry, Foreseen, Started, MoveMs, Listening, Tame,
         Accounted, Claimed;
    var v := Receive(h.u, h.now, CMD_SET_POS, args).u;
    var what := Arrived(args.x1, Presenting(h.u.m, args));
    HeardIdle(h, CMD_SET_POS, args);
    SetPosStarts(h.u, h.now, args);
    EmptyMouthTame(h.u);
    StartedParts(h.u, v, what, h.now + MoveMs(h.u.m, args));
    StartedTame(h.u, v, what, h.now + MoveMs(h.u.m, args));
    IdleMeansDone(h.u, h.now);
    ForeseenPosition(CoreOf(h.u.m), what);
    if Calm(h.u) { StartedCalm(h.u, v, what, h.now + MoveMs(h.u.m, args)); }
  }

  lemma ForeseenPosition(c: Core, what: Happening)
    ensures Foreseen(c, what).position == if what.Arrived? then what.target else c.position
  {
  }

  lemma RetractHeard(h: Sim, args: Args)
    requires Good(h.u) && Fresh(h.u, h.now)
    requires Receive(h.u, h.now, CMD_RETRACT, args).reply.Some?
    ensures var v := Receive(h.u, h.now, CMD_RETRACT, args).u;
            && Good(v) && Accounted(h.u, v) && (Tame(h.u) ==> Tame(v))
            && Bears(h.u, v, CMD_RETRACT) && Reaching(v) == Reaching(h.u)
            && LastExpiry(v.events) <= LastExpiry(h.u.events)
            && v.busyUntil == h.now + RETRACT_MS
            && (Calm(h.u) ==> Calm(v) && Outlook(v) == Foreseen(Outlook(h.u), BackInSlot))
  {
    hide Good, Fresh, Receive, Perform, Tally, Outlook, LastExpiry, Foreseen, Started, Listening, Accounted, Foresee,
         Claimed;
    ForeseenPosition(CoreOf(h.u.m), BackInSlot);
    var v := Receive(h.u, h.now, CMD_RETRACT, args).u;
    HeardIdle(h, CMD_RETRACT, args);
    RetractStarts(h.u, h.now, args);
    StartedParts(h.u, v, BackInSlot, h.now + RETRACT_MS);
    IdleMeansDone(h.u, h.now);
    if Tame(h.u) { StartedTame(h.u, v, BackInSlot, h.now + RETRACT_MS); }
    if Calm(h.u) { StartedCalm(h.u, v, BackInSlot, h.now + RETRACT_MS); }
  }

  lemma AcceptHeard(h: Sim, args: Args)
    requires Good(h.u) && Fresh(h.u, h.now)
    requires Receive(h.u, h.now, CMD_ACCEPT_DISC, args).reply.Some?
    ensures var v := Receive(h.u, h.now, CMD_ACCEPT_DISC, args).u;
            && Good(v) && Accounted(h.u, v) && !v.m.newDiscAck
            && Bears(h.u, v, CMD_ACCEPT_DISC) && Reaching(v) == Reaching(h.u)
            && (h.u.m.newDiscAck ==>
                  Tame(v) && v.busyUntil == h.now + INGEST_MS && LastExpiry(v.events) <= LastExpiry(h.u.events)
                  && Tally(v.events) == Plus(One(Stored(h.u.m.position)), Tally(h.u.events))
                  && Outlook(v) == Foreseen(CoreOf(h.u.m), Stored(h.u.m.position)))
            && (!h.u.m.newDiscAck ==> SameMachine(h.u, v) && v.busyUntil == h.u.busyUntil)
  {
    hide Good, Fresh, Receive, Perform, Tally, LastExpiry, Foreseen, Listening, Accounted, Foresee, Claimed;
    HeardIdle(h, CMD_ACCEPT_DISC, args);
    IdleMeansDone(h.u, h.now);
    if h.u.m.newDiscAck {
      AcceptStarts(h.u, h.now, args);
      ForeseenPosition(CoreOf(h.u.m), Stored(h.u.m.position));
    } else {
      AcceptDeclines(h.u, h.now, args);
      SameMachineOnward(h.u, Receive(h.u, h.now, CMD_ACCEPT_DISC, args).u);
    }
  }

  lemma SameMachineOnward(u: Unit, v: Unit)
    requires SameMachine(u, v)
    ensures Onward(u, v)
  {
  }

  /** The two commands that put a disc behind the mouth. */
  predicate Stores(cmd: Byte) { cmd == CMD_RETRACT || cmd == CMD_ACCEPT_DISC }

  /** What one command can claim: the slot behind the mouth, if it puts a disc there, and where it turns to. */
  ghost predicate Bears(u: Unit, v: Unit, cmd: Byte) {
    && Claims(u, v, if Stores(cmd) then {Outlook(u).position} else {})
    && (cmd != CMD_SET_POS ==> Outlook(v).position == Outlook(u).position)
  }

  lemma OnwardBears(u: Unit, v: Unit, cmd: Byte)
    requires Onward(u, v)
    ensures Bears(u, v, cmd)
  {
    hide Claimed, Outlook;
  }

  lemma OnwardThenBears(u: Unit, v: Unit, w: Unit, cmd: Byte)
    requires Onward(u, v) && Bears(v, w, cmd)
    ensures Bears(u, w, cmd)
  {
    hide Claimed, Outlook;
  }

  lemma BearsThenOnward(u: Unit, v: Unit, w: Unit, cmd: Byte)
    requires Bears(u, v, cmd) && Onward(v, w)
    ensures Bears(u, w, cmd)
  {
    hide Claimed, Outlook;
  }

  // -- what the unit was made to do ----------------------------------------

  /** The actuating commands of a log, in order, with the sensors as each was heard. */
  function Actions(log: seq<Heard>): seq<Heard> {
    if log == [] then []
    else Actions(log[..|log| - 1]) + if Actuates(log[|log| - 1].cmd) then [log[|log| - 1]] else []
  }

  lemma {:induction false} TalkIsNoAction(a: seq<Heard>, b: seq<Heard>)
    requires OnlyTalked(a, b)
    ensures Actions(b) == Actions(a)
    decreases |b|
  {
    if |b| == |a| {
      assert b == a;
    } else {
      var c := b[..|b| - 1];
      assert c[..|a|] == b[..|a|];
      TalkIsNoAction(a, c);
    }
  }

  /** Whatever is heard is heard once. */
  lemma HeardIsOneAction(u: Unit, now: int, cmd: Byte, args: Args)
    requires Receive(u, now, cmd, args).reply.Some? && Actuates(cmd)
    ensures Actions(Receive(u, now, cmd, args).u.w.log)
         == Actions(u.w.log) + [Heard(cmd, args, u.m.discInBay, u.m.newDiscAck)]
  {
    hide Receive, Perform;
    ReceiveHeard(u, now, cmd, args);
    PerformLog(Listening(u, cmd, args), now, cmd, args);
    var log := u.w.log + [Heard(cmd, args, u.m.discInBay, u.m.newDiscAck)];
    assert log[..|log| - 1] == u.w.log;
  }

  lemma PerformLog(u: Unit, now: int, cmd: Byte, args: Args)
    ensures Perform(u, now, cmd, args).u.w == u.w
  {
    hide StatusReply, SerialReply, Enqueue, SeekMs;
  }

  /** Whether a command may be sent at all: a move only with nothing at the mouth or on its way there. */
  predicate Fit(u: Unit, cmd: Byte) { cmd == CMD_SET_POS ==> Load(u) == 0 }

  /** At most one more action, and that one the command asked for. */
  predicate AtMostOnce(a: seq<Heard>, b: seq<Heard>, cmd: Byte) {
    b == a || (|b| == |a| + 1 && b[..|a|] == a && b[|a|].cmd == cmd)
  }

  /** What is left of a unit after one command, whether or not it was heard. */
  ghost predicate Survives(u: Unit, v: Unit, cmd: Byte) {
    && Good(v)
    && Accounted(u, v)
    && (Tame(u) ==> Tame(v) && LastExpiry(v.events) <= LastExpiry(u.events))
    && (Calm(u) ==> Calm(v))
    && AtMostOnce(Actions(u.w.log), Actions(v.w.log), cmd)
    && Drops(u.w, v.w)
    && Bears(u, v, cmd)
    && Reaching(v) <= Reaching(u)
  }

  lemma AgesSurvives(u: Unit, v: Unit, w: Unit, cmd: Byte)
    requires Ages(u, v) && Survives(v, w, cmd)
    ensures Survives(u, w, cmd)
  {
    hide Good, Tame, OnlyTalked, Fitting, Discs, Actions, Tally, Onward, Bears;
    OnwardThenBears(u, v, w, cmd);
    TalkIsNoAction(u.w.log, v.w.log);
  }

  lemma SurvivesAges(u: Unit, v: Unit, w: Unit, cmd: Byte)
    requires Survives(u, v, cmd) && Ages(v, w)
    ensures Survives(u, w, cmd)
  {
    hide Good, Tame, OnlyTalked, Fitting, Discs, Actions, Tally, Onward, Bears;
    BearsThenOnward(u, v, w, cmd);
    TalkIsNoAction(v.w.log, w.w.log);
  }

  lemma ReceiveSurvives(u: Unit, now: int, cmd: Byte, args: Args)
    requires Good(u) && Fresh(u, now) && Fit(u, cmd)
    ensures Survives(u, Receive(u, now, cmd, args).u, cmd)
  {
    hide Good, Fresh, Receive, Tame, Accounted, Actions, Ages, LastExpiry, Calm, Outlook, Foreseen;
    var r := Receive(u, now, cmd, args);
    if r.reply.None? || !Actuates(cmd) {
      PassiveAges(u, now, cmd, args);
      AgesGood(u, r.u);
      AgesIsSurvival(u, r.u, cmd);
    } else {
      HeardIsOneAction(u, now, cmd, args);
      HeardDrops(u, now, cmd, args);
      ActuateSurvives(Sim(u, now), cmd, args);
    }
  }

  lemma AgesIsSurvival(u: Unit, v: Unit, cmd: Byte)
    requires Ages(u, v)
    ensures Survives(u, v, cmd)
  {
    hide Good, Tame, OnlyTalked, Accounted, Actions, Onward, Bears, Reaching, LastExpiry, Load, NoMotion, Outlook,
         Tally;
    OnwardBears(u, v, cmd);
    TalkIsNoAction(u.w.log, v.w.log);
  }

  lemma ActuateSurvives(h: Sim, cmd: Byte, args: Args)
    requires Good(h.u) && Fresh(h.u, h.now) && Fit(h.u, cmd) && Actuates(cmd)
    requires Receive(h.u, h.now, cmd, args).reply.Some?
    ensures var v := Receive(h.u, h.now, cmd, args).u;
            && Good(v) && Accounted(h.u, v) && Bears(h.u, v, cmd) && Reaching(v) <= Reaching(h.u)
            && (Tame(h.u) ==> Tame(v) && LastExpiry(v.events) <= LastExpiry(h.u.events))
            && (Calm(h.u) ==> Calm(v))
  {
    hide Good, Fresh, Receive, Accounted, LastExpiry, Outlook, Foreseen, MoveMs, Tally, Claims;
    if cmd == CMD_SET_POS {
      MoveHeard(h, args);
    } else if cmd == CMD_RETRACT {
      RetractHeard(h, args);
    } else {
      AcceptHeard(h, args);
      SameMachineTame(h.u, Receive(h.u, h.now, cmd, args).u);
    }
  }

  lemma SameMachineTame(u: Unit, v: Unit)
    ensures SameMachine(u, v) ==>
              LastExpiry(v.events) == LastExpiry(u.events) && Tame(v) == Tame(u) && Calm(v) == Calm(u)
  {
    hide Tally, LastExpiry;
  }

  /** Where an exchange may have got to when the unit vanished. */
  ghost predicate CutShort(s: Sim, t: Sim, cmd: Byte, args: Args) {
    var f := Found(s);
    t == s || t == f || exists n: nat :: t == Reads(Sim(Receive(f.u, f.now, cmd, args).u, f.now), n)
  }

  lemma CutShortSurvives(s: Sim, t: Sim, cmd: Byte, args: Args)
    requires Good(s.u) && Fit(s.u, cmd) && CutShort(s, t, cmd, args)
    ensures Survives(s.u, t.u, cmd)
  {
    hide Good, Ages, Fresh, Receive, Found, Survives, Load;
    var f := Found(s);
    FoundPasses(s);
    AgesCalm(s.u, f.u);
    if t == s {
      AgesReflexive(s.u);
      AgesIsSurvival(s.u, t.u, cmd);
    } else if t == f {
      AgesIsSurvival(s.u, t.u, cmd);
    } else {
      var r := Receive(f.u, f.now, cmd, args);
      var n: nat :| t == Reads(Sim(r.u, f.now), n);
      ReceiveSurvives(f.u, f.now, cmd, args);
      SurvivesGood(f.u, r.u, cmd);
      ReadsPass(Sim(r.u, f.now), n);
      AgesSurvives(s.u, f.u, r.u, cmd);
      SurvivesAges(s.u, r.u, t.u, cmd);
    }
  }

  lemma SurvivesGood(u: Unit, v: Unit, cmd: Byte)
    requires Survives(u, v, cmd)
    ensures Good(v)
  {
  }

  /** A passive command cut short is only time passing. */
  lemma CutShortPassive(s: Sim, t: Sim, cmd: Byte, args: Args)
    requires Good(s.u) && CutShort(s, t, cmd, args) && !Actuates(cmd)
    ensures Ages(s.u, t.u)
  {
    hide Good, Ages, Fresh, Receive, Found;
    var f := Found(s);
    FoundPasses(s);
    if t == s {
      AgesReflexive(s.u);
    } else if t != f {
      var r := Receive(f.u, f.now, cmd, args);
      var n: nat :| t == Reads(Sim(r.u, f.now), n);
      PassiveAges(f.u, f.now, cmd, args);
      AgesGood(f.u, r.u);
      ReadsPass(Sim(r.u, f.now), n);
      AgesTransitive(s.u, f.u, r.u);
      AgesTransitive(s.u, r.u, t.u);
    }
  }

  // -- exactly once --------------------------------------------------------

  /** Nothing but status requests was heard in between. */
  predicate Polled(a: seq<Heard>, b: seq<Heard>) {
    |a| <= |b| && b[..|a|] == a && forall i | |a| <= i < |b| :: b[i].cmd == CMD_REQUEST_STATE
  }

  lemma PolledTransitive(a: seq<Heard>, b: seq<Heard>, c: seq<Heard>)
    requires Polled(a, b) && Polled(b, c)
    ensures Polled(a, c)
  {
    assert c[..|a|] == c[..|b|][..|a|] == a;
    forall i | |a| <= i < |c| ensures c[i].cmd == CMD_REQUEST_STATE {
      if i < |b| { assert c[i] == c[..|b|][i]; }
    }
  }

  lemma {:induction false} ReadsLog(s: Sim, n: nat)
    ensures Reads(s, n).u.w == s.u.w
  {
    hide RunDue;
    if n > 0 {
      ReadsLog(s, n - 1);
      RunDueWire(Reads(s, n - 1).u, Reads(s, n - 1).now + POLL_MS);
    }
  }

  lemma ReceiveLog(u: Unit, now: int, cmd: Byte, args: Args)
    ensures var r := Receive(u, now, cmd, args);
            r.u.w.log == if r.reply.Some? then u.w.log + [Heard(cmd, args, u.m.discInBay, u.m.newDiscAck)] else u.w.log
  {
    hide Receive, Perform;
    if Receive(u, now, cmd, args).reply.Some? {
      ReceiveHeard(u, now, cmd, args);
      PerformLog(Listening(u, cmd, args), now, cmd, args);
    } else {
      ReceiveUnheard(u, now, cmd, args);
    }
  }

  /** A command is answered if and only if it was processed, and then once. */
  lemma CommandLog(s: Sim, cmd: Byte, args: Args)
    ensures var e := CommandRun(s, cmd, args);
            var m := Found(s).u.m;
            e.s.u.w.log
            == if e.reply.Some? then s.u.w.log + [Heard(cmd, args, m.discInBay, m.newDiscAck)] else s.u.w.log
  {
    hide RunDue, Receive, Reads;
    var f := Found(s);
    RunDueWire(s.u, f.now);
    ReceiveLog(f.u, f.now, cmd, args);
    var r := Receive(f.u, f.now, cmd, args);
    ReadsLog(Sim(r.u, f.now), 1);
    ReadsLog(Sim(r.u, f.now), ACK_MS / POLL_MS);
  }

  lemma {:induction false} WaitLog(s: Sim, mask: bv16, want: bv16, deadline: int)
    ensures Polled(s.u.w.log, WaitRun(s, mask, want, deadline).s.u.w.log)
    decreases deadline - s.now
  {
    hide CommandRun, Sample, Found;
    PollTakes(s);
    CommandLog(s, CMD_REQUEST_STATE, NO_ARGS);
    var p := Poll(s);
    if !Shows(Sample(s), mask, want) && p.now < deadline {
      WaitLog(p, mask, want, deadline);
      PolledTransitive(s.u.w.log, p.u.w.log, WaitRun(p, mask, want, deadline).s.u.w.log);
    }
  }

  /**
   A retried command is processed exactly once if it is ever acknowledged, as the
   last thing the unit did, and not at all if it never is.
   */
  lemma {:induction false} RequireOnce(s: Sim, cmd: Byte, args: Args, tries: nat) returns (before: seq<Heard>, h: Heard)
    ensures var e := RequireRun(s, cmd, args, tries);
            && Polled(s.u.w.log, before)
            && h.cmd == cmd && h.args == args
            && e.s.u.w.log == before + if e.reply.Some? then [h] else []
    decreases tries
  {
    hide CommandRun, WaitRun, Found;
    before, h := s.u.w.log, Heard(cmd, args, Found(s).u.m.discInBay, Found(s).u.m.newDiscAck);
    if tries > 0 {
      var e := CommandRun(s, cmd, args);
      CommandLog(s, cmd, args);
      if e.reply.None? && tries > 1 {
        var w := IdleRun(e.s, RETRY_WAIT_MS).s;
        WaitLog(e.s, ST_BUSY, 0, e.s.now + RETRY_WAIT_MS);
        before, h := RequireOnce(w, cmd, args, tries - 1);
        PolledTransitive(s.u.w.log, w.u.w.log, before);
      }
    }
  }

  /** Cut short by the cable, a command was processed at most once. */
  lemma CutShortLog(s: Sim, t: Sim, cmd: Byte, args: Args)
    requires CutShort(s, t, cmd, args)
    ensures t.u.w.log == s.u.w.log || exists h :: t.u.w.log == s.u.w.log + [h] && h.cmd == cmd && h.args == args
  {
    hide RunDue, Receive;
    var f := Found(s);
    RunDueWire(s.u, f.now);
    ReceiveLog(f.u, f.now, cmd, args);
    var r := Receive(f.u, f.now, cmd, args);
    if t != s && t != f {
      var n: nat :| t == Reads(Sim(r.u, f.now), n);
      ReadsLog(Sim(r.u, f.now), n);
    }
  }

  // -- commands lost -------------------------------------------------------

  lemma HeardDrops(u: Unit, now: int, cmd: Byte, args: Args)
    requires Receive(u, now, cmd, args).reply.Some?
    ensures var w := Receive(u, now, cmd, args).u.w; w.dropped == u.w.dropped && Drops(u.w, w)
  {
    hide Perform, Receive;
    ReceiveHeard(u, now, cmd, args);
    PerformLog(Listening(u, cmd, args), now, cmd, args);
  }

  lemma ReceiveDropped(u: Unit, now: int, cmd: Byte, args: Args) returns (why: Reason)
    ensures var r := Receive(u, now, cmd, args);
            r.u.w.dropped == if r.reply.Some? then u.w.dropped else u.w.dropped + [Dropped(cmd, args, why, |u.w.log|)]
  {
    hide Perform;
    why := Blip;
    var r := Receive(u, now, cmd, args);
    if r.reply.Some? {
      HeardDrops(u, now, cmd, args);
    } else {
      PerformReplies(Listening(u, cmd, args), now, cmd, args);
      why := if Busy(u, now) && !AlwaysAnswered(cmd) then MidMotion
             else if u.w.blips && !AlwaysAnswered(cmd) && u.w.luck != [] && u.w.luck[0] then Blip
             else PositionUnknown;
    }
  }

  /** Every command that is not answered is one more lost. */
  lemma CommandDrops(s: Sim, cmd: Byte, args: Args)
    ensures var e := CommandRun(s, cmd, args);
            && Drops(s.u.w, e.s.u.w)
            && |e.s.u.w.dropped| == |s.u.w.dropped| + (if e.reply.Some? then 0 else 1)
  {
    hide RunDue, Receive, Reads;
    var f := Found(s);
    RunDueWire(s.u, f.now);
    var why := ReceiveDropped(f.u, f.now, cmd, args);
    var r := Receive(f.u, f.now, cmd, args);
    if r.reply.Some? { HeardDrops(f.u, f.now, cmd, args); } else { ReceiveUnheard(f.u, f.now, cmd, args); }
    ReadsLog(Sim(r.u, f.now), 1);
    ReadsLog(Sim(r.u, f.now), ACK_MS / POLL_MS);
  }

  lemma {:induction false} WaitDrops(s: Sim, mask: bv16, want: bv16, deadline: int)
    ensures var t := WaitRun(s, mask, want, deadline).s;
            t.u.w.dropped == s.u.w.dropped && Drops(s.u.w, t.u.w)
    decreases deadline - s.now
  {
    hide CommandRun, Sample, Found;
    PollTakes(s);
    StatusRun(s);
    CommandDrops(s, CMD_REQUEST_STATE, NO_ARGS);
    if !Shows(Sample(s), mask, want) && Poll(s).now < deadline {
      WaitDrops(Poll(s), mask, want, deadline);
    }
  }

  /** A command that is never acknowledged was lost every time it was tried. */
  lemma {:induction false} RequireDrops(s: Sim, cmd: Byte, args: Args, tries: nat)
    ensures var e := RequireRun(s, cmd, args, tries);
            && Drops(s.u.w, e.s.u.w)
            && (e.reply.None? ==> |e.s.u.w.dropped| == |s.u.w.dropped| + tries)
    decreases tries
  {
    hide CommandRun, WaitRun;
    if tries > 0 {
      var e := CommandRun(s, cmd, args);
      CommandDrops(s, cmd, args);
      if e.reply.None? && tries > 1 {
        WaitDrops(e.s, ST_BUSY, 0, e.s.now + RETRY_WAIT_MS);
        RequireDrops(IdleRun(e.s, RETRY_WAIT_MS).s, cmd, args, tries - 1);
      }
    }
  }

  // -- three tries running -------------------------------------------------

  /** The unit as each try of a retried command finds it. */
  function Offers(s: Sim, cmd: Byte, args: Args, tries: nat): seq<Sim>
    decreases tries
  {
    if tries == 0 then []
    else
      var e := CommandRun(s, cmd, args);
      [Found(s)]
      + if e.reply.Some? || tries == 1 then [] else Offers(IdleRun(e.s, RETRY_WAIT_MS).s, cmd, args, tries - 1)
  }

  /** A unit with no cause of its own to drop the command. */
  predicate Able(h: Sim, cmd: Byte, args: Args) {
    !Busy(h.u, h.now) && (cmd == CMD_SET_POS && args.x1 != 0 ==> h.u.m.homed)
  }

  predicate LostTo(d: Dropped, cmd: Byte, args: Args, why: Reason) { d.cmd == cmd && d.args == args && d.why == why }

  /** From `a` to `b` the unit lost this command `n` times to blips, and heard nothing but status requests. */
  ghost predicate LostRun(a: Wire, b: Wire, cmd: Byte, args: Args, n: nat) {
    && a.blips && Drops(a, b) && Polled(a.log, b.log)
    && |b.dropped| == |a.dropped| + n
    && forall j | |a.dropped| <= j < |b.dropped| ::
         LostTo(b.dropped[j], cmd, args, Blip) && |a.log| <= b.dropped[j].heard <= |b.log|
  }

  lemma CommandLostRun(s: Sim, cmd: Byte, args: Args)
    requires CommandRun(s, cmd, args).reply.None? && Able(Found(s), cmd, args)
    ensures LostRun(s.u.w, CommandRun(s, cmd, args).s.u.w, cmd, args, 1)
  {
    hide RunDue, Receive, Reads;
    var f := Found(s);
    RunDueWire(s.u, f.now);
    LostToBlip(f.u, f.now, cmd, args);
    CommandLog(s, cmd, args);
    CommandDrops(s, cmd, args);
    ReadsLog(Sim(Receive(f.u, f.now, cmd, args).u, f.now), ACK_MS / POLL_MS);
  }

  lemma LostRunPolled(a: Wire, b: Wire, c: Wire, cmd: Byte, args: Args, n: nat)
    requires LostRun(a, b, cmd, args, n) && Drops(b, c) && c.dropped == b.dropped && Polled(b.log, c.log)
    ensures LostRun(a, c, cmd, args, n)
  {
    PolledTransitive(a.log, b.log, c.log);
  }

  lemma LostRunTransitive(a: Wire, b: Wire, c: Wire, cmd: Byte, args: Args, n: nat, more: nat)
    requires LostRun(a, b, cmd, args, n) && LostRun(b, c, cmd, args, more)
    ensures LostRun(a, c, cmd, args, n + more)
  {
    hide LostTo;
    PolledTransitive(a.log, b.log, c.log);
    forall j | |a.dropped| <= j < |c.dropped|
      ensures LostTo(c.dropped[j], cmd, args, Blip) && |a.log| <= c.dropped[j].heard <= |c.log|
    {
      if j < |b.dropped| { assert c.dropped[j] == b.dropped[j]; }
    }
  }

  /** Offered only to units able to perform it, a command never acknowledged lost every one of its tries to a blip. */
  lemma {:induction false} RequireLostRun(s: Sim, cmd: Byte, args: Args, tries: nat)
    requires tries > 0 && RequireRun(s, cmd, args, tries).reply.None?
    requires forall h | h in Offers(s, cmd, args, tries) :: Able(h, cmd, args)
    ensures LostRun(s.u.w, RequireRun(s, cmd, args, tries).s.u.w, cmd, args, tries)
    decreases tries
  {
    hide CommandRun, WaitRun, LostRun, Able, Found;
    assert Offers(s, cmd, args, tries)[0] == Found(s);
    CommandLostRun(s, cmd, args);
    if tries > 1 {
      var t := CommandRun(s, cmd, args).s;
      var w := IdleRun(t, RETRY_WAIT_MS).s;
      WaitDrops(t, ST_BUSY, 0, t.now + RETRY_WAIT_MS);
      WaitLog(t, ST_BUSY, 0, t.now + RETRY_WAIT_MS);
      LostRunPolled(s.u.w, t.u.w, w.u.w, cmd, args, 1);
      assert Offers(s, cmd, args, tries) == [Found(s)] + Offers(w, cmd, args, tries - 1);
      RequireLostRun(w, cmd, args, tries - 1);
      LostRunTransitive(s.u.w, w.u.w, RequireRun(w, cmd, args, tries - 1).s.u.w, cmd, args, 1, tries - 1);
    }
  }

  /**
   All three tries of one command that moves something were lost to blips, the
   first of them the `i`th loss there was: nothing but status requests was heard
   from the first try to the last.
   */
  ghost predicate LostThrice(w: Wire, i: nat) {
    && i + TRIES <= |w.dropped| && Actuates(w.dropped[i].cmd)
    && (forall j | i <= j < i + TRIES :: LostTo(w.dropped[j], w.dropped[i].cmd, w.dropped[i].args, Blip))
    && w.dropped[i + TRIES - 1].heard <= |w.log|
    && forall k | w.dropped[i].heard <= k < w.dropped[i + TRIES - 1].heard :: w.log[k].cmd == CMD_REQUEST_STATE
  }

  /** A unit given to blips has lost all three tries of some command to them. */
  ghost predicate Unlucky(s: Sim, t: Sim) {
    s.u.w.blips && exists i: nat :: |s.u.w.dropped| <= i && LostThrice(t.u.w, i)
  }

  lemma LostThriceLater(a: Wire, b: Wire, i: nat)
    requires LostThrice(a, i) && Drops(a, b)
    ensures LostThrice(b, i)
  {
    assert forall j | 0 <= j < |a.dropped| :: b.dropped[j] == a.dropped[j];
    forall k | b.dropped[i].heard <= k < b.dropped[i + TRIES - 1].heard
      ensures b.log[k].cmd == CMD_REQUEST_STATE
    {
      assert a.log[k].cmd == CMD_REQUEST_STATE;
    }
  }

  lemma UnluckySince(s: Sim, t: Sim, r: Sim)
    requires Drops(s.u.w, t.u.w)
    ensures Unlucky(t, r) ==> Unlucky(s, r)
  {
    hide LostThrice;
  }

  lemma UnluckyStill(s: Sim, t: Sim, r: Sim)
    requires Drops(t.u.w, r.u.w)
    ensures Unlucky(s, t) ==> Unlucky(s, r)
  {
    hide LostThrice;
    if Unlucky(s, t) {
      var i: nat :| |s.u.w.dropped| <= i && LostThrice(t.u.w, i);
      LostThriceLater(t.u.w, r.u.w, i);
    }
  }

  lemma LostRunUnlucky(s: Sim, t: Sim, cmd: Byte, args: Args)
    requires LostRun(s.u.w, t.u.w, cmd, args, TRIES) && Actuates(cmd)
    ensures Unlucky(s, t)
  {
    var i := |s.u.w.dropped|;
    assert LostThrice(t.u.w, i);
  }

  // -- a unit left to itself -----------------------------------------------

  const BUSIEST_MS := 8_800

  /** Calm, within the longest busy window there is, and on a slot that exists. */
  ghost predicate Prompt(s: Sim) {
    Good(s.u) && Calm(s.u) && s.u.busyUntil <= s.now + BUSIEST_MS && Outlook(s.u).position <= 100
  }

  /** Calm, idle, and where it was heading. */
  ghost predicate Quiet(s: Sim) {
    && Prompt(s) && Fresh(s.u, s.now) && NoMotion(s.u) && !Busy(s.u, s.now)
    && CoreOf(s.u.m) == Outlook(s.u)
  }

  /** Between two moments only blips cost the unit a command that moves something. */
  ghost predicate OnlyBlips(a: Wire, b: Wire) {
    Drops(a, b) && forall i | |a.dropped| <= i < |b.dropped| :: Actuates(b.dropped[i].cmd) ==> b.dropped[i].why == Blip
  }

  lemma OnlyBlipsTransitive(a: Wire, b: Wire, c: Wire)
    requires OnlyBlips(a, b) && OnlyBlips(b, c)
    ensures OnlyBlips(a, c)
  {
    forall i | |a.dropped| <= i < |c.dropped| ensures Actuates(c.dropped[i].cmd) ==> c.dropped[i].why == Blip {
      if i < |b.dropped| { assert c.dropped[i] == b.dropped[i]; }
    }
  }

  /** Time passes for a calm unit: it keeps heading where it was, and loses commands to blips only. */
  ghost predicate Idles(s: Sim, t: Sim) {
    && Prompt(t) && Outlook(t.u) == Outlook(s.u) && OnlyBlips(s.u.w, t.u.w)
    && t.u.m.ackTimeout == s.u.m.ackTimeout
  }

  lemma PassesPrompt(s: Sim, t: Sim)
    requires Prompt(s) && Passes(s, t) && SameBusy(s.u, t.u)
    ensures Prompt(t) && Outlook(t.u) == Outlook(s.u)
  {
    hide Outlook, Tame, Fresh, Accounted, Load, LastExpiry, OnlyTalked, Tally;
  }

  lemma NoMotionArrived(u: Unit)
    requires NoMotion(u)
    ensures Outlook(u) == CoreOf(u.m)
  {
    StillForesees(CoreOf(u.m), u.events);
  }

  lemma PollWire(s: Sim)
    requires Good(s.u)
    ensures Poll(s).u.w.dropped == s.u.w.dropped && Drops(s.u.w, Poll(s).u.w)
  {
    hide CommandRun;
    StatusRun(s);
    CommandDrops(s, CMD_REQUEST_STATE, NO_ARGS);
  }

  /** Waiting for a calm unit to go idle always succeeds, and leaves it quiet. */
  lemma WaitQuiet(s: Sim, timeout: int)
    requires Prompt(s) && timeout > BUSIEST_MS + POLL_MS
    ensures IdleRun(s, timeout).ok && Quiet(IdleRun(s, timeout).s) && Idles(s, IdleRun(s, timeout).s)
  {
    hide Good, Fresh, Tame, WaitRun, Outlook, Foreseen, Ages, Busy;
    var t := IdleRun(s, timeout).s;
    CalmGoesIdle(s, s.now + timeout);
    WaitPasses(s, ST_BUSY, 0, s.now + timeout);
    WaitDrops(s, ST_BUSY, 0, s.now + timeout);
    IdleSeen(s, s.now + timeout);
    PassesPrompt(s, t);
    NoMotionArrived(t.u);
  }

  /** A retry never waits long: once a blip is over, the first poll finds the unit idle. */
  lemma QuietPoll(s: Sim, timeout: nat)
    requires Prompt(s) && s.u.busyUntil <= s.now
    ensures IdleRun(s, timeout).s == Poll(s) && IdleRun(s, timeout).ok
  {
    hide Good, Fresh, Tame, Outlook, Poll, Sample, StatusWord, Found, Ages;
    FoundPasses(s);
    MasksDecode(Found(s).u, Found(s).now);
    SampleIs(s);
    FoundTakes(s);
  }

  lemma QuietGood(s: Sim)
    requires Quiet(s)
    ensures Good(s.u) && Calm(s.u) && Prompt(s) && s.u.busyUntil <= s.now && Fresh(s.u, s.now) && NoMotion(s.u)
  {
  }

  /** A quiet unit stays quiet while nothing but time passes. */
  lemma PassesQuiet(s: Sim, t: Sim)
    requires Quiet(s) && Passes(s, t) && SameBusy(s.u, t.u)
    ensures Quiet(t) && Outlook(t.u) == Outlook(s.u)
  {
    hide Good, Calm, Fresh, Outlook, Foreseen, Ages, Moving, Accounted, Load, LastExpiry, OnlyTalked;
    PassesPrompt(s, t);
    AgesCalm(s.u, t.u);
    NoMotionArrived(t.u);
  }

  lemma QuietIdles(s: Sim, t: Sim)
    requires Quiet(t) && Outlook(t.u) == Outlook(s.u) && t.u.w.dropped == s.u.w.dropped && SameBusy(s.u, t.u)
    requires Drops(s.u.w, t.u.w)
    ensures Idles(s, t)
  {
    hide Good, Calm, Fresh, NoMotion, Outlook;
  }

  lemma FoundQuiet(s: Sim)
    requires Quiet(s)
    ensures Quiet(Found(s)) && Idles(s, Found(s)) && Found(s).u.w == s.u.w
  {
    hide Quiet, Idles, Passes, Good, RunDue, Outlook, Prompt, Fresh, Calm, NoMotion;
    QuietGood(s);
    FoundPasses(s);
    PassesQuiet(s, Found(s));
    QuietIdles(s, Found(s));
  }

  lemma PollQuiet(s: Sim)
    requires Quiet(s)
    ensures Quiet(Poll(s)) && Idles(s, Poll(s))
  {
    hide Quiet, Idles, Passes, Good, Poll, Outlook, Prompt, Fresh, Calm, NoMotion;
    QuietGood(s);
    PollPasses(s);
    PollWire(s);
    PassesQuiet(s, Poll(s));
    QuietIdles(s, Poll(s));
  }

  /** An idle unit loses a command it could perform to a blip, and to nothing else. */
  lemma LostToBlip(u: Unit, now: int, cmd: Byte, args: Args)
    requires Receive(u, now, cmd, args).reply.None? && !Busy(u, now)
    requires cmd == CMD_SET_POS && args.x1 != 0 ==> u.m.homed
    ensures Receive(u, now, cmd, args).u.w.dropped == u.w.dropped + [Dropped(cmd, args, Blip, |u.w.log|)] && u.w.blips
  {
    hide Perform;
    PerformReplies(Listening(u, cmd, args), now, cmd, args);
  }

  lemma UnheardPrompt(s: Sim, v: Unit)
    requires Quiet(s) && Unheard(s.u, v, s.now) && Good(v)
    ensures Prompt(Sim(v, s.now)) && NoMotion(v) && Outlook(v) == Outlook(s.u) && v.busyUntil <= s.now + BLIP_FOR_MS
  {
    hide Good, Foresee, Tally;
  }

  lemma LostQuiet(s: Sim, cmd: Byte, args: Args)
    requires Quiet(s) && CommandRun(s, cmd, args).reply.None?
    requires cmd == CMD_SET_POS && args.x1 != 0 ==> Outlook(s.u).homed
    ensures Quiet(CommandRun(s, cmd, args).s) && Idles(s, CommandRun(s, cmd, args).s) && s.u.w.blips
  {
    hide Good, Calm, Fresh, Outlook, Receive, Found, Ages, Foreseen, Unheard, Moving;
    var f := Found(s);
    var r := Receive(f.u, f.now, cmd, args);
    FoundQuiet(s);
    CommandDrops(s, cmd, args);
    LostToBlip(f.u, f.now, cmd, args);
    ReceiveUnheard(f.u, f.now, cmd, args);
    PassiveAges(f.u, f.now, cmd, args);
    AgesGood(f.u, r.u);
    UnheardPrompt(f, r.u);
    LostReads(f, r.u);
  }

  lemma LostReads(f: Sim, v: Unit)
    requires Quiet(f) && Unheard(f.u, v, f.now) && Good(v) && Prompt(Sim(v, f.now)) && NoMotion(v)
    requires v.busyUntil <= f.now + BLIP_FOR_MS && Outlook(v) == Outlook(f.u)
    ensures var t := Reads(Sim(v, f.now), ACK_MS / POLL_MS);
            Quiet(t) && Outlook(t.u) == Outlook(f.u) && t.u.w == v.w && t.u.m.ackTimeout == f.u.m.ackTimeout
  {
    hide Good, Calm, Fresh, Outlook, Foreseen, Ages, Moving, Reads;
    var t := Reads(Sim(v, f.now), ACK_MS / POLL_MS);
    ReadsPass(Sim(v, f.now), ACK_MS / POLL_MS);
    PromptCalm(Sim(v, f.now));
    PassesPrompt(Sim(v, f.now), t);
    AgesCalm(v, t.u);
    NoMotionArrived(t.u);
  }

  lemma PromptCalm(s: Sim)
    requires Prompt(s)
    ensures Calm(s.u) && Good(s.u)
  {
  }

  lemma IdlesTransitive(s: Sim, t: Sim, r: Sim)
    requires Idles(s, t) && Idles(t, r)
    ensures Idles(s, r)
  {
    hide Prompt, Outlook;
    OnlyBlipsTransitive(s.u.w, t.u.w, r.u.w);
  }

  lemma WaitOnlyBlips(s: Sim, mask: bv16, want: bv16, deadline: int)
    ensures OnlyBlips(s.u.w, WaitRun(s, mask, want, deadline).s.u.w)
  {
    hide WaitRun;
    WaitDrops(s, mask, want, deadline);
  }

  lemma CommandOnlyBlips(s: Sim, cmd: Byte, args: Args)
    requires Able(Found(s), cmd, args)
    ensures OnlyBlips(s.u.w, CommandRun(s, cmd, args).s.u.w)
  {
    hide CommandRun, Able, Found;
    CommandDrops(s, cmd, args);
    if CommandRun(s, cmd, args).reply.None? { CommandLostRun(s, cmd, args); }
  }

  /** Offered only to units able to perform it, a command is lost to blips and to nothing else. */
  lemma {:induction false} RequireOnlyBlips(s: Sim, cmd: Byte, args: Args, tries: nat)
    requires forall h | h in Offers(s, cmd, args, tries) :: Able(h, cmd, args)
    ensures OnlyBlips(s.u.w, RequireRun(s, cmd, args, tries).s.u.w)
    decreases tries
  {
    hide CommandRun, WaitRun, OnlyBlips, Able, Found;
    if tries == 0 {
      NothingLost(s.u.w);
    } else {
      assert Offers(s, cmd, args, tries)[0] == Found(s);
      CommandOnlyBlips(s, cmd, args);
      var e := CommandRun(s, cmd, args);
      if e.reply.None? && tries > 1 {
        var w := IdleRun(e.s, RETRY_WAIT_MS).s;
        WaitOnlyBlips(e.s, ST_BUSY, 0, e.s.now + RETRY_WAIT_MS);
        assert Offers(s, cmd, args, tries) == [Found(s)] + Offers(w, cmd, args, tries - 1);
        RequireOnlyBlips(w, cmd, args, tries - 1);
        OnlyBlipsTransitive(s.u.w, e.s.u.w, w.u.w);
        OnlyBlipsTransitive(s.u.w, w.u.w, RequireRun(w, cmd, args, tries - 1).s.u.w);
      }
    }
  }

  lemma NothingLost(w: Wire)
    ensures OnlyBlips(w, w)
  {
  }

  /** A quiet unit that never acknowledges lost every try to a blip, and is as it was. */
  lemma {:induction false} RequireQuietLost(s: Sim, cmd: Byte, args: Args, tries: nat)
    requires Quiet(s) && tries > 0 && RequireRun(s, cmd, args, tries).reply.None?
    requires cmd == CMD_SET_POS && args.x1 != 0 ==> Outlook(s.u).homed
    ensures Quiet(RequireRun(s, cmd, args, tries).s) && Idles(s, RequireRun(s, cmd, args, tries).s)
    decreases tries
  {
    hide Quiet, Idles, CommandRun, Poll, Outlook, WaitRun, Prompt;
    LostQuiet(s, cmd, args);
    if tries > 1 {
      var t := CommandRun(s, cmd, args).s;
      RetryQuiet(s, t);
      IdlesTransitive(s, t, Poll(t));
      RequireQuietLost(Poll(t), cmd, args, tries - 1);
      IdlesTransitive(s, Poll(t), RequireRun(Poll(t), cmd, args, tries - 1).s);
    }
  }

  /** Every try finds a quiet unit still quiet. */
  lemma {:induction false} QuietOffers(s: Sim, cmd: Byte, args: Args, tries: nat)
    requires Quiet(s) && (cmd == CMD_SET_POS && args.x1 != 0 ==> Outlook(s.u).homed)
    ensures forall h | h in Offers(s, cmd, args, tries) :: Quiet(h) && Idles(s, h) && Able(h, cmd, args)
    decreases tries
  {
    hide Quiet, Idles, CommandRun, Poll, Outlook, WaitRun, Prompt, Found, Able;
    if tries > 0 {
      FoundQuiet(s);
      QuietAble(s, Found(s), cmd, args);
      var e := CommandRun(s, cmd, args);
      if e.reply.None? && tries > 1 {
        LostQuiet(s, cmd, args);
        RetryQuiet(s, e.s);
        IdlesTransitive(s, e.s, Poll(e.s));
        QuietOffers(Poll(e.s), cmd, args, tries - 1);
        forall h | h in Offers(Poll(e.s), cmd, args, tries - 1) ensures Idles(s, h) {
          IdlesTransitive(s, Poll(e.s), h);
        }
      }
    }
  }

  lemma QuietAble(s: Sim, h: Sim, cmd: Byte, args: Args)
    requires Quiet(h) && Idles(s, h) && (cmd == CMD_SET_POS && args.x1 != 0 ==> Outlook(s.u).homed)
    ensures Able(h, cmd, args)
  {
    hide Prompt, Fresh, Outlook, NoMotion, OnlyBlips;
  }

  lemma RequireUnlucky(s: Sim, cmd: Byte, args: Args)
    requires Quiet(s) && RequireRun(s, cmd, args, TRIES).reply.None? && Actuates(cmd)
    requires cmd == CMD_SET_POS && args.x1 != 0 ==> Outlook(s.u).homed
    ensures Unlucky(s, RequireRun(s, cmd, args, TRIES).s)
  {
    hide Quiet, Idles, RequireRun, Offers, Outlook, Unlucky, LostRun;
    QuietOffers(s, cmd, args, TRIES);
    RequireLostRun(s, cmd, args, TRIES);
    LostRunUnlucky(s, RequireRun(s, cmd, args, TRIES).s, cmd, args);
  }

  lemma RetryQuiet(s: Sim, t: Sim)
    requires Quiet(t) && Idles(s, t)
    ensures IdleRun(t, RETRY_WAIT_MS).s == Poll(t) && Quiet(Poll(t)) && Idles(t, Poll(t))
    ensures Outlook(Poll(t).u) == Outlook(s.u)
  {
    hide Quiet, Good, Calm, Poll, Outlook, WaitRun, OnlyBlips, Fresh;
    QuietGood(t);
    QuietPoll(t, RETRY_WAIT_MS);
    PollQuiet(t);
  }

  /** One that does acknowledge was still quiet when it heard. */
  lemma {:induction false} RequireQuietHeard(s: Sim, cmd: Byte, args: Args, tries: nat) returns (h: Sim)
    requires Quiet(s) && RequireRun(s, cmd, args, tries).reply.Some?
    requires cmd == CMD_SET_POS && args.x1 != 0 ==> Outlook(s.u).homed
    ensures Quiet(h) && Idles(s, h)
    ensures var r := Receive(h.u, h.now, cmd, args);
            r.reply.Some? && RequireRun(s, cmd, args, tries) == Exchange(Reads(Sim(r.u, h.now), 1), r.reply)
    decreases tries
  {
    hide Quiet, Idles, Poll, Outlook, WaitRun, Prompt, Receive, Found;
    FoundQuiet(s);
    if CommandRun(s, cmd, args).reply.Some? || tries <= 1 {
      h := Found(s);
    } else {
      LostQuiet(s, cmd, args);
      var t := CommandRun(s, cmd, args).s;
      RetryQuiet(s, t);
      IdlesTransitive(s, t, Poll(t));
      h := RequireQuietHeard(Poll(t), cmd, args, tries - 1);
      IdlesTransitive(s, Poll(t), h);
    }
  }

  // -- what every operation keeps ------------------------------------------

  /** No operation brings a disc to the mouth, loses one, arms a timer or turns the carousel loaded. */
  ghost predicate Minded(s: Sim, t: Sim) {
    && Good(t.u) && Tame(t.u)
    && Accounted(s.u, t.u)
    && LastExpiry(t.u.events) <= LastExpiry(s.u.events)
    && (Calm(s.u) ==> Calm(t.u))
    && Drops(s.u.w, t.u.w)
    && Reaching(t.u) <= Reaching(s.u)
  }

  /** Nor, unless it stores a disc, does it claim a slot. */
  ghost predicate Kept(s: Sim, t: Sim) { Minded(s, t) && Claims(s.u, t.u, {}) }

  lemma AgesKept(s: Sim, t: Sim)
    requires Ages(s.u, t.u) && Tame(s.u)
    ensures Kept(s, t)
  {
    hide Good, Accounted, Load, LastExpiry, OnlyTalked, Outlook, NoMotion, Tally;
  }

  lemma SurvivesKept(s: Sim, t: Sim, cmd: Byte)
    requires Survives(s.u, t.u, cmd) && Tame(s.u)
    ensures Minded(s, t) && (!Stores(cmd) ==> Kept(s, t))
  {
    hide Good, Accounted, LastExpiry, Actions, Tally, Claims, Outlook;
  }

  ghost predicate Sound(s: Sim) { Good(s.u) && Tame(s.u) }

  lemma KeptTransitive(s: Sim, t: Sim, r: Sim)
    requires Kept(s, t) && Kept(t, r)
    ensures Kept(s, r)
  {
    hide Good, Fitting, Discs, LastExpiry, Tame, Tally, Claims;
    ClaimsTransitive(s.u, t.u, r.u, {}, {});
    var none: set<int> := {};
    assert none + none == none;
  }

  lemma KeptSound(s: Sim, t: Sim)
    requires Kept(s, t)
    ensures Sound(t)
  {
    hide Good, Accounted, LastExpiry, Tame, Tally, Drops;
  }

  lemma SoundKept(s: Sim)
    requires Sound(s)
    ensures Kept(s, s)
  {
    hide Good, LastExpiry, Tame, Tally;
  }

  /** One operation after another. */
  lemma KeptLaws()
    ensures forall s, t, r :: Kept(s, t) && Kept(t, r) ==> Kept(s, r)
    ensures forall s, t :: Kept(s, t) ==> Sound(t)
    ensures forall s :: Sound(s) ==> Kept(s, s)
  {
    hide Kept, Sound;
    forall s, t, r | Kept(s, t) && Kept(t, r) ensures Kept(s, r) { KeptTransitive(s, t, r); }
    forall s, t | Kept(s, t) ensures Sound(t) { KeptSound(s, t); }
    forall s | Sound(s) ensures Kept(s, s) { SoundKept(s); }
  }

  // -- a move, end to end --------------------------------------------------

  lemma EmptyMouth(u: Unit)
    requires Tame(u) && NoMotion(u) && !u.m.discInBay
    ensures Load(u) == 0
  {
  }

  lemma TravelBound(m: Machine, args: Args)
    requires m.position <= 100 && args.x1 <= 100
    ensures MoveMs(m, args) <= BUSIEST_MS
  {
  }

  /** A move acknowledged by a quiet, empty-bayed unit is under way to just where it was sent. */
  lemma RequireMoved(s: Sim, args: Args)
    requires Quiet(s) && !s.u.m.discInBay && args.x1 <= 100
    requires args.x1 != 0 ==> Outlook(s.u).homed
    requires RequireRun(s, CMD_SET_POS, args, TRIES).reply.Some?
    ensures var t := RequireRun(s, CMD_SET_POS, args, TRIES).s;
            && Prompt(t) && Fresh(t.u, t.now)
            && Outlook(t.u) == MoveOutcome(Outlook(s.u), args)
            && !t.u.m.ackTimeout
            && OnlyBlips(s.u.w, t.u.w)
  {
    hide Quiet, Idles, RequireRun, Receive, Outlook, MoveMs, Foreseen;
    var h := RequireQuietHeard(s, CMD_SET_POS, args, TRIES);
    QuietParts(s);
    QuietParts(h);
    IdlesParts(s, h);
    MovedAt(s, h, args);
  }

  lemma QuietParts(s: Sim)
    requires Quiet(s)
    ensures Prompt(s) && Good(s.u) && Calm(s.u) && Fresh(s.u, s.now) && NoMotion(s.u) && CoreOf(s.u.m) == Outlook(s.u)
    ensures Outlook(s.u).position <= 100
    ensures !Outlook(s.u).bay ==> Load(s.u) == 0
  {
    hide Good, Fresh, Outlook, Tally;
    if !s.u.m.discInBay { EmptyMouth(s.u); }
  }

  lemma IdlesParts(s: Sim, t: Sim)
    requires Idles(s, t)
    ensures Prompt(t) && Outlook(t.u) == Outlook(s.u) && OnlyBlips(s.u.w, t.u.w)
    ensures t.u.m.ackTimeout == s.u.m.ackTimeout
  {
  }

  lemma MovedAt(s: Sim, h: Sim, args: Args)
    requires Good(h.u) && Fresh(h.u, h.now) && Load(h.u) == 0 && Calm(h.u)
    requires h.u.m.position <= 100 && args.x1 <= 100
    requires Receive(h.u, h.now, CMD_SET_POS, args).reply.Some?
    requires OnlyBlips(s.u.w, h.u.w)
    ensures var t := Reads(Sim(Receive(h.u, h.now, CMD_SET_POS, args).u, h.now), 1);
            && Prompt(t) && Fresh(t.u, t.now)
            && Outlook(t.u) == MoveOutcome(Outlook(h.u), args)
            && !t.u.m.ackTimeout
            && OnlyBlips(s.u.w, t.u.w)
  {
    hide Good, Fresh, Load, Calm, Receive, Outlook, MoveMs, Foreseen, Reads, OnlyBlips, Ages, LastExpiry;
    var v := Receive(h.u, h.now, CMD_SET_POS, args).u;
    MoveHeard(h, args);
    TravelBound(h.u.m, args);
    HeardOnlyBlips(s.u.w, h, CMD_SET_POS, args);
    ReadsPass(Sim(v, h.now), 1);
    AgesCalm(v, Reads(Sim(v, h.now), 1).u);
    AgesGood(v, Reads(Sim(v, h.now), 1).u);
    OutcomePosition(Outlook(h.u), args);
  }

  lemma HeardOnlyBlips(a: Wire, h: Sim, cmd: Byte, args: Args)
    requires OnlyBlips(a, h.u.w) && Receive(h.u, h.now, cmd, args).reply.Some?
    ensures OnlyBlips(a, Receive(h.u, h.now, cmd, args).u.w)
  {
    hide Receive;
    HeardDrops(h.u, h.now, cmd, args);
  }

  lemma OutcomePosition(c: Core, args: Args)
    ensures MoveOutcome(c, args).position == args.x1
  {
  }

  /** A retract acknowledged by a quiet unit is under way to putting the disc behind the mouth. */
  lemma RequireRetracted(s: Sim)
    requires Quiet(s) && RequireRun(s, CMD_RETRACT, NO_ARGS, TRIES).reply.Some?
    ensures var t := RequireRun(s, CMD_RETRACT, NO_ARGS, TRIES).s;
            Prompt(t) && Fresh(t.u, t.now) && Outlook(t.u) == Foreseen(Outlook(s.u), BackInSlot)
  {
    hide Quiet, Idles, RequireRun, Receive, Outlook, Foreseen;
    var h := RequireQuietHeard(s, CMD_RETRACT, NO_ARGS, TRIES);
    QuietParts(s);
    QuietParts(h);
    IdlesParts(s, h);
    RetractedAt(h);
  }

  lemma RetractedAt(h: Sim)
    requires Good(h.u) && Fresh(h.u, h.now) && Calm(h.u) && Outlook(h.u).position <= 100
    requires Receive(h.u, h.now, CMD_RETRACT, NO_ARGS).reply.Some?
    ensures var t := Reads(Sim(Receive(h.u, h.now, CMD_RETRACT, NO_ARGS).u, h.now), 1);
            Prompt(t) && Fresh(t.u, t.now) && Outlook(t.u) == Foreseen(Outlook(h.u), BackInSlot)
  {
    hide Good, Fresh, Load, Calm, Receive, Outlook, Reads, Ages, LastExpiry;
    var v := Receive(h.u, h.now, CMD_RETRACT, NO_ARGS).u;
    RetractHeard(h, NO_ARGS);
    ReadsPass(Sim(v, h.now), 1);
    AgesCalm(v, Reads(Sim(v, h.now), 1).u);
    AgesGood(v, Reads(Sim(v, h.now), 1).u);
  }
}
