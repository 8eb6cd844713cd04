/**
 What hands at the bay can do to a wait, and how many of them it takes. Each
 take keeps the unit busy for a moment, so hands that keep coming keep it from
 ever being seen idle; but each can hide it from four looks at most.
 */
module Hands {
  import opened Firmware
  import opened FirmwareLaws
  import opened CommandLaws
  import opened Runs
  import opened Courses

  const LOOK_MS: nat := REPEAT_MS + POLL_MS

  // -- what hands can spend ------------------------------------------------

  /** No longer busy than it was, but for hands that have since reached in; and then for a moment at most. */
  predicate Spent(u: Unit, v: Unit, now: int) {
    || (Reaching(v) == Reaching(u) && v.busyUntil == u.busyUntil)
    || (Reaching(v) < Reaching(u) && v.busyUntil <= Max(u.busyUntil, now + TAKE_MS))
  }

  lemma StepSpends(u: Unit, now: int)
    requires u.events != [] && Good(u) && Tame(u)
    ensures Spent(u, Step(u, now), now)
  {
    hide Good, Step, Tally, Altered, Follows, OneMore, One, Requeued;
    GoodQueue(u);
    StepStepped(u, now);
    HeadKind(u);
    FollowsKinds(u.m, u.events[0].what);
    StepTally(u, Step(u, now), now);
    TameLabour(u.m, u.events[0].what);
  }

  lemma StepTally(u: Unit, v: Unit, now: int)
    requires u.events != [] && Stepped(u, v, now)
    ensures Reaching(u) == Reaching(v) + if u.events[0].what.Taken? then 1 else 0
  {
    hide Tally, Altered, Labour, Follows, OneMore, One;
    FollowsKinds(u.m, u.events[0].what);
    TakenCounts(u.events[0].what);
  }

  lemma TakenCounts(h: Happening)
    ensures One(h).takes == if h.Taken? then 1 else 0
  {
  }

  lemma TameLabour(m: Machine, h: Happening)
    requires !m.newDiscAck && !h.DiscArrives? && !h.DrawnOff?
    ensures Labour(m, h) == if h.Taken? then TAKE_MS else 0
  {
  }

  lemma {:induction false} RunDueSpends(u: Unit, now: int)
    requires Good(u) && Tame(u)
    ensures Spent(u, RunDue(u, now), now)
    decreases DueCount(u.events, now)
  {
    hide Good, Tame, Fire, Reaching;
    if u.events != [] && u.events[0].when <= now {
      var v := Step(u, now);
      GoodQueue(u);
      StepSpends(u, now);
      StepGood(u, now);
      StepKeepsTame(u, now);
      FireDue(Popped(u), u.events[0].what, now);
      RunDueSpends(v, now);
      assert RunDue(u, now) == RunDue(v, now);
    }
  }

  lemma FoundSpends(s: Sim)
    requires Good(s.u) && Tame(s.u)
    ensures Spent(s.u, Found(s).u, s.now + REPEAT_MS) && Good(Found(s).u) && Tame(Found(s).u)
  {
    hide Good, Tame, RunDue, Fresh, Ages, Spent;
    RunDueSpends(s.u, s.now + REPEAT_MS);
    FoundPasses(s);
    AgesCalm(s.u, Found(s).u);
  }

  lemma AskedSpends(f: Sim)
    requires Good(f.u) && Tame(f.u)
    ensures var r := Receive(f.u, f.now, CMD_REQUEST_STATE, NO_ARGS).u;
            && Good(r) && Tame(r)
            && forall v, now | Spent(r, v, now) :: Spent(f.u, v, now)
  {
    hide Good, Tame, Receive, Ages, Reaching, StatusReply, Log;
    var r := Receive(f.u, f.now, CMD_REQUEST_STATE, NO_ARGS).u;
    ReceiveStatus(f.u, f.now);
    PassiveAges(f.u, f.now, CMD_REQUEST_STATE, NO_ARGS);
    AgesGood(f.u, r);
    AgesCalm(f.u, r);
    SameReaching(f.u, r);
  }

  /** One look: hands may reach in before it, and before the read that follows it. */
  lemma PollSpends(s: Sim)
    requires Good(s.u) && Tame(s.u)
    ensures Spent(s.u, Found(s).u, s.now + REPEAT_MS)
    ensures Spent(Found(s).u, Poll(s).u, s.now + LOOK_MS)
    ensures Good(Poll(s).u) && Tame(Poll(s).u)
  {
    hide Good, Tame, RunDue, Receive, Fresh, Ages, Spent, Found;
    var f := Found(s);
    var r := Receive(f.u, f.now, CMD_REQUEST_STATE, NO_ARGS);
    FoundSpends(s);
    FoundTakes(s);
    AskedSpends(f);
    ReceiveStatus(f.u, f.now);
    ReadsOnce(Sim(r.u, f.now));
    RunDueSpends(r.u, f.now + POLL_MS);
    PollPasses(s);
    AgesCalm(s.u, Poll(s).u);
  }

  lemma SameReaching(u: Unit, v: Unit)
    requires v.events == u.events
    ensures Reaching(v) == Reaching(u)
  {
  }

  /** The unit is idle, hands apart, from the look `looks` looks from now. */
  predicate IdleBy(s: Sim, looks: nat) { s.u.busyUntil <= s.now + REPEAT_MS + LOOK_MS * looks }

  /** How many looks it can be hidden from. */
  function Hidden(s: Sim, looks: nat): nat { looks + 4 * Reaching(s.u) }

  /** A look that finds the unit busy uses one of those up. */
  lemma LookSpends(s: Sim, looks: nat) returns (left: nat)
    requires Good(s.u) && Tame(s.u) && IdleBy(s, looks) && Busy(Found(s).u, Found(s).now)
    ensures IdleBy(Poll(s), left) && Hidden(Poll(s), left) < Hidden(s, looks)
  {
    hide Good, Tame, Reaching, Poll, RunDue;
    PollSpends(s);
    PollTakes(s);
    FoundTakes(s);
    var f, p := Found(s).u, Poll(s).u;
    left := if Reaching(p) < Reaching(f) then (if looks > 5 then looks - 1 else 4)
            else if Reaching(f) < Reaching(s.u) then (if looks > 4 then looks - 1 else 3)
            else looks - 1;
  }

  /** So a wait with more looks in it than that sees the unit idle. */
  lemma {:induction false} FewHandsSeenPast(s: Sim, looks: nat, deadline: int)
    requires Good(s.u) && Tame(s.u) && IdleBy(s, looks)
    requires Hidden(s, looks) == 0 || s.now + LOOK_MS * Hidden(s, looks) < deadline
    ensures WaitRun(s, ST_BUSY, 0, deadline).ok
    decreases deadline - s.now
  {
    hide Good, Tame, Reaching, Poll, Sample, Shows, StatusWord, Busy, Found;
    PollTakes(s);
    FoundTakes(s);
    MasksDecode(Found(s).u, Found(s).now);
    SampleIs(s);
    LookIsIdle(s);
    WaitStep(s, ST_BUSY, 0, deadline);
    if !Shows(Sample(s), ST_BUSY, 0) {
      PollSpends(s);
      var left := LookSpends(s, looks);
      FewHandsSeenPast(Poll(s), left, deadline);
    }
  }

  lemma LookIsIdle(s: Sim)
    ensures Shows(Sample(s), ST_BUSY, 0) <==> Sample(s) & ST_BUSY == 0
  {
    hide Sample;
  }

  // -- and what they can hide ----------------------------------------------

  /** At that instant the unit is busy, or a take but lately due will have made it so. */
  ghost predicate Covers(u: Unit, x: int) {
    x < u.busyUntil || exists e :: e in u.events && e.what.Taken? && e.when <= x < e.when + TAKE_MS
  }

  lemma StepCovers(u: Unit, now: int, x: int)
    requires Good(u) && u.events != [] && u.events[0].when <= now <= x && Covers(u, x)
    ensures Covers(Step(u, now), x)
  {
    hide Good, Step, Tally, Altered, Follows, Requeued;
    GoodQueue(u);
    StepStepped(u, now);
    if x >= u.busyUntil {
      var e :| e in u.events && e.what.Taken? && e.when <= x < e.when + TAKE_MS;
      StepKeeps(u, Step(u, now), now, e);
    }
  }

  lemma StepKeeps(u: Unit, v: Unit, now: int, e: Event)
    requires u.events != [] && Stepped(u, v, now) && e in u.events && e.what.Taken?
    ensures e in v.events || (e == u.events[0] && v.busyUntil >= now + TAKE_MS)
  {
    hide Tally, Altered, Follows;
    assert u.events == [u.events[0]] + u.events[1..];
  }

  lemma {:induction false} RunDueCovers(u: Unit, now: int, x: int)
    requires Good(u) && now <= x && Covers(u, x)
    ensures Covers(RunDue(u, now), x)
    decreases DueCount(u.events, now)
  {
    hide Good, Fire, Covers;
    if u.events != [] && u.events[0].when <= now {
      StepCovers(u, now, x);
      StepGood(u, now);
      FireDue(Popped(u), u.events[0].what, now);
      RunDueCovers(Step(u, now), now, x);
      assert RunDue(u, now) == RunDue(Step(u, now), now);
    }
  }

  /** A unit whose due takes have run is busy at an instant covered. */
  lemma CoveredBusy(f: Sim)
    requires Covers(f.u, f.now) && Fresh(f.u, f.now)
    ensures Busy(f.u, f.now)
  {
  }

  lemma FoundCovers(s: Sim, x: int)
    requires Good(s.u) && Covers(s.u, x) && s.now + REPEAT_MS <= x
    ensures Covers(Found(s).u, x)
  {
    hide Good, RunDue, Covers;
    RunDueCovers(s.u, s.now + REPEAT_MS, x);
  }

  lemma PollCovers(s: Sim, x: int)
    requires Good(s.u) && Covers(s.u, x) && s.now + LOOK_MS <= x
    ensures Covers(Poll(s).u, x)
  {
    hide Good, RunDue, Receive, Fresh, Ages;
    var f := Found(s);
    var r := Receive(f.u, f.now, CMD_REQUEST_STATE, NO_ARGS);
    FoundPasses(s);
    FoundCovers(s, x);
    ReceiveStatus(f.u, f.now);
    PassiveAges(f.u, f.now, CMD_REQUEST_STATE, NO_ARGS);
    AgesGood(f.u, r.u);
    ReadsOnce(Sim(r.u, f.now));
    RunDueCovers(r.u, f.now + POLL_MS, x);
  }

  /** Each of the next `n` looks of a wait that starts now is covered. */
  ghost predicate Knocked(s: Sim, n: nat) {
    forall k: nat | k < n :: Covers(s.u, Look(s.now, k))
  }

  function Look(start: int, k: nat): int { start + REPEAT_MS + LOOK_MS * k }

  /** However many looks hands hide the unit from, so long a wait for idle goes on in vain. */
  lemma {:induction false} KnockedNeverIdle(s: Sim, n: nat, deadline: int)
    requires Good(s.u) && Knocked(s, n) && n > 0 && deadline <= s.now + LOOK_MS * n
    ensures !WaitRun(s, ST_BUSY, 0, deadline).ok
    decreases n
  {
    hide Good, Covers, Poll, Sample, Shows, Found, Fresh, Ages, StatusWord, Busy;
    var f, p := Found(s), Poll(s);
    PollTakes(s);
    FoundPasses(s);
    FoundTakes(s);
    assert Look(s.now, 0) == f.now;
    FoundCovers(s, f.now);
    CoveredBusy(f);
    MasksDecode(f.u, f.now);
    SampleIs(s);
    LookIsIdle(s);
    WaitStep(s, ST_BUSY, 0, deadline);
    PollPasses(s);
    if p.now < deadline {
      forall k: nat | k < n - 1 ensures Covers(p.u, Look(p.now, k)) {
        assert Look(s.now, k + 1) == Look(p.now, k);
        PollCovers(s, Look(p.now, k));
      }
      KnockedNeverIdle(p, n - 1, deadline);
    }
  }

  const KNOCK_MS: nat := 4 * LOOK_MS

  /** The unit with `n` takes to come, one at every fourth look from `first` on. */
  function Knocks(u: Unit, first: int, n: nat): Unit {
    if n == 0 then u else At(Knocks(u, first, n - 1), first + (n - 1) * KNOCK_MS, Taken)
  }

  lemma {:induction false} KnocksCover(u: Unit, first: int, n: nat)
    requires Good(u)
    ensures Good(Knocks(u, first, n)) && Knocks(u, first, n).busyUntil == u.busyUntil
    ensures Reaching(Knocks(u, first, n)) == Reaching(u) + n
    ensures forall k: nat | k < 4 * n :: Covers(Knocks(u, first, n), first + LOOK_MS * k)
    ensures forall x | Covers(u, x) :: Covers(Knocks(u, first, n), x)
  {
    hide Good, Enqueue, Accounted, Tally;
    if n > 0 {
      var v, when := Knocks(u, first, n - 1), first + (n - 1) * KNOCK_MS;
      KnocksCover(u, first, n - 1);
      TakeAnytime(v, when);
      GoodQueue(v);
      EnqueueMembers(v.events, Event(when, v.seqno + 1, Taken));
      EnqueueTally(v.events, Event(when, v.seqno + 1, Taken));
      forall x | Covers(v, x) ensures Covers(At(v, when, Taken), x) {}
      forall k: nat | k < 4 * n ensures Covers(At(v, when, Taken), first + LOOK_MS * k) {
        if k < 4 * (n - 1) {
          assert Covers(v, first + LOOK_MS * k);
        } else {
          assert Event(when, v.seqno + 1, Taken) in At(v, when, Taken).events;
        }
      }
    }
  }

  /** The most hands that cannot defeat a wait of thirty seconds for a unit otherwise idle. */
  const STALL_HANDS: nat := 30

  lemma HandsNeeded(s: Sim)
    requires Good(s.u) && Tame(s.u) && s.u.busyUntil <= s.now && Reaching(s.u) <= STALL_HANDS
    ensures IdleRun(s, SETTLE_WAIT_MS).ok
  {
    hide Good, Tame, WaitRun, Reaching;
    FewHandsSeenPast(s, 0, s.now + SETTLE_WAIT_MS);
  }

  /** One more is enough, whatever the unit is doing. */
  lemma HandsStallAnything(s: Sim)
    requires Good(s.u)
    ensures var t := Sim(Knocks(s.u, s.now + REPEAT_MS, STALL_HANDS + 1), s.now);
            Good(t.u) && Reaching(t.u) == Reaching(s.u) + STALL_HANDS + 1 && !IdleRun(t, SETTLE_WAIT_MS).ok
  {
    hide Good, WaitRun, Knocks, Covers, Reaching;
    var t := Sim(Knocks(s.u, s.now + REPEAT_MS, STALL_HANDS + 1), s.now);
    KnocksCover(s.u, s.now + REPEAT_MS, STALL_HANDS + 1);
    forall k: nat | k < 124 ensures Covers(t.u, Look(t.now, k)) {
      assert Covers(t.u, s.now + REPEAT_MS + LOOK_MS * k);
    }
    KnockedNeverIdle(t, 124, t.now + SETTLE_WAIT_MS);
  }
}
