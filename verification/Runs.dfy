/**
 What each polling loop of the host does to the unit and the clock, as functions
 of the state it starts in, and what those loops can be relied on for.
 */
module Runs {
  import opened Wrappers
  import opened Firmware
  import opened FirmwareLaws
  import opened CommandLaws

  const ST_BUSY: bv16 := 0x8080
  const ST_DISC_WAITING: bv16 := 0x1000
  const ST_NEW_DISC_ACK: bv16 := 0x0800
  const ST_DISC_IN_BAY: bv16 := 0x0400
  const ST_ACK_TIMEOUT: bv16 := 0x0200
  const ST_HOMED: bv16 := 0x0001

  const SETTLE_WAIT_MS := 30_000
  const ACK_MS := 3_000
  const POLL_MS := 100
  const NOW_MS := 500
  const INSERT_WINDOW_MS := 30_000
  const TAKE_WINDOW_MS := 5_000
  const RETRY_WAIT_MS := 2_000

  // -- the loops -----------------------------------------------------------

  /** Reading the stream for `n` poll intervals. */
  function Reads(s: Sim, n: nat): Sim {
    if n == 0 then s
    else
      var p := Reads(s, n - 1);
      Sim(RunDue(p.u, p.now + POLL_MS), p.now + POLL_MS)
  }

  /** The unit as a command finds it: one repeat interval after it was asked for. */
  function Found(s: Sim): Sim { Sim(RunDue(s.u, s.now + REPEAT_MS), s.now + REPEAT_MS) }

  datatype Exchange = Exchange(s: Sim, reply: Option<Payload>)

  /** One command: a reply exactly if the unit processed it, found on the first read; otherwise the full wait. */
  function CommandRun(s: Sim, cmd: Byte, args: Args): Exchange {
    var f := Found(s);
    var r := Receive(f.u, f.now, cmd, args);
    if r.reply.Some? then Exchange(Reads(Sim(r.u, f.now), 1), r.reply)
    else Exchange(Reads(Sim(r.u, f.now), ACK_MS / POLL_MS), None)
  }

  /** The status word the unit answers a poll with. */
  function Sample(s: Sim): bv16 { StatusWord(Found(s).u, Found(s).now) }

  /** The state after one status request. */
  function Poll(s: Sim): Sim { CommandRun(s, CMD_REQUEST_STATE, NO_ARGS).s }

  datatype Watch = Watch(s: Sim, ok: bool)

  predicate Shows(word: bv16, mask: bv16, want: bv16) { word & mask == want }

  function WaitRun(s: Sim, mask: bv16, want: bv16, deadline: int): Watch
    decreases deadline - s.now
  {
    PollTakes(s);
    var p := Poll(s);
    if Shows(Sample(s), mask, want) then Watch(p, true)
    else if p.now >= deadline then Watch(p, false)
    else WaitRun(p, mask, want, deadline)
  }

  function IdleRun(s: Sim, timeout: int): Watch { WaitRun(s, ST_BUSY, 0, s.now + timeout) }

  function RequireRun(s: Sim, cmd: Byte, args: Args, tries: nat): Exchange
    decreases tries
  {
    if tries == 0 then Exchange(s, None)
    else
      var e := CommandRun(s, cmd, args);
      if e.reply.Some? || tries == 1 then e
      else RequireRun(IdleRun(e.s, RETRY_WAIT_MS).s, cmd, args, tries - 1)
  }

  lemma ReadsOnce(s: Sim)
    ensures Reads(s, 1) == Sim(RunDue(s.u, s.now + POLL_MS), s.now + POLL_MS)
  {
    hide RunDue;
    assert Reads(s, 0) == s;
  }

  // -- what a poll shows ---------------------------------------------------

  lemma WireUnseen(u: Unit, w: Wire, now: int)
    ensures StatusReply(u.(w := w), now) == StatusReply(u, now)
  {
  }

  lemma ReceiveStatus(u: Unit, now: int)
    ensures var r := Receive(u, now, CMD_REQUEST_STATE, NO_ARGS);
            && r.reply == Some(StatusReply(u, now))
            && r.u == u.(w := Log(u.m, u.w, CMD_REQUEST_STATE, NO_ARGS))
  {
    hide StatusReply, SerialReply, SetPos, Retract, AcceptDisc, Log, Draw;
    WireUnseen(u, Log(u.m, u.w, CMD_REQUEST_STATE, NO_ARGS), now);
  }

  /** A poll takes 243 ms, whatever state the unit is in. */
  lemma PollTakes(s: Sim)
    ensures Poll(s).now == s.now + REPEAT_MS + POLL_MS
  {
    hide Receive, RunDue;
    var f := Found(s);
    ReceiveStatus(f.u, f.now);
    var r := Receive(f.u, f.now, CMD_REQUEST_STATE, NO_ARGS);
    assert Reads(Sim(r.u, f.now), 1).now == Reads(Sim(r.u, f.now), 0).now + POLL_MS;
  }

  /** Each mask of the host recovers exactly the flag it names, whatever the undecoded bits say. */
  lemma MasksDecode(u: Unit, now: int)
    ensures StatusWord(u, now) & ST_BUSY == 0 <==> !Busy(u, now)
    ensures StatusWord(u, now) & ST_DISC_WAITING == ST_DISC_WAITING <==> u.m.discWaiting
    ensures StatusWord(u, now) & ST_DISC_IN_BAY == 0 <==> !u.m.discInBay
    ensures StatusWord(u, now) & ST_HOMED == 0 <==> !u.m.homed
  {
    MaskBits(Busy(u, now), u.working, u.m);
  }

  /** So do the two masks the waits have no use for. */
  lemma OtherMasksDecode(u: Unit, now: int)
    ensures StatusWord(u, now) & ST_NEW_DISC_ACK == 0 <==> !u.m.newDiscAck
    ensures StatusWord(u, now) & ST_ACK_TIMEOUT == 0 <==> !u.m.ackTimeout
  {
    OtherBits(Busy(u, now), u.working, u.m);
  }

  lemma OtherBits(busy: bool, working: bool, m: Machine)
    ensures var st := Flag(busy, if working then BUSY_IDLE | BUSY_WORKING else BUSY_IDLE)
                      | Flag(m.discWaiting, DISC_WAITING) | Flag(m.newDiscAck, NEW_DISC_ACK)
                      | Flag(m.discInBay, DISC_IN_BAY) | Flag(m.ackTimeout, ACK_TIMEOUT)
                      | Flag(m.retracted, RETRACTED) | Flag(m.unknownBit, UNKNOWN) | Flag(m.homed, HOMED);
            (st & ST_NEW_DISC_ACK == 0 <==> !m.newDiscAck) && (st & ST_ACK_TIMEOUT == 0 <==> !m.ackTimeout)
  {
  }

  lemma MaskBits(busy: bool, working: bool, m: Machine)
    ensures var st := Flag(busy, if working then BUSY_IDLE | BUSY_WORKING else BUSY_IDLE)
                      | Flag(m.discWaiting, DISC_WAITING) | Flag(m.newDiscAck, NEW_DISC_ACK)
                      | Flag(m.discInBay, DISC_IN_BAY) | Flag(m.ackTimeout, ACK_TIMEOUT)
                      | Flag(m.retracted, RETRACTED) | Flag(m.unknownBit, UNKNOWN) | Flag(m.homed, HOMED);
            && (st & ST_BUSY == 0 <==> !busy)
            && (st & ST_DISC_WAITING == ST_DISC_WAITING <==> m.discWaiting)
            && (st & ST_DISC_IN_BAY == 0 <==> !m.discInBay)
            && (st & ST_HOMED == 0 <==> !m.homed)
  {
  }

  /** The status word survives the wire: split into two bytes and rebuilt it is unchanged. */
  function Decode(p: Payload): bv16 { ((p.x2 as bv16) << 8) | (p.x3 as bv16) }

  lemma WordRoundTrip(word: bv16)
    ensures (((((word >> 8) & 0xFF) as bv8) as bv16) << 8) | (((word & 0xFF) as bv8) as bv16) == word
  {
  }

  lemma StatusRoundTrip(u: Unit, now: int)
    ensures Decode(StatusReply(u, now)) == StatusWord(u, now)
  {
    hide StatusWord;
    WordRoundTrip(StatusWord(u, now));
  }

  /** The serial as the host rebuilds it. */
  function U32(p: Payload): bv32 {
    ((p.x1 as bv32) << 24) | ((p.x2 as bv32) << 16) | ((p.x3 as bv32) << 8) | (p.x4 as bv32)
  }

  lemma SerialRoundTrip(serial: bv32)
    ensures U32(SerialReply(serial)) == serial
  {
  }

  // -- what waiting can be relied on for -----------------------------------

  /** Two moments of the unit with nothing but talk in between. */
  ghost predicate Passes(s: Sim, t: Sim) {
    && s.now <= t.now
    && Ages(s.u, t.u)
    && (Fresh(s.u, s.now) ==> Fresh(t.u, t.now))
  }

  lemma AgesGood(u: Unit, v: Unit)
    requires Ages(u, v)
    ensures Good(v)
  {
  }

  lemma {:induction false} ReadsPass(s: Sim, n: nat)
    requires Good(s.u)
    ensures Passes(s, Reads(s, n)) && Reads(s, n).now == s.now + n * POLL_MS
    ensures Reads(s, n).u.w == s.u.w
    ensures n > 0 ==> Fresh(Reads(s, n).u, Reads(s, n).now)
    ensures Calm(s.u) ==> SameBusy(s.u, Reads(s, n).u)
  {
    hide Good, Ages, Fresh, RunDue, Tame;
    if n == 0 {
      AgesReflexive(s.u);
    } else {
      var p := Reads(s, n - 1);
      ReadsPass(s, n - 1);
      AgesGood(s.u, p.u);
      RunDueAges(p.u, p.now + POLL_MS);
      AgesTransitive(s.u, p.u, Reads(s, n).u);
      AgesCalm(s.u, p.u);
    }
  }

  lemma AgesReaching(u: Unit, v: Unit)
    requires Ages(u, v)
    ensures Reaching(v) <= Reaching(u)
  {
    hide Good, Accounted, Load, LastExpiry, OnlyTalked, Outlook, NoMotion, Tally;
  }

  lemma AgesCalm(u: Unit, v: Unit)
    requires Ages(u, v)
    ensures Calm(u) ==> Calm(v) && Outlook(v) == Outlook(u)
    ensures Tame(u) ==> Tame(v) && LastExpiry(v.events) <= LastExpiry(u.events)
    ensures NoMotion(u) ==> NoMotion(v)
    ensures Load(v) <= Load(u) && Accounted(u, v)
  {
  }

  lemma FoundPasses(s: Sim)
    requires Good(s.u)
    ensures Passes(s, Found(s)) && Good(Found(s).u) && Fresh(Found(s).u, Found(s).now) && Found(s).u.w == s.u.w
    ensures Calm(s.u) ==> SameBusy(s.u, Found(s).u)
  {
    hide Good, Ages, Fresh, RunDue, Calm;
    RunDueAges(s.u, s.now + REPEAT_MS);
    AgesGood(s.u, Found(s).u);
  }

  /** A command that is lost, or moves nothing, is only time passing. */
  lemma CommandPasses(s: Sim, cmd: Byte, args: Args)
    requires Good(s.u) && (CommandRun(s, cmd, args).reply.None? || !Actuates(cmd))
    ensures Passes(s, CommandRun(s, cmd, args).s)
    ensures Fresh(CommandRun(s, cmd, args).s.u, CommandRun(s, cmd, args).s.now)
  {
    hide Good, Ages, Fresh, Receive, Found;
    var f := Found(s);
    var r := Receive(f.u, f.now, cmd, args);
    var n := if r.reply.Some? then 1 else ACK_MS / POLL_MS;
    FoundPasses(s);
    PassiveAges(f.u, f.now, cmd, args);
    AgesGood(f.u, r.u);
    ReadsPass(Sim(r.u, f.now), n);
    AgesTransitive(s.u, f.u, r.u);
    AgesTransitive(s.u, r.u, Reads(Sim(r.u, f.now), n).u);
  }

  lemma PollPasses(s: Sim)
    requires Good(s.u)
    ensures Passes(s, Poll(s)) && Good(Poll(s).u) && Fresh(Poll(s).u, Poll(s).now)
    ensures Passes(Found(s), Poll(s))
    ensures Calm(s.u) ==> SameBusy(s.u, Poll(s).u)
  {
    hide Good, Ages, Fresh, Receive, RunDue, Calm, Found;
    var f := Found(s);
    var r := Receive(f.u, f.now, CMD_REQUEST_STATE, NO_ARGS);
    FoundPasses(s);
    ReceiveStatus(f.u, f.now);
    PassiveAges(f.u, f.now, CMD_REQUEST_STATE, NO_ARGS);
    AgesGood(f.u, r.u);
    ReadsPass(Sim(r.u, f.now), 1);
    AgesTransitive(f.u, r.u, Poll(s).u);
    AgesTransitive(s.u, f.u, Poll(s).u);
    AgesGood(s.u, Poll(s).u);
    AgesCalm(s.u, f.u);
    AgesCalm(f.u, r.u);
  }

  /** A wait gives up no sooner than its deadline and no later than one poll after it. */
  lemma {:induction false} WaitTakes(s: Sim, mask: bv16, want: bv16, deadline: int)
    ensures var w := WaitRun(s, mask, want, deadline);
            && s.now + 243 <= w.s.now <= Max(s.now, deadline) + 243
            && (!w.ok ==> w.s.now >= deadline)
    decreases deadline - s.now
  {
    hide Poll, Sample;
    PollTakes(s);
    if !Shows(Sample(s), mask, want) && Poll(s).now < deadline {
      WaitTakes(Poll(s), mask, want, deadline);
    }
  }

  /**
   A wait that succeeds does so on a status asked for within it: the word its last
   request was answered with, which was the unit's own when it heard the request.
   */
  lemma {:induction false} WaitSound(s: Sim, mask: bv16, want: bv16, deadline: int) returns (t: Sim)
    requires WaitRun(s, mask, want, deadline).ok
    ensures s.now <= t.now && WaitRun(s, mask, want, deadline).s == Poll(t)
    ensures var reply := CommandRun(t, CMD_REQUEST_STATE, NO_ARGS).reply;
            reply.Some? && Decode(reply.value) == StatusWord(Found(t).u, Found(t).now)
            && Shows(Decode(reply.value), mask, want)
    decreases deadline - s.now
  {
    hide CommandRun, Shows, Found, StatusWord, Decode;
    PollTakes(s);
    StatusRun(s);
    t := s;
    if !Shows(Sample(s), mask, want) {
      t := WaitSound(Poll(s), mask, want, deadline);
    }
  }

  lemma {:induction false} WaitPasses(s: Sim, mask: bv16, want: bv16, deadline: int)
    requires Good(s.u)
    ensures var w := WaitRun(s, mask, want, deadline);
            && Passes(s, w.s) && Fresh(w.s.u, w.s.now)
            && (Calm(s.u) ==> SameBusy(s.u, w.s.u))
    decreases deadline - s.now
  {
    hide Good, Ages, Fresh, Poll, Tame, Sample;
    PollPasses(s);
    PollTakes(s);
    var p := Poll(s);
    if !Shows(Sample(s), mask, want) && p.now < deadline {
      AgesCalm(s.u, p.u);
      WaitPasses(p, mask, want, deadline);
      AgesTransitive(s.u, p.u, WaitRun(p, mask, want, deadline).s.u);
    }
  }

  lemma WaitStep(s: Sim, mask: bv16, want: bv16, deadline: int)
    ensures var p := Poll(s);
            WaitRun(s, mask, want, deadline)
            == if Shows(Sample(s), mask, want) then Watch(p, true)
               else if p.now >= deadline then Watch(p, false)
               else WaitRun(p, mask, want, deadline)
  {
    hide Poll, Sample, Shows;
  }

  // -- idleness ------------------------------------------------------------

  /** Nothing is moving and nothing is due to be: the state `wait_idle` is there to reach. */
  ghost predicate AtRest(s: Sim) {
    Good(s.u) && Fresh(s.u, s.now) && NoMotion(s.u)
  }

  /** A wait that saw the unit idle saw it finished. */
  lemma {:induction false} IdleSeen(s: Sim, deadline: int)
    requires Good(s.u) && WaitRun(s, ST_BUSY, 0, deadline).ok
    ensures AtRest(WaitRun(s, ST_BUSY, 0, deadline).s)
    decreases deadline - s.now
  {
    hide Good, Ages, Fresh, Poll, Sample, NoMotion, StatusWord, Found;
    PollPasses(s);
    PollTakes(s);
    if Sample(s) & ST_BUSY == 0 {
      FoundPasses(s);
      MasksDecode(Found(s).u, Found(s).now);
      SampleIs(s);
      IdleMeansDone(Found(s).u, Found(s).now);
      AgesCalm(Found(s).u, Poll(s).u);
    } else {
      IdleSeen(Poll(s), deadline);
    }
  }

  lemma SampleIs(s: Sim)
    ensures Sample(s) == StatusWord(Found(s).u, Found(s).now)
  {
  }

  /** A calm unit is heard idle within one poll of the end of its busy window. */
  lemma {:induction false} CalmGoesIdle(s: Sim, deadline: int)
    requires Good(s.u) && Calm(s.u) && s.u.busyUntil < deadline - POLL_MS
    ensures var w := WaitRun(s, ST_BUSY, 0, deadline);
            w.ok && w.s.now <= Max(s.u.busyUntil + 343, s.now + 243) && !Busy(w.s.u, w.s.now)
    decreases deadline - s.now
  {
    hide Good, Ages, Fresh, Poll, Sample, NoMotion, StatusWord, Found, Calm;
    PollPasses(s);
    PollTakes(s);
    FoundPasses(s);
    MasksDecode(Found(s).u, Found(s).now);
    SampleIs(s);
    FoundTakes(s);
    if Sample(s) & ST_BUSY != 0 {
      AgesCalm(s.u, Poll(s).u);
      CalmGoesIdle(Poll(s), deadline);
    }
  }

  lemma FoundTakes(s: Sim)
    ensures Found(s).now == s.now + REPEAT_MS
  {
  }

  // -- retries -------------------------------------------------------------

  /** The command was heard at `h`, and its reply found on the next read. */
  ghost predicate HeardAt(s: Sim, h: Sim, cmd: Byte, args: Args, e: Exchange) {
    var r := Receive(h.u, h.now, cmd, args);
    && Passes(s, h) && Good(h.u) && Fresh(h.u, h.now)
    && r.reply.Some? && e == Exchange(Reads(Sim(r.u, h.now), 1), r.reply)
  }

  lemma CommandHeardAt(s: Sim, cmd: Byte, args: Args)
    requires Good(s.u) && CommandRun(s, cmd, args).reply.Some?
    ensures HeardAt(s, Found(s), cmd, args, CommandRun(s, cmd, args))
  {
    hide Good, Ages, Fresh, Receive, RunDue, Reads;
    FoundPasses(s);
  }

  /** A retried command that is never acknowledged was never processed. */
  lemma {:induction false} RequireLost(s: Sim, cmd: Byte, args: Args, tries: nat)
    requires Good(s.u) && tries > 0 && RequireRun(s, cmd, args, tries).reply.None?
    ensures Passes(s, RequireRun(s, cmd, args, tries).s)
    ensures Fresh(RequireRun(s, cmd, args, tries).s.u, RequireRun(s, cmd, args, tries).s.now)
    decreases tries
  {
    hide Good, Ages, Fresh, CommandRun, WaitRun;
    CommandPasses(s, cmd, args);
    if tries > 1 {
      var t := CommandRun(s, cmd, args).s;
      AgesGood(s.u, t.u);
      WaitPasses(t, ST_BUSY, 0, t.now + RETRY_WAIT_MS);
      var w := IdleRun(t, RETRY_WAIT_MS).s;
      AgesGood(t.u, w.u);
      RequireLost(w, cmd, args, tries - 1);
      AgesTransitive(s.u, t.u, w.u);
      AgesTransitive(s.u, w.u, RequireRun(w, cmd, args, tries - 1).s.u);
    }
  }

  /** One that is acknowledged was processed exactly once, after nothing but waiting. */
  lemma {:induction false} RequireHeard(s: Sim, cmd: Byte, args: Args, tries: nat) returns (h: Sim)
    requires Good(s.u) && RequireRun(s, cmd, args, tries).reply.Some?
    ensures HeardAt(s, h, cmd, args, RequireRun(s, cmd, args, tries))
    decreases tries
  {
    hide Good, Ages, Fresh, CommandRun, WaitRun, Receive, Reads;
    if CommandRun(s, cmd, args).reply.Some? || tries <= 1 {
      CommandHeardAt(s, cmd, args);
      h := Found(s);
    } else {
      CommandPasses(s, cmd, args);
      var t := CommandRun(s, cmd, args).s;
      AgesGood(s.u, t.u);
      WaitPasses(t, ST_BUSY, 0, t.now + RETRY_WAIT_MS);
      var w := IdleRun(t, RETRY_WAIT_MS).s;
      AgesGood(t.u, w.u);
      h := RequireHeard(w, cmd, args, tries - 1);
      AgesTransitive(s.u, t.u, w.u);
      AgesTransitive(s.u, w.u, h.u);
    }
  }

  /** A status request is never lost: it is answered at once, with the word of that instant. */
  lemma StatusRun(s: Sim)
    ensures CommandRun(s, CMD_REQUEST_STATE, NO_ARGS).reply.Some?
    ensures Decode(CommandRun(s, CMD_REQUEST_STATE, NO_ARGS).reply.value) == Sample(s)
    ensures forall tries: nat | tries > 0 ::
              RequireRun(s, CMD_REQUEST_STATE, NO_ARGS, tries) == CommandRun(s, CMD_REQUEST_STATE, NO_ARGS)
  {
    hide Receive, StatusReply, StatusWord, Decode;
    ReceiveStatus(Found(s).u, Found(s).now);
    StatusRoundTrip(Found(s).u, Found(s).now);
  }

  /** Nor is a request for the serial or the version. */
  lemma ToldRun(s: Sim, cmd: Byte)
    requires AlwaysAnswered(cmd)
    ensures CommandRun(s, cmd, NO_ARGS).reply.Some?
    ensures cmd == CMD_GET_SERIAL ==> CommandRun(s, cmd, NO_ARGS).reply == Some(SerialReply(s.u.w.serial))
    ensures cmd == CMD_VERSION_A ==> CommandRun(s, cmd, NO_ARGS).reply == Some(Payload(0x01, 0x04, 0x23, 0x17))
    ensures cmd == CMD_VERSION_B ==> CommandRun(s, cmd, NO_ARGS).reply == Some(Payload(0x00, 0x02, 0x00, 0x79))
  {
    hide RunDue, Receive, SerialReply, StatusReply, Reads;
    var f := Found(s);
    RunDueWire(s.u, f.now);
    AlwaysHeard(f.u, f.now, cmd, NO_ARGS);
  }
}
