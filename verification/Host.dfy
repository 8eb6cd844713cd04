/**
 The host's side of the protocol: one unit behind one transport. The polling
 loops are proved equal to the functions of `Runs`; the operations built from
 them are proved to leave the unit where they say.
 */
module Host {
  import opened Wrappers
  import opened Geometry
  import opened Firmware
  import opened FirmwareLaws
  import opened CommandLaws
  import opened Runs
  import opened Motions
  import opened MoveLaws
  import opened LoadLaws
  import opened Pairing
  import opened Simulator

  const RETRY_OPEN_MS := 400

  /** What a reset sends before it waits for anything. */
  const CLEARING: seq<(Byte, Args)> :=
    [(CMD_REQUEST_STATE, NO_ARGS), (CMD_CLEAR_ERR_1, NO_ARGS), (CMD_CLEAR_ERR_2, NO_ARGS)]

  // -- what was heard meanwhile --------------------------------------------

  /** Nothing but status requests was heard, and after them at most this command, once. */
  ghost predicate HeardOnce(a: seq<Heard>, b: seq<Heard>, cmd: Byte, args: Args) {
    exists before: seq<Heard> :: Polled(a, before) && (b == before || OneMoreHeard(before, b, cmd, args))
  }

  predicate OneMoreHeard(before: seq<Heard>, after: seq<Heard>, cmd: Byte, args: Args) {
    && |after| == |before| + 1 && after[..|before|] == before
    && after[|before|].cmd == cmd && after[|before|].args == args
  }

  lemma NotHeard(a: seq<Heard>, b: seq<Heard>, cmd: Byte, args: Args)
    ensures a == b ==> Polled(a, b)
    ensures Polled(a, b) ==> HeardOnce(a, b, cmd, args)
  {
  }

  lemma NothingPolled(a: seq<Heard>)
    ensures Polled(a, a)
  {
  }

  lemma CutShortHeard(a: seq<Heard>, t: Sim, r: Sim, cmd: Byte, args: Args)
    requires Polled(a, t.u.w.log) && CutShort(t, r, cmd, args)
    ensures HeardOnce(a, r.u.w.log, cmd, args)
  {
    hide Polled, CutShort;
    CutShortLog(t, r, cmd, args);
    if r.u.w.log != t.u.w.log {
      assert OneMoreHeard(t.u.w.log, r.u.w.log, cmd, args);
    }
  }

  lemma UnansweredHeard(a: seq<Heard>, t: Sim, cmd: Byte, args: Args)
    requires Polled(a, t.u.w.log) && CommandRun(t, cmd, args).reply.None?
    ensures Polled(a, CommandRun(t, cmd, args).s.u.w.log)
  {
    hide CommandRun;
    CommandLog(t, cmd, args);
  }

  lemma CutShortPolled(t: Sim, r: Sim)
    requires CutShort(t, r, CMD_REQUEST_STATE, NO_ARGS)
    ensures Polled(t.u.w.log, r.u.w.log)
  {
    hide CutShort;
    CutShortLog(t, r, CMD_REQUEST_STATE, NO_ARGS);
  }

  /** `x` is where the unit stood at some instant since `from`, as it told then. */
  ghost predicate Tells(from: int, t: Sim, x: bv8) {
    exists h: Sim :: from <= h.now && ToldAt(h, t) && x == h.u.m.position as bv8
  }

  ghost predicate ToldAt(h: Sim, t: Sim) {
    var r := Receive(h.u, h.now, CMD_CLEAR_ERR_2, NO_ARGS);
    r.reply.Some? && t == Reads(Sim(r.u, h.now), 1)
  }

  lemma TellsSince(from: int, since: int, t: Sim, x: bv8)
    requires Tells(since, t, x) && from <= since
    ensures Tells(from, t, x)
  {
    hide ToldAt;
  }

  /** A retried command that is acknowledged was answered by the unit as it then was. */
  lemma {:induction false} RequireTold(s: Sim, cmd: Byte, args: Args, tries: nat) returns (h: Sim)
    requires RequireRun(s, cmd, args, tries).reply.Some?
    ensures var r := Receive(h.u, h.now, cmd, args);
            s.now <= h.now && r.reply.Some?
            && RequireRun(s, cmd, args, tries) == Exchange(Reads(Sim(r.u, h.now), 1), r.reply)
    decreases tries
  {
    hide RunDue, Receive, WaitRun, Reads;
    h := Runs.Found(s);
    var e := CommandRun(s, cmd, args);
    if e.reply.None? {
      var r := Receive(h.u, h.now, cmd, args);
      ReadsLonger(Sim(r.u, h.now), ACK_MS / POLL_MS);
      WaitTakes(e.s, ST_BUSY, 0, e.s.now + RETRY_WAIT_MS);
      h := RequireTold(IdleRun(e.s, RETRY_WAIT_MS).s, cmd, args, tries - 1);
    }
  }

  lemma PositionTold(s: Sim, tries: nat)
    requires RequireRun(s, CMD_CLEAR_ERR_2, NO_ARGS, tries).reply.Some?
    ensures var e := RequireRun(s, CMD_CLEAR_ERR_2, NO_ARGS, tries);
            Tells(s.now, e.s, e.reply.value.x1)
  {
    hide RequireRun, Receive, StatusWord;
    var h := RequireTold(s, CMD_CLEAR_ERR_2, NO_ARGS, tries);
    ReceiveHeard(h.u, h.now, CMD_CLEAR_ERR_2, NO_ARGS);
    assert ToldAt(h, RequireRun(s, CMD_CLEAR_ERR_2, NO_ARGS, tries).s);
  }

  class DiscStakka {
    const io: SimulatedTransport
    var isOpen: bool
    var unit: Byte
    var serial: Option<bv32>
    var firmware: Option<(bv8, bv8, bv8, bv8)>

    /** On a line of any make, and talking to the unit at the end of it. */
    ghost predicate Joined()
      reads this, io
    {
      io.Plumbed() && (isOpen ==> unit == io.carousel.unit)
    }

    /** On the simulator's own line. */
    ghost predicate Linked()
      reads this, io
    {
      io.Wired() && (isOpen ==> unit == io.carousel.unit)
    }

    ghost function Now(): Sim
      reads io, io.carousel, io.clock
    {
      io.Now()
    }

    /** The unit is there, and nobody is going to pull it. */
    ghost predicate Plugged()
      reads this, io
    {
      Linked() && isOpen && io.isOpen && io.present && io.unplugAt.None?
    }

    /** What everything that uses the unit does to the connection: nothing, unless the cable is pulled. */
    twostate predicate Stays()
      reads this, io, io.clock
    {
      && Linked() && io.unplugAt == old(io.unplugAt) && old(io.clock.ms) <= io.clock.ms
      && (old(Plugged()) ==> Plugged())
    }

    /** And an operation says so if it was. */
    twostate predicate Holds(lost: bool)
      reads this, io, io.clock
    {
      Stays() && (!lost ==> isOpen) && (old(Plugged()) ==> !lost)
    }

    constructor (io: SimulatedTransport)
      requires io.Wired()
      ensures Linked() && this.io == io && !isOpen
    {
      this.io := io;
      isOpen, unit, serial, firmware := false, 0, None, None;
    }

    method Close()
      requires io.Plumbed()
      modifies this, io`isOpen, io`closes
      ensures io.Plumbed() && !isOpen && !io.isOpen && serial == None && firmware == None && unit == old(unit)
    {
      isOpen := false;
      serial := None;
      firmware := None;
      io.Close();
    }

    // -- wire --------------------------------------------------------------

    method ReadPacket(timeoutMs: nat) returns (r: Outcome<Packet>)
      requires io.Plumbed()
      modifies this, io`isOpen, io`present, io`closes, io`strays, io`delivered, io.carousel, io.clock
      ensures io.Plumbed() && !r.Failed? && unit == old(unit) && (old(io.Wired()) ==> io.Wired())
      ensures io.delivered == if r.Ok? then old(io.delivered) + [r.value] else old(io.delivered)
      ensures r.Ok? ==> isOpen && old(isOpen) && io.isOpen && serial == old(serial) && firmware == old(firmware)
      ensures r.Ok? && old(io.Wired()) ==> io.latched == Some(r.value)
      ensures r.Ok? ==> var t := if timeoutMs < REPEAT_MS then timeoutMs else REPEAT_MS;
                        Now() == Sim(RunDue(old(Now()).u, old(Now()).now + t), old(Now()).now + t)
      ensures r.Lost? ==> var t := if timeoutMs < REPEAT_MS then timeoutMs else REPEAT_MS;
                          Now() == old(Now())
                          || Now() == Sim(RunDue(old(Now()).u, old(Now()).now + t), old(Now()).now + t)
      ensures r.Lost? ==> !isOpen
      ensures !old(isOpen) ==> r.Lost? && Now() == old(Now())
      ensures old(io.clock.ms) <= io.clock.ms && (io.unplugAt.None? ==> io.present == old(io.present))
      ensures old(isOpen && io.isOpen && io.present) && io.unplugAt.None? ==> r.Ok? && io.present
    {
      hide RunDue;
      if !isOpen { return Lost; }
      r := io.Read(timeoutMs);
      if r.Lost? { Close(); }
    }

    method Send(msgid: Byte, cmd: Byte, args: Args) returns (r: Outcome<()>)
      requires io.Plumbed()
      modifies this, io`writes, io`msgid, io`latched, io`isOpen, io`closes, io.carousel
      ensures io.Plumbed() && !r.Failed? && unit == old(unit)
      ensures r.Ok? == old(isOpen && io.isOpen && io.present)
      ensures r.Ok? ==> isOpen && io.isOpen && serial == old(serial) && firmware == old(firmware)
      ensures r.Ok? && unit == io.carousel.unit ==>
                var h := Handle(old(Now()).u, io.clock.ms, cmd, args);
                && Now() == Sim(h.u, io.clock.ms)
                && io.latched
                   == if h.reply.Some? then Some(Packet(unit, msgid, cmd, h.reply.value)) else old(io.latched)
      ensures r.Lost? ==> !isOpen && Now() == old(Now())
      ensures io.writes == if r.Ok? && unit == io.carousel.unit then old(io.writes) + [(cmd, args)] else old(io.writes)
    {
      hide Handle;
      if !isOpen { return Lost; }
      r := io.Write(unit, msgid, cmd, args);
      if r.Lost? { Close(); }
    }

    /**
     Reads until a packet carries the number awaited, or the wait for it is over:
     on the simulator's line that is the first read, or none.
     */
    method AwaitReply(msgid: Byte) returns (r: Outcome<Option<Packet>>)
      requires Joined() && isOpen
      modifies this, io`isOpen, io`present, io`closes, io`strays, io`delivered, io.carousel, io.clock
      ensures Joined() && !r.Failed? && unit == old(unit) && io.unplugAt == old(io.unplugAt)
      ensures old(Linked()) ==> Holds(r.Lost?)
      ensures r.Ok? ==> isOpen && serial == old(serial) && firmware == old(firmware)
      ensures r.Lost? ==> !isOpen
      ensures old(io.delivered) <= io.delivered
                && (r.Ok? ==> Picked(Since(old(io.delivered), io.delivered), msgid, r.value))
      ensures exists n: nat :: Now() == Reads(old(Now()), n)
      ensures old(Linked()) && r.Ok? ==>
                var heard := old(io.latched).Some? && old(io.latched).value.msgid == msgid;
                && r.value == (if heard then old(io.latched) else None)
                && Now() == Reads(old(Now()), if heard then 1 else ACK_MS / POLL_MS)
    {
      hide RunDue;
      ghost var s, before := Now(), io.delivered;
      var deadline := io.clock.ms + ACK_MS;
      ghost var n: nat := 0;
      assert Now() == Reads(s, 0);
      while io.clock.ms < deadline
        invariant Joined() && isOpen && unit == old(unit) && io.unplugAt == old(io.unplugAt)
        invariant serial == old(serial) && firmware == old(firmware)
        invariant old(Linked()) ==> Linked() && (old(Plugged()) ==> Plugged())
        invariant Now() == Reads(s, n) && io.clock.ms == s.now + n * POLL_MS && n <= ACK_MS / POLL_MS
        invariant before <= io.delivered && Picked(Since(before, io.delivered), msgid, None)
        invariant old(Linked()) && n > 0 && old(io.latched).Some? ==> old(io.latched).value.msgid != msgid
        decreases deadline - io.clock.ms
      {
        ghost var read := io.delivered;
        var got := ReadPacket(POLL_MS);
        assert Now() == Reads(s, n) || Now() == Reads(s, n + 1);
        var reply :- got;
        n := n + 1;
        PickedNext(before, read, reply, msgid);
        if reply.msgid == msgid { return Ok(Some(reply)); }
      }
      r := Ok(None);
    }

    /**
     Sends one command and returns its reply, or nothing if the unit never acks.
     Whatever the line delivers, the reply is the first packet to carry the number
     after the one read before. On the simulator's line it is the one computed for
     this very command: its number is one the unit could not have been repeating.
     */
    method Command(cmd: Byte, args: Args := NO_ARGS) returns (r: Outcome<Option<Packet>>)
      requires Joined()
      modifies this, io, io.carousel, io.clock
      ensures Joined() && !r.Failed? && unit == old(unit) && io.unplugAt == old(io.unplugAt)
      ensures old(Linked()) ==> Holds(r.Lost?)
      ensures r.Ok? ==> isOpen && old(isOpen) && serial == old(serial) && firmware == old(firmware)
      ensures r.Ok? ==> old(io.clock.ms) < io.clock.ms
      ensures old(io.delivered) <= io.delivered && (r.Ok? ==> Paired(Since(old(io.delivered), io.delivered), r.value))
      ensures CutShort(old(Now()), Now(), cmd, args) && (r.Lost? ==> !isOpen)
      ensures r.Ok? && old(Linked()) ==> var e := CommandRun(old(Now()), cmd, args);
                        && Now() == e.s
                        && r.value.Some? == e.reply.Some?
                        && (r.value.Some? ==> r.value.value.cmd == cmd && r.value.value.payload == e.reply.value)
      ensures io.writes == old(io.writes) + [(cmd, args)] || (r.Lost? && io.writes == old(io.writes))
    {
      hide RunDue, Firmware.Receive, Paired, Picked;
      ghost var s := Now();
      var seed :- ReadPacket(ACK_MS);
      var msgid := (seed.msgid + 1) % 256;
      ghost var f, read := Now(), io.delivered;
      assert f == Found(s);
      RunDueTwice(s.u, f.now);
      var _ :- Send(msgid, cmd, args);
      ghost var response := Firmware.Receive(f.u, f.now, cmd, args);
      assert Now() == Sim(response.u, f.now);
      var got := AwaitReply(msgid);
      ReadsLater(Sim(response.u, f.now), Now());
      var reply :- got;
      SeedPicked(old(io.delivered), read, io.delivered, seed, reply);
      r := Ok(reply);
    }

    /** `Command`, retried, failing only if it never lands. */
    method Require(cmd: Byte, args: Args := NO_ARGS) returns (r: Outcome<Packet>)
      requires Linked()
      modifies this, io, io.carousel, io.clock
      ensures Holds(r.Lost?)
      ensures r.Ok? ==> var e := RequireRun(old(Now()), cmd, args, TRIES);
                        Now() == e.s && e.reply == Some(r.value.payload) && r.value.cmd == cmd
      ensures r.Failed? ==>
                r.why == NotAcknowledged && RequireRun(old(Now()), cmd, args, TRIES) == Exchange(Now(), None)
      ensures Good(old(Now()).u) && Fit(old(Now()).u, cmd) ==> Survives(old(Now()).u, Now().u, cmd)
      ensures Good(old(Now()).u) && !Actuates(cmd) ==> Ages(old(Now()).u, Now().u)
      ensures Sound(old(Now())) && Fit(old(Now()).u, cmd) ==>
                Minded(old(Now()), Now()) && (!Stores(cmd) ==> Kept(old(Now()), Now()))
      ensures Wrote(old(io.writes), io.writes, cmd)
      ensures HeardOnce(old(Now()).u.w.log, Now().u.w.log, cmd, args)
    {
      hide CommandRun, WaitRun, Survives, Good, Ages, Load, CutShort, Tame, Kept, Minded, Wrote, Polled, HeardOnce;
      ghost var s := Now();
      NotHeard(s.u.w.log, s.u.w.log, cmd, args);
      ghost var sound := Good(s.u) && Fit(s.u, cmd);
      if sound { AgesReflexive(s.u); }
      WroteOne(io.writes, io.writes, cmd, args);
      for attempt := 0 to TRIES
        invariant Linked() && io.unplugAt == old(io.unplugAt) && (attempt > 0 ==> isOpen)
                  && old(io.clock.ms) <= io.clock.ms
        invariant old(Plugged()) ==> Plugged()
        invariant RequireRun(Now(), cmd, args, TRIES - attempt) == RequireRun(s, cmd, args, TRIES)
        invariant sound ==> Ages(s.u, Now().u) && Good(Now().u)
        invariant Wrote(old(io.writes), io.writes, cmd)
        invariant Polled(s.u.w.log, Now().u.w.log)
      {
        ghost var t := Now();
        ghost var written := io.writes;
        if sound { FitAges(s.u, t.u, cmd); }
        var got := Command(cmd, args);
        CutShortHeard(s.u.w.log, t, Now(), cmd, args);
        WroteOne(written, io.writes, cmd, args);
        WroteTransitive(old(io.writes), written, io.writes, cmd, cmd);
        if sound { CommandKeeps(s, t, Now(), cmd, args, got.Lost?); }
        var reply :- got;
        if reply.Some? { return Ok(reply.value); }
        UnansweredHeard(s.u.w.log, t, cmd, args);
        if sound { CommandPasses(t, cmd, args); AgesTransitive(s.u, t.u, Now().u); AgesGood(t.u, Now().u); }
        if attempt + 1 < TRIES {
          ghost var w := Now();
          written := io.writes;
          var waited := WaitIdle(RETRY_WAIT_MS);
          WroteTransitive(old(io.writes), written, io.writes, cmd, CMD_REQUEST_STATE);
          PolledTransitive(s.u.w.log, w.u.w.log, Now().u.w.log);
          NotHeard(s.u.w.log, Now().u.w.log, cmd, args);
          if sound { WaitKeeps(s, w, Now(), cmd); }
          var _ :- waited;
        }
      }
      if sound { WaitKeeps(s, s, Now(), cmd); }
      NotHeard(s.u.w.log, Now().u.w.log, cmd, args);
      r := Failed(NotAcknowledged);
    }

    // -- connection --------------------------------------------------------

    /**
     One report of the handshake, and what is made of it: a new unit is asked for
     its serial, and any other tells it. Nobody has asked it for anything since `s`.
     */
    method Greet(ghost s: Sim) returns (r: Outcome<()>)
      requires io.Wired() && isOpen && serial.None? && s.now <= Now().now && (Now().u == s.u || Talked(s, Now()))
      modifies this, io, io.carousel, io.clock
      ensures io.Wired() && !r.Failed? && io.unplugAt == old(io.unplugAt) && old(io.clock.ms) <= io.clock.ms
      ensures r.Ok? ==> Linked() && isOpen && Talked(s, Now()) && old(io.clock.ms) < io.clock.ms
      ensures r.Ok? && serial.Some? ==> serial == Some(io.carousel.serial)
      ensures r.Ok? && serial.None? ==>
                && io.clock.ms == old(io.clock.ms) + POLL_MS && io.latched.Some?
                && io.latched.value.cmd == CMD_GET_SERIAL
                && old(io.latched).Some? && old(io.latched).value.cmd == CMD_NEW_UNIT
      ensures old(io.isOpen && io.present) && io.unplugAt.None? ==> r.Ok? && io.isOpen && io.present
    {
      hide Talked, RunDue, Firmware.Receive, CutShort, SerialReply, CommandRun;
      ghost var t := Now();
      ReadSince(s, t);
      var got :- ReadPacket(POLL_MS);
      ghost var f := Now();
      RunDueTwice(t.u, f.now);
      unit := got.unit;
      r := Ok(());
      if got.cmd == CMD_NEW_UNIT {
        ToldTalked(f, CMD_GET_SERIAL);
        SerialTold(f.u, f.now, NO_ARGS);
        var _ :- Send((got.msgid + 1) % 256, CMD_GET_SERIAL, NO_ARGS);
        TalkedTransitive(s, f, Now());
      } else if got.cmd == CMD_GET_SERIAL {
        SerialRoundTrip(io.carousel.serial);
        serial := Some(U32(got.payload));
      } else {
        r := AskSerial();
        if r.Ok? { TalkedTransitive(s, f, Now()); }
      }
    }

    method AskSerial() returns (r: Outcome<()>)
      requires Linked() && isOpen
      modifies this, io, io.carousel, io.clock
      ensures Holds(r.Lost?) && !r.Failed?
      ensures r.Ok? ==> serial == Some(io.carousel.serial) && Talked(old(Now()), Now())
    {
      hide Talked, CutShort, SerialReply, CommandRun;
      ToldRun(Now(), CMD_GET_SERIAL);
      CommandTalked(Now(), CMD_GET_SERIAL, NO_ARGS);
      var reply :- Command(CMD_GET_SERIAL);
      if reply.None? { return Failed(NoSerial); }
      SerialRoundTrip(io.carousel.serial);
      serial := Some(U32(reply.value.payload));
      r := Ok(());
    }

    /** Asks an open unit for its version, to learn whether it is still there. */
    method Alive() returns (ok: bool)
      requires Linked()
      modifies this, io`isOpen, io`present, io`closes, io`strays, io`delivered, io.carousel, io.clock
      ensures Stays() && (old(Plugged()) ==> ok && Talked(old(Now()), Now()))
      ensures ok == isOpen && (ok ==> io.isOpen) && (io.unplugAt.None? ==> io.present == old(io.present))
    {
      hide Talked, RunDue;
      ReadTalked(Now(), 0);
      var got := ReadPacket(0);
      ok := got.Ok?;
    }

    /** Acknowledges a freshly connected unit and learns its serial and its version. */
    method Handshake(ghost s: Sim) returns (r: Outcome<()>)
      requires io.Wired() && isOpen && Now().u == s.u && s.now <= Now().now
      modifies this, io, io.carousel, io.clock
      ensures io.Wired() && io.unplugAt == old(io.unplugAt) && old(io.clock.ms) <= io.clock.ms
      ensures r.Ok? ==> Linked() && isOpen && serial == Some(io.carousel.serial) && Talked(s, Now())
      ensures old(io.isOpen && io.present) && io.unplugAt.None? ==>
                r.Ok? && Plugged() && firmware == Some((0x02, 0x17, 0x00, 0x79))
    {
      hide Talked;
      ghost var there := io.isOpen && io.present && io.unplugAt.None?;
      var deadline := io.clock.ms + 5_000;
      serial := None;
      while serial.None? && io.clock.ms < deadline
        invariant io.Wired() && isOpen && io.unplugAt == old(io.unplugAt) && old(io.clock.ms) <= io.clock.ms
        invariant serial.Some? ==> serial == Some(io.carousel.serial) && Linked() && Talked(s, Now())
        invariant there ==> io.isOpen && io.present
        invariant there && serial.None? ==>
                    io.clock.ms == old(io.clock.ms)
                    || (io.clock.ms == old(io.clock.ms) + POLL_MS && io.latched.value.cmd == CMD_GET_SERIAL)
        invariant Now().u == s.u || Talked(s, Now())
        decreases deadline - io.clock.ms
      {
        var _ :- Greet(s);
      }
      if serial.None? { return Failed(NoPackets); }
      ghost var t := Now();
      r := ReadFirmware();
      if r.Ok? { TalkedTransitive(s, t, Now()); }
    }

    /** The version, told in two replies. */
    method ReadFirmware() returns (r: Outcome<()>)
      requires Linked() && isOpen
      modifies this, io, io.carousel, io.clock
      ensures Holds(r.Lost?) && !r.Failed?
      ensures r.Ok? ==> serial == old(serial) && Talked(old(Now()), Now()) && firmware == Some((0x02, 0x17, 0x00, 0x79))
    {
      hide Talked, CommandRun, CutShort;
      ghost var s := Now();
      ToldRun(s, CMD_VERSION_A);
      CommandTalked(s, CMD_VERSION_A, NO_ARGS);
      var a :- Command(CMD_VERSION_A);
      ghost var t := Now();
      ToldRun(t, CMD_VERSION_B);
      CommandTalked(t, CMD_VERSION_B, NO_ARGS);
      var b :- Command(CMD_VERSION_B);
      TalkedTransitive(s, t, Now());
      firmware := if a.None? || b.None? then None
                  else Some((b.value.payload.x2, a.value.payload.x4, b.value.payload.x3, b.value.payload.x4));
      r := Ok(());
    }

    /**
     Opens the unit, in three attempts a moment apart. Whatever serial it has, an
     open unit is known by it.
     */
    method Open(attempts: nat := 3) returns (r: Outcome<()>)
      requires Linked()
      modifies this, io, io.carousel, io.clock
      ensures Stays() && !r.Failed? && (r.Ok? ==> isOpen)
      ensures old(isOpen) ==> r.Ok? && serial == old(serial) && Now() == old(Now()) && io.writes == old(io.writes)
      ensures r.Ok? && !old(isOpen) ==> serial == Some(io.carousel.serial)
      ensures !old(isOpen) && old(io.present) && io.unplugAt.None? && old(io.failOpens) < attempts ==>
                r.Ok? && Plugged() && firmware == Some((0x02, 0x17, 0x00, 0x79)) && Talked(old(Now()), Now())
    {
      hide Talked;
      if isOpen { return Ok(()); }
      ghost var s := Now();
      ghost var there := io.present && io.unplugAt.None?;
      for attempt := 0 to attempts
        invariant io.Wired() && !isOpen && io.unplugAt == old(io.unplugAt) && s.now <= io.clock.ms
        invariant there ==> io.present && Now().u == s.u && io.failOpens == old(io.failOpens) - attempt
      {
        var ok := io.Open();
        if ok {
          isOpen := true;
          var greeted := Handshake(if there then s else Now());
          if greeted.Ok? { return Ok(()); }
          Close();
        }
        if attempt + 1 < attempts { io.clock.AdvanceMs(RETRY_OPEN_MS); }
      }
      r := Lost;
    }

    // -- state -------------------------------------------------------------

    method Status() returns (r: Outcome<bv16>)
      requires Linked()
      modifies this, io, io.carousel, io.clock
      ensures Holds(r.Lost?) && !r.Failed?
      ensures r.Ok? ==> Now() == Poll(old(Now())) && r.value == Sample(old(Now()))
      ensures Good(old(Now()).u) ==> Ages(old(Now()).u, Now().u)
      ensures Sound(old(Now())) ==> Kept(old(Now()), Now()) && Load(Now().u) <= Load(old(Now()).u)
      ensures Wrote(old(io.writes), io.writes, CMD_REQUEST_STATE)
    {
      hide Wrote, Survives, Good, CommandRun, RequireRun, Sample, Decode, Tame, Kept, Load, Ages;
      ghost var s := Now();
      StatusRun(s);
      var got := Require(CMD_REQUEST_STATE);
      if Good(s.u) { AgesCalm(s.u, Now().u); }
      var packet :- got;
      r := Ok(Decode(packet.payload));
    }

    /** One fresh status request; nothing if its reply, `reply`, does not carry a status. */
    method Ask() returns (r: Outcome<Option<bv16>>, ghost reply: Option<Packet>)
      requires Joined()
      modifies this, io, io.carousel, io.clock
      ensures Joined() && !r.Failed? && unit == old(unit) && io.unplugAt == old(io.unplugAt)
      ensures old(Linked()) ==> Holds(r.Lost?)
      ensures r.Ok? ==> isOpen && old(io.clock.ms) < io.clock.ms
      ensures old(io.delivered) <= io.delivered
      ensures r.Ok? ==> Paired(Since(old(io.delivered), io.delivered), reply) && r.value == StatusIn(reply)
      ensures r.Ok? && old(Linked()) ==> Now() == Poll(old(Now())) && r.value == Some(Sample(old(Now())))
      ensures Good(old(Now()).u) ==> Ages(old(Now()).u, Now().u) && Good(Now().u)
      ensures Polled(old(Now()).u.w.log, Now().u.w.log)
      ensures Wrote(old(io.writes), io.writes, CMD_REQUEST_STATE)
    {
      hide Wrote, Good, Ages, CommandRun, Sample, Decode, CutShort, Paired, Polled;
      ghost var s := Now();
      StatusRun(s);
      ghost var written := io.writes;
      var got := Command(CMD_REQUEST_STATE);
      WroteOne(written, io.writes, CMD_REQUEST_STATE, NO_ARGS);
      CutShortPolled(s, Now());
      if Good(s.u) { CutShortPassive(s, Now(), CMD_REQUEST_STATE, NO_ARGS); AgesGood(s.u, Now().u); }
      reply := None;
      var answer :- got;
      reply := answer;
      r := Ok(StatusIn(answer));
    }

    /**
     Polls until the masked status is the one wanted, asking afresh every time
     and looking only at replies that carry a status.
     */
    method WaitState(mask: bv16, want: bv16, timeoutMs: nat) returns (r: Outcome<bool>)
      requires Joined()
      modifies this, io, io.carousel, io.clock
      ensures Joined() && !r.Failed? && unit == old(unit) && io.unplugAt == old(io.unplugAt)
      ensures old(Linked()) ==> Holds(r.Lost?)
      ensures old(io.delivered) <= io.delivered
      ensures r.Ok? ==> Judged(Since(old(io.delivered), io.delivered), mask, want, r.value)
      ensures r == Ok(false) ==> io.clock.ms >= old(io.clock.ms) + timeoutMs
      ensures r.Ok? && old(Linked()) ==>
                Watch(Now(), r.value) == WaitRun(old(Now()), mask, want, old(Now()).now + timeoutMs)
      ensures Good(old(Now()).u) ==> Ages(old(Now()).u, Now().u)
      ensures Polled(old(Now()).u.w.log, Now().u.w.log)
      ensures Wrote(old(io.writes), io.writes, CMD_REQUEST_STATE)
    {
      hide Wrote, Good, Ages, Sample, Poll, Shows, Polled, Delivered, StatusIn, Paired, Unmoved, Judged, WaitRun,
           Since, Asked;
      WroteOne(io.writes, io.writes, CMD_REQUEST_STATE, NO_ARGS);
      ghost var s := Now();
      ghost var es: seq<Exchanged> := [];
      NothingWaited(io.delivered, mask, want);
      var deadline := io.clock.ms + timeoutMs;
      AskedNone(s);
      while true
        invariant Joined() && io.unplugAt == old(io.unplugAt) && unit == old(unit)
        invariant old(Linked()) ==> Linked() && (old(Plugged()) ==> Plugged())
        invariant old(Linked()) ==> WaitRun(Now(), mask, want, deadline) == WaitRun(s, mask, want, deadline)
        invariant old(io.delivered) <= io.delivered && Delivered(es) == Since(old(io.delivered), io.delivered)
        invariant Unmoved(es, mask, want)
        invariant Asked(s, Now())
        invariant old(io.clock.ms) <= io.clock.ms <= deadline
        invariant Wrote(old(io.writes), io.writes, CMD_REQUEST_STATE)
        decreases deadline - io.clock.ms
      {
        ghost var t := Now();
        PollTakes(t);
        WaitStep(t, mask, want, deadline);
        ghost var written, read := io.writes, io.delivered;
        var got, reply := Ask();
        WroteTransitive(old(io.writes), written, io.writes, CMD_REQUEST_STATE, CMD_REQUEST_STATE);
        AskedAgain(s, t, Now());
        var status :- got;
        ghost var e := Exchanged(Since(read, io.delivered), reply);
        OneMoreExchange(old(io.delivered), read, io.delivered, es, e, mask, want);
        es := es + [e];
        if status.Some? && Shows(status.value, mask, want) { return Ok(true); }
        if io.clock.ms >= deadline { return Ok(false); }
      }
    }

    method WaitIdle(timeoutMs: nat := SETTLE_WAIT_MS) returns (r: Outcome<bool>)
      requires Linked()
      modifies this, io, io.carousel, io.clock
      ensures Holds(r.Lost?) && !r.Failed?
      ensures r.Ok? ==> Watch(Now(), r.value) == IdleRun(old(Now()), timeoutMs)
      ensures Good(old(Now()).u) ==> Ages(old(Now()).u, Now().u)
      ensures Sound(old(Now())) ==>
                Kept(old(Now()), Now()) && Load(Now().u) <= Load(old(Now()).u) && (r == Ok(true) ==> AtRest(Now()))
      ensures Polled(old(Now()).u.w.log, Now().u.w.log)
      ensures Wrote(old(io.writes), io.writes, CMD_REQUEST_STATE)
    {
      hide Wrote, WaitRun, Good, Ages, Tame, Kept, Load, AtRest, Polled, Judged;
      ghost var s := Now();
      r := WaitState(ST_BUSY, 0, timeoutMs);
      if Sound(s) { AgesKept(s, Now()); AgesCalm(s.u, Now().u); }
      if Sound(s) && r == Ok(true) { IdleSeen(s, s.now + timeoutMs); }
    }

    // -- moves -------------------------------------------------------------

    /** What comes before every move: the unit idle, and its bay empty. */
    method Clear() returns (r: Outcome<()>)
      requires Linked()
      modifies this, io, io.carousel, io.clock
      ensures Holds(r.Lost?)
      ensures Sound(old(Now())) ==> Kept(old(Now()), Now()) && (r.Ok? ==> Load(Now().u) == 0)
      ensures Prompt(old(Now())) ==> Clears(old(Now()), Now(), r)
      ensures !r.Lost? ==> ClearRun(old(Now())) == Outturn(Now(), r)
      ensures Wrote(old(io.writes), io.writes, CMD_REQUEST_STATE)
    {
      hide Wrote, Sound, Load, Kept, Prompt, WaitRun, Poll, Sample, Shows, Ages, Good, AtRest, ClearRun, Polled,
           Outlook, SameUpToBlips;
      ghost var s := Now();
      if Prompt(s) { ClearClears(s); }
      if Sound(s) { ClearKeeps(s); }
      var idle :- WaitIdle();
      ghost var w, written := Now(), io.writes;
      ClearRuns(s, w, idle);
      if !idle { return Failed(StillBusy); }
      r := RefuseWithADiscOut();
      WroteTransitive(old(io.writes), written, io.writes, CMD_REQUEST_STATE, CMD_REQUEST_STATE);
      if Sound(s) { KeptSound(s, w); KeptTransitive(s, w, Now()); }
    }

    /** A `0x04` and the wait that sees it through: how every move ends. */
    method Turn(args: Args) returns (r: Outcome<()>)
      requires Linked()
      modifies this, io, io.carousel, io.clock
      ensures Holds(r.Lost?)
      ensures Sound(old(Now())) && Load(old(Now()).u) == 0 ==>
                && Kept(old(Now()), Now())
                && (r.Ok? ==>
                      AtRest(Now()) && Now().u.m.position == args.x1 && (args.x2 == 0 ==> Load(Now().u) == 0))
      ensures Turnable(old(Now()), args) ==> Turns(old(Now()), Now(), args, r)
      ensures !r.Lost? ==> TurnRun(old(Now()), args) == Outturn(Now(), r)
      ensures Wrote(old(io.writes), io.writes, CMD_SET_POS)
    {
      hide Wrote, Sound, Load, Kept, Turnable, Turns, RequireRun, WaitRun, Survives, Ages, Good, SameUpToBlips, AtRest,
           MoveOutcome;
      ghost var s := Now();
      KeptLaws();
      if Turnable(s, args) { TurnEnds(s, args); LostTurns(s, args); }
      if Sound(s) && Load(s.u) == 0 && args.x2 == 0 { RequireEmpty(s, args, TRIES); }
      var _ :- Require(CMD_SET_POS, args);
      ghost var e, written := Now(), io.writes;
      var waited := WaitIdle();
      WroteTransitive(old(io.writes), written, io.writes, CMD_SET_POS, CMD_REQUEST_STATE);
      var idle :- waited;
      if Sound(s) && Load(s.u) == 0 && idle { RequireTurned(s, args, TRIES); RestsWhereBound(e, Now()); }
      r := if idle then Ok(()) else Failed(TimedOut);
    }

    /** A unit that does not know where it stands is sent home first. */
    method EnsureHomed() returns (r: Outcome<()>)
      requires Linked()
      modifies this, io, io.carousel, io.clock
      ensures Holds(r.Lost?)
      ensures Sound(old(Now())) && Load(old(Now()).u) == 0 ==> Kept(old(Now()), Now()) && (r.Ok? ==> Load(Now().u) == 0)
      ensures Quiet(old(Now())) && !Outlook(old(Now()).u).bay ==> HomesTo(old(Now()), Now(), r)
      ensures !r.Lost? ==> HomeRun(old(Now())) == Outturn(Now(), r)
      ensures Wrote(old(io.writes), io.writes, CMD_SET_POS)
    {
      hide Wrote, Sound, Load, Kept, Quiet, Outlook, Poll, Sample, Shows, HomesTo, HomingRun;
      ghost var s := Now();
      KeptLaws();
      WroteOne(io.writes, io.writes, CMD_SET_POS, NO_ARGS);
      if Quiet(s) { AskedIfHomed(s); }
      var asked := Status();
      WroteTransitive(old(io.writes), old(io.writes), io.writes, CMD_SET_POS, CMD_REQUEST_STATE);
      var status :- asked;
      if !Shows(status, ST_HOMED, 0) { return Ok(()); }
      ghost var written := io.writes;
      r := GoHome();
      WroteTransitive(old(io.writes), written, io.writes, CMD_SET_POS, CMD_SET_POS);
      if Quiet(s) && !Outlook(s.u).bay { AskedThenHomes(s, Now(), r); }
    }

    /** Idle first, then home, and asked whether it got there. */
    method GoHome() returns (r: Outcome<()>)
      requires Linked()
      modifies this, io, io.carousel, io.clock
      ensures Holds(r.Lost?)
      ensures Sound(old(Now())) && Load(old(Now()).u) == 0 ==> Kept(old(Now()), Now()) && (r.Ok? ==> Load(Now().u) == 0)
      ensures Quiet(old(Now())) && !Outlook(old(Now()).u).bay && !Outlook(old(Now()).u).homed ==>
                HomesTo(old(Now()), Now(), r)
      ensures !r.Lost? ==> HomingRun(old(Now())) == Outturn(Now(), r)
      ensures Wrote(old(io.writes), io.writes, CMD_SET_POS)
    {
      hide Wrote, Sound, Load, Kept, Quiet, Outlook, WaitRun, Poll, Sample, Shows, Ages, Good, SameUpToBlips,
           HomedCore, HomesTo, Turns, Turnable, AtRest, TurnRun;
      ghost var s := Now();
      HomingBegins(s);
      WroteOne(io.writes, io.writes, CMD_SET_POS, NO_ARGS);
      var waited := WaitIdle();
      WroteTransitive(old(io.writes), old(io.writes), io.writes, CMD_SET_POS, CMD_REQUEST_STATE);
      var idle :- waited;
      if Sound(s) { KeptSound(s, Now()); }
      if !idle { return Failed(StillBusy); }
      ghost var w, written := Now(), io.writes;
      var turned := Turn(MoveArgs(0, false));
      WroteTransitive(old(io.writes), written, io.writes, CMD_SET_POS, CMD_SET_POS);
      if Quiet(s) && !Outlook(s.u).bay && !Outlook(s.u).homed { HomingTurned(s, w, Now(), turned); }
      if Sound(s) && Load(s.u) == 0 { KeptTransitive(s, w, Now()); KeptSound(s, Now()); }
      var _ :- turned;
      written := io.writes;
      ghost var t := Now();
      var asked := Status();
      WroteTransitive(old(io.writes), written, io.writes, CMD_SET_POS, CMD_REQUEST_STATE);
      if Sound(s) && Load(s.u) == 0 { KeptTransitive(s, t, Now()); }
      var status :- asked;
      if Shows(status, ST_HOMED, 0) { return Failed(DidNotHome); }
      r := Ok(());
    }

    method DiscInBay() returns (r: Outcome<bool>)
      requires Linked()
      modifies this, io, io.carousel, io.clock
      ensures Holds(r.Lost?) && !r.Failed?
      ensures r.Ok? ==> Now() == Poll(old(Now())) && r.value == !Shows(Sample(old(Now())), ST_DISC_IN_BAY, 0)
      ensures Good(old(Now()).u) ==> Ages(old(Now()).u, Now().u)
      ensures Sound(old(Now())) ==> Kept(old(Now()), Now()) && Load(Now().u) <= Load(old(Now()).u)
      ensures Wrote(old(io.writes), io.writes, CMD_REQUEST_STATE)
    {
      hide Ages, Good, Wrote, Sound, Load, Kept, Poll, Sample, Shows;
      var status :- Status();
      r := Ok(!Shows(status, ST_DISC_IN_BAY, 0));
    }

    /** The guard in front of every move: an empty bay, or a refusal. */
    method RefuseWithADiscOut() returns (r: Outcome<()>)
      requires Linked()
      modifies this, io, io.carousel, io.clock
      ensures Holds(r.Lost?)
      ensures !r.Lost? ==>
                && Now() == Poll(old(Now()))
                && r == if Shows(Sample(old(Now())), ST_DISC_IN_BAY, 0) then Ok(()) else Failed(DiscInTheBay)
      ensures Sound(old(Now())) ==> Kept(old(Now()), Now())
      ensures Wrote(old(io.writes), io.writes, CMD_REQUEST_STATE)
    {
      hide Wrote, Sound, Load, Kept, Poll, Sample, Shows;
      var out :- DiscInBay();
      r := if out then Failed(DiscInTheBay) else Ok(());
    }

    /** Turns a slot to the mouth, and on request pushes out what it holds. */
    method MoveTo(slot: int, eject: bool := false) returns (r: Outcome<()>)
      requires Linked()
      modifies this, io, io.carousel, io.clock
      ensures !(0 <= slot <= 100) ==>
                r == Failed(SlotOutOfRange) && Stays() && Now() == old(Now()) && isOpen == old(isOpen)
      ensures 0 <= slot <= 100 ==>
                Holds(r.Lost?) && Moves(old(Now()), Now(), MoveArgs(slot, eject), r)
      ensures 0 <= slot <= 100 && !r.Lost? ==> MoveRun(old(Now()), MoveArgs(slot, eject)) == Outturn(Now(), r)
      ensures Wrote(old(io.writes), io.writes, CMD_SET_POS)
    {
      hide Wrote, Sound, Load, Kept, Prompt, Outlook, Clears, HomesTo, Turns, Turnable, AtRest, Quiet, Moves, Ready,
           Cleared, HomedCore, ClearRun, HomeRun, TurnRun;
      WroteOne(io.writes, io.writes, CMD_SET_POS, NO_ARGS);
      if !(HOME <= slot <= SLOT_MAX) { return Failed(SlotOutOfRange); }
      ghost var s := Now();
      var args := MoveArgs(slot, eject);
      KeptLaws();
      var cleared := Clear();
      ghost var p, written := Now(), io.writes;
      WroteTransitive(old(io.writes), old(io.writes), written, CMD_SET_POS, CMD_REQUEST_STATE);
      ClearsThenMoves(s, p, args, cleared);
      var _ :- cleared;
      if slot != HOME {
        var homed := EnsureHomed();
        WroteTransitive(old(io.writes), written, io.writes, CMD_SET_POS, CMD_SET_POS);
        HomesThenMoves(s, p, Now(), args, homed);
        var _ :- homed;
      }
      ghost var h := Now();
      written := io.writes;
      r := Turn(args);
      WroteTransitive(old(io.writes), written, io.writes, CMD_SET_POS, CMD_SET_POS);
      TurnsThenMoves(s, h, Now(), args, r);
    }

    /** Back to home, at best effort; `r` is what became of the move, which nobody asks. */
    method Park() returns (ghost r: Outcome<()>)
      requires Linked()
      modifies this, io, io.carousel, io.clock
      ensures Holds(r.Lost?) && Moves(old(Now()), Now(), MoveArgs(0, false), r)
      ensures Wrote(old(io.writes), io.writes, CMD_SET_POS)
    {
      var outcome := MoveTo(HOME);
      r := outcome;
    }

    /** A command whose reply is of no interest. */
    method Tell(cmd: Byte, args: Args := NO_ARGS) returns (r: Outcome<()>)
      requires Linked() && !Actuates(cmd)
      modifies this, io, io.carousel, io.clock
      ensures Holds(r.Lost?) && !r.Failed?
      ensures Sound(old(Now())) ==> Kept(old(Now()), Now()) && Load(Now().u) <= Load(old(Now()).u)
      ensures r.Ok? ==> Steady(old(Now()), Now()) && io.writes == old(io.writes) + [(cmd, args)]
      ensures r.Ok? ==> Spoken(old(Now()), Now(), cmd)
    {
      hide Sound, Load, Kept, Prompt, Outlook, CommandRun, CutShort, Quiet, OnlyBlips, Spoken;
      ghost var s := Now();
      CommandTold(s, cmd, args);
      var got := Command(cmd, args);
      if Sound(s) { TalkKeeps(s, Now(), cmd, args, got.Lost?); }
      if Prompt(s) { TalkPrompt(s, cmd, args); }
      if Quiet(s) { QuietGood(s); }
      var _ :- got;
      r := Ok(());
    }

    /** Clears what is latched, then goes home. */
    method Reset() returns (r: Outcome<()>)
      requires Linked()
      modifies this, io, io.carousel, io.clock
      ensures Holds(r.Lost?) && Moves(old(Now()), Now(), MoveArgs(0, false), r)
      ensures !r.Lost? ==> old(io.writes) + CLEARING <= io.writes
      ensures Quiet(old(Now())) && !old(Now()).u.w.blips && !r.Lost? ==> !Now().u.m.ackTimeout
    {
      hide Wrote, Sound, Load, Kept, Prompt, Outlook, Steady, Spoken, Moves, MovesTo, Clears, Cleared, Ready, Turnable,
           Turns, Quiet, ClearRun, TurnRun, Losses, Good, AtRest;
      ghost var s := Now();
      ghost var args := MoveArgs(0, false);
      var told := Errors();
      ghost var t := Now();
      if told.Lost? { NoMove(s, t, args); }
      var _ :- told;
      KeptLaws();
      SteadySound(s, t);
      QuietPrompt(s);
      ghost var written := io.writes;
      var cleared := Clear();
      ghost var p := Now();
      SteadyClears(s, t, p, args, cleared);
      WroteMore(written, io.writes, CMD_REQUEST_STATE);
      var _ :- cleared;
      ghost var asked := io.writes;
      told := Tell(CMD_SET_LED, Args(1, 1, 0, 0, 0));
      ghost var q := Now();
      if told.Lost? { NoMove(s, q, args); }
      var _ :- told;
      ClearedStays(s, p, q, args);
      assert io.writes[..|asked|] == asked;
      ghost var turning := io.writes;
      r := Turn(MoveArgs(0, false));
      WroteMore(turning, io.writes, CMD_SET_POS);
      MoreAndMore(written, asked, turning, io.writes);
      TurnsThenMoves(s, q, Now(), args, r);
    }

    /** The pair that clears a latched error, whatever the unit is doing. */
    method Errors() returns (r: Outcome<()>)
      requires Linked()
      modifies this, io, io.carousel, io.clock
      ensures Holds(r.Lost?) && !r.Failed?
      ensures Sound(old(Now())) ==> Kept(old(Now()), Now())
      ensures r.Ok? ==> Steady(old(Now()), Now())
      ensures r.Ok? ==> io.writes == old(io.writes) + CLEARING
      ensures r.Ok? && Prompt(old(Now())) ==>
                (Now().u.m.ackTimeout <==> old(Now()).u.m.ackTimeout && Losses(old(Now()), Now()) == 2)
      ensures r.Ok? && Quiet(old(Now())) && !old(Now()).u.w.blips ==> !Now().u.m.ackTimeout
    {
      hide Sound, Load, Kept, Steady, Prompt, Quiet, Spoken, Losses;
      ghost var s := Now();
      KeptLaws();
      var _ :- Tell(CMD_REQUEST_STATE);
      ghost var t := Now();
      var _ :- Tell(CMD_CLEAR_ERR_1);
      ghost var p := Now();
      SteadyTransitive(s, t, p);
      var _ :- Tell(CMD_CLEAR_ERR_2);
      SteadyTransitive(s, p, Now());
      ClearingTold(s, t, p, Now());
      QuietPrompt(s);
      r := Ok(());
    }

    // -- discs in and out --------------------------------------------------

    /** Polls until the aperture flag is up, or the time is. */
    method WaitForInsert(timeoutMs: nat := INSERT_WINDOW_MS) returns (r: Outcome<bool>)
      requires Linked() && timeoutMs > 0
      modifies this, io, io.carousel, io.clock
      ensures Holds(r.Lost?) && !r.Failed?
      ensures Good(old(Now()).u) ==> Ages(old(Now()).u, Now().u)
      ensures Sound(old(Now())) && r.Ok? ==> !r.value
      ensures Quiet(old(Now())) && r.Ok? ==> Quiet(Now()) && Outlook(Now().u) == Outlook(old(Now()).u)
      ensures r.Ok? ==>
                Watch(Now(), r.value)
                == WaitRun(old(Now()), ST_DISC_WAITING, ST_DISC_WAITING, old(Now()).now + timeoutMs)
      ensures forall c, e, lone ::
                In(old(Now()), c, Awaited(e), lone) && r.Ok? ==>
                  Notices(old(Now()), Now(), timeoutMs, c, e, lone, r.value)
    {
      hide Judged, Polled, Wrote, Good, Ages, Sound, Quiet, Outlook, In, Notices, WaitRun;
      ghost var s := Now();
      r := WaitState(ST_DISC_WAITING, ST_DISC_WAITING, timeoutMs);
      if Sound(s) { NobodyInserts(s, s.now + timeoutMs); }
      if Quiet(s) { WaitStaysQuiet(s, ST_DISC_WAITING, ST_DISC_WAITING, s.now + timeoutMs); }
      forall c, e, lone | In(s, c, Awaited(e), lone) && r.Ok?
        ensures Notices(s, Now(), timeoutMs, c, e, lone, r.value)
      {
        InsertNoticed(s, timeoutMs, c, e, lone);
      }
    }

    /** Polls until the bay is seen empty, or the time is up. */
    method WaitForTake(timeoutMs: nat := TAKE_WINDOW_MS) returns (r: Outcome<bool>)
      requires Linked() && timeoutMs > 0
      modifies this, io, io.carousel, io.clock
      ensures Holds(r.Lost?) && !r.Failed?
      ensures Good(old(Now()).u) ==> Ages(old(Now()).u, Now().u)
      ensures Quiet(old(Now())) && Outlook(old(Now()).u).bay && r.Ok? ==>
                !r.value && Quiet(Now()) && Outlook(Now().u) == Outlook(old(Now()).u)
      ensures forall c, e ::
                Reach(old(Now()).u, c, e) && old(Now()).u.busyUntil <= old(Now()).now && c.position <= 100 && r.Ok? ==>
                  Misses(old(Now()), Now(), timeoutMs, c, e, r.value)
      ensures Wrote(old(io.writes), io.writes, CMD_REQUEST_STATE)
    {
      hide Judged, Polled, Wrote, Good, Ages, Quiet, Outlook, Reach, Prompt, WaitRun, LastLook;
      ghost var s := Now();
      r := WaitState(ST_DISC_IN_BAY, 0, timeoutMs);
      if Quiet(s) {
        WaitStaysQuiet(s, ST_DISC_IN_BAY, 0, s.now + timeoutMs);
        if Outlook(s.u).bay { NobodyTakes(s, s.now + timeoutMs); }
      }
      forall c, e | Reach(s.u, c, e) && s.u.busyUntil <= s.now && c.position <= 100 && r.Ok?
        ensures Misses(s, Now(), timeoutMs, c, e, r.value)
      {
        TakeSeen(s, c, e, s.now + timeoutMs);
      }
    }

    /**
     Tells the unit to keep the disc it has drawn in, once it has gone idle
     and can hear it.
     */
    method Ingest() returns (r: Outcome<()>)
      requires Linked()
      modifies this, io, io.carousel, io.clock
      ensures Holds(r.Lost?)
      ensures Fed(old(Now()), false) ==> TakesIn(old(Now()), Now(), r)
      ensures Fed(old(Now()), true) && old(Now()).u.m.position <= 100 ==> Loads(old(Now()), Now(), r)
      ensures !r.Lost? ==> IngestRun(old(Now())) == Outturn(Now(), r)
    {
      hide Fed, Good, Ages, Sound, Survives, Kept, Quiet, WaitRun, RequireRun, TakesIn, Loads, AtRest, Load;
      ghost var s := Now();
      LostIngest(s);
      var idle :- WaitIdle();
      ghost var w := Now();
      if !idle {
        if Fed(s, false) || Fed(s, true) { FedGood(s); IngestUnsettled(s, w); }
        return Failed(NeverSettled);
      }
      ghost var fed := Fed(s, false) || Fed(s, true);
      if fed { FedGood(s); AgesGood(s.u, w.u); }
      var accepted := Require(CMD_ACCEPT_DISC);
      ghost var e := Now();
      if fed && accepted.Failed? { IngestUnheard(s, w, e); }
      var _ :- accepted;
      idle :- WaitIdle();
      if fed { IngestHeard(s, w, e, Now(), idle); }
      r := if idle then Ok(()) else Failed(TimedOut);
    }

    /** Puts a presented disc back; whether the unit acknowledged being told to. */
    method Retract() returns (r: Outcome<bool>)
      requires Linked()
      modifies this, io, io.carousel, io.clock
      ensures Holds(r.Lost?)
      ensures Sound(old(Now())) ==> Minded(old(Now()), Now())
      ensures Good(old(Now()).u) ==> Survives(old(Now()).u, Now().u, CMD_RETRACT)
      ensures Quiet(old(Now())) ==> Retracts(old(Now()), Now(), r)
      ensures Wrote(old(io.writes), io.writes, CMD_RETRACT)
    {
      hide Minded, Tame, Wrote, Sound, Load, Kept, Quiet, Outlook, WaitRun, RequireRun, Poll, Sample, Shows, PutBack,
           Good, Ages, Survives, AtRest, Retracts;
      ghost var s := Now();
      KeptLaws();
      LostRetracts(s);
      if Quiet(s) { RetractSettles(s); }
      WroteOne(io.writes, io.writes, CMD_RETRACT, NO_ARGS);
      var settled := WaitIdle(NOW_MS);
      ghost var written := io.writes;
      WroteTransitive(old(io.writes), old(io.writes), written, CMD_RETRACT, CMD_REQUEST_STATE);
      ghost var p := Now();
      SurvivesNow(s, s, p, CMD_RETRACT);
      var _ :- settled;
      var required := Require(CMD_RETRACT);
      WroteTransitive(old(io.writes), written, io.writes, CMD_RETRACT, CMD_RETRACT);
      ghost var e := Now();
      SurvivesOnce(s, p, e, CMD_RETRACT);
      if required.Lost? { return Lost; }
      var acked := required.Ok?;
      written := io.writes;
      var waited := WaitIdle();
      WroteTransitive(old(io.writes), written, io.writes, CMD_RETRACT, CMD_REQUEST_STATE);
      ghost var w := Now();
      SurvivesNow(s, e, w, CMD_RETRACT);
      var idle :- waited;
      if !idle { return Failed(TimedOut); }
      if Quiet(s) { RetractEnds(s, Now(), acked); }
      written := io.writes;
      var looked := DiscInBay();
      WroteTransitive(old(io.writes), written, io.writes, CMD_RETRACT, CMD_REQUEST_STATE);
      SurvivesNow(s, w, Now(), CMD_RETRACT);
      var out :- looked;
      r := if out then Failed(NotTakenBack) else Ok(acked);
    }

    /** Where the carousel is, as the first byte of the reply tells it; asking clears a latched error. */
    method Position() returns (r: Outcome<bv8>)
      requires Linked()
      modifies this, io, io.carousel, io.clock
      ensures Holds(r.Lost?)
      ensures !r.Lost? ==> Talked(old(Now()), Now())
      ensures !r.Lost? ==>
                var e := RequireRun(old(Now()), CMD_CLEAR_ERR_2, NO_ARGS, TRIES); Now() == e.s && r.Ok? == e.reply.Some?
      ensures r.Ok? ==> Tells(old(Now()).now, Now(), r.value)
      ensures Wrote(old(io.writes), io.writes, CMD_CLEAR_ERR_2)
    {
      hide Wrote, Talked, RequireRun, Survives, Good, Ages, Kept, HeardOnce, Tells;
      ghost var s := Now();
      RequireTalked(s, CMD_CLEAR_ERR_2, NO_ARGS, TRIES);
      var packet :- Require(CMD_CLEAR_ERR_2);
      PositionTold(s, TRIES);
      r := Ok(packet.payload.x1);
    }
  }

  // -- asking again and again ----------------------------------------------

  /** Nothing but status requests in between. */
  ghost predicate Asked(s: Sim, t: Sim) {
    Polled(s.u.w.log, t.u.w.log) && (Good(s.u) ==> Ages(s.u, t.u) && Good(t.u))
  }

  lemma AskedNone(s: Sim)
    ensures Asked(s, s)
  {
    hide Good, Ages, Polled;
    NothingPolled(s.u.w.log);
    if Good(s.u) { AgesReflexive(s.u); }
  }

  lemma AskedAgain(s: Sim, t: Sim, r: Sim)
    requires Asked(s, t) && Polled(t.u.w.log, r.u.w.log) && (Good(t.u) ==> Ages(t.u, r.u) && Good(r.u))
    ensures Asked(s, r) && Polled(s.u.w.log, r.u.w.log) && (Good(s.u) ==> Ages(s.u, r.u))
  {
    hide Good, Ages, Polled;
    PolledTransitive(s.u.w.log, t.u.w.log, r.u.w.log);
    if Good(s.u) { AgesTransitive(s.u, t.u, r.u); }
  }

  // -- what the loops keep -------------------------------------------------

  lemma FitAges(u: Unit, v: Unit, cmd: Byte)
    requires Fit(u, cmd) && Ages(u, v)
    ensures Fit(v, cmd)
  {
  }

  lemma CommandKeeps(s: Sim, t: Sim, r: Sim, cmd: Byte, args: Args, cut: bool)
    requires Ages(s.u, t.u) && Good(t.u) && Fit(t.u, cmd)
    requires if cut then CutShort(t, r, cmd, args) else r == CommandRun(t, cmd, args).s
    ensures Survives(s.u, r.u, cmd)
    ensures !Actuates(cmd) ==> Ages(s.u, r.u)
    ensures Tame(s.u) ==> Minded(s, r) && (!Stores(cmd) ==> Kept(s, r))
  {
    hide Ages, Good, Survives, Load, Reads, Found, Receive, Tame, Kept, Minded;
    CutShortSurvives(t, r, cmd, args);
    AgesSurvives(s.u, t.u, r.u, cmd);
    if !Actuates(cmd) {
      CutShortPassive(t, r, cmd, args);
      AgesTransitive(s.u, t.u, r.u);
    }
    if Tame(s.u) { SurvivesKept(s, r, cmd); }
  }

  lemma ReadSince(s: Sim, t: Sim)
    requires s.now <= t.now && (t.u == s.u || Talked(s, t))
    ensures Talked(s, Sim(RunDue(t.u, t.now + POLL_MS), t.now + POLL_MS))
  {
    hide Talked, RunDue;
    if t.u == s.u {
      ReadTalked(s, t.now + POLL_MS - s.now);
    } else {
      ReadTalked(t, POLL_MS);
      TalkedTransitive(s, t, Sim(RunDue(t.u, t.now + POLL_MS), t.now + POLL_MS));
    }
  }

  lemma TalkKeeps(s: Sim, t: Sim, cmd: Byte, args: Args, cut: bool)
    requires Sound(s) && !Actuates(cmd)
    requires if cut then CutShort(s, t, cmd, args) else t == CommandRun(s, cmd, args).s
    ensures Kept(s, t) && Load(t.u) <= Load(s.u)
  {
    hide Ages, Good, Load, Reads, Found, Receive, Tame, Kept, Fresh;
    if cut { CutShortPassive(s, t, cmd, args); } else { CommandPasses(s, cmd, args); }
    AgesCalm(s.u, t.u);
    AgesKept(s, t);
  }

  lemma SurvivesNow(s: Sim, t: Sim, r: Sim, cmd: Byte)
    requires t == s || (Good(s.u) ==> Survives(s.u, t.u, cmd))
    requires Good(t.u) ==> Ages(t.u, r.u)
    ensures Good(s.u) ==> Survives(s.u, r.u, cmd)
    ensures Sound(s) ==> Minded(s, r)
  {
    hide Ages, Good, Survives, Tame, Minded;
    if Good(s.u) {
      if t == s {
        AgesIsSurvival(s.u, r.u, cmd);
      } else {
        SurvivesGood(s.u, t.u, cmd);
        SurvivesAges(s.u, t.u, r.u, cmd);
      }
      if Tame(s.u) { SurvivesKept(s, r, cmd); }
    }
  }

  lemma SurvivesOnce(s: Sim, t: Sim, r: Sim, cmd: Byte)
    requires Good(s.u) ==> Ages(s.u, t.u)
    requires Good(t.u) && Fit(t.u, cmd) ==> Survives(t.u, r.u, cmd)
    requires cmd != CMD_SET_POS
    ensures Good(s.u) ==> Survives(s.u, r.u, cmd)
    ensures Sound(s) ==> Minded(s, r)
  {
    hide Ages, Good, Survives, Tame, Minded;
    if Good(s.u) {
      AgesGood(s.u, t.u);
      AgesSurvives(s.u, t.u, r.u, cmd);
      if Tame(s.u) { SurvivesKept(s, r, cmd); }
    }
  }

  lemma WaitKeeps(s: Sim, t: Sim, r: Sim, cmd: Byte)
    requires Ages(s.u, t.u) && Ages(t.u, r.u)
    ensures Ages(s.u, r.u) && Good(r.u) && Survives(s.u, r.u, cmd)
    ensures Tame(s.u) ==> Kept(s, r) && Minded(s, r)
  {
    hide Ages, Good, Survives, Tame, Minded;
    AgesTransitive(s.u, t.u, r.u);
    AgesGood(t.u, r.u);
    AgesIsSurvival(s.u, r.u, cmd);
    if Tame(s.u) { AgesKept(s, r); }
  }
}
