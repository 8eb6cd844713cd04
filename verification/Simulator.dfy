/**
 The simulated unit as objects: the carousel whose fields the handlers update in
 place, and the transport that latches its last reply. Every method is proved
 against the functions of `Firmware`.
 */
module Simulator {
  import opened Wrappers
  import opened Firmware
  import opened CommandLaws

  class Clock {
    var ms: int

    constructor (start: int)
      ensures ms == start
    {
      ms := start;
    }

    method AdvanceMs(delta: nat)
      modifies this
      ensures ms == old(ms) + delta
    {
      ms := ms + delta;
    }
  }

  class Carousel {
    const clock: Clock
    const unit: Byte
    const serial: bv32

    var occupied: set<Byte>
    var position: Byte
    var homed: bool
    var discWaiting: bool
    var newDiscAck: bool
    var discInBay: bool
    var ackTimeout: bool
    var retracted: bool
    var unknownBit: bool

    var blips: bool
    var luck: seq<bool>
    var busyUntil: int
    var working: bool
    var events: seq<Event>
    var seqno: nat

    var log: seq<Heard>
    var dropped: seq<Dropped>
    var fed: nat
    var handed: nat

    function View(): Unit
      reads this
    {
      Unit(
        Machine(occupied, position, homed, discWaiting, newDiscAck, discInBay, ackTimeout, retracted, unknownBit,
                fed, handed),
        busyUntil, working, events, seqno, Wire(serial, blips, luck, log, dropped))
    }

    constructor (clock: Clock, occupied: set<Byte>, serial: bv32, unit: Byte, blips: bool, luck: seq<bool>)
      ensures this.clock == clock && this.serial == serial && this.unit == unit
      ensures View() == Unit(Machine(occupied, 0, false, false, false, false, false, false, false, 0, 0),
                             0, true, [], 0, Wire(serial, blips, luck, [], []))
    {
      this.clock, this.serial, this.unit := clock, serial, unit;
      this.occupied, position, homed := occupied, 0, false;
      discWaiting, newDiscAck, discInBay, ackTimeout, retracted, unknownBit := false, false, false, false, false, false;
      this.blips, this.luck := blips, luck;
      busyUntil, working, events, seqno := 0, true, [], 0;
      log, dropped, fed, handed := [], [], 0, 0;
    }

    function Busy(): bool
      reads this, clock
    {
      clock.ms < busyUntil
    }

    method At(when: int, what: Happening)
      modifies this`events, this`seqno
      ensures View() == Firmware.At(old(View()), when, what)
    {
      seqno := seqno + 1;
      events := Enqueue(events, Event(when, seqno, what));
    }

    method After(delay: int, what: Happening)
      modifies this`events, this`seqno
      ensures View() == Firmware.At(old(View()), clock.ms + delay, what)
    {
      At(clock.ms + delay, what);
    }

    method WorkFor(ms: nat, working: bool := true)
      modifies this`busyUntil, this`working
      ensures View() == Firmware.WorkFor(old(View()), clock.ms, ms, working)
    {
      busyUntil := Max(busyUntil, clock.ms + ms);
      this.working := working;
    }

    method RunDue()
      modifies this
      ensures View() == Firmware.RunDue(old(View()), clock.ms)
    {
      while events != [] && events[0].when <= clock.ms
        invariant Firmware.RunDue(View(), clock.ms) == Firmware.RunDue(old(View()), clock.ms)
        decreases DueCount(events, clock.ms)
      {
        ghost var before := View();
        var what := events[0].what;
        events := events[1..];
        FireDue(View(), what, clock.ms);
        Fire(what);
      }
    }

    // -- the physical half -------------------------------------------------

    /** A hand will put a disc in at `when`. */
    method InsertDisc(when: int)
      modifies this`events, this`seqno
      ensures View() == Firmware.At(old(View()), when, DiscArrives)
    {
      At(when, DiscArrives);
    }

    /** A hand will reach into the bay at `when`. */
    method TakeDisc(when: int)
      modifies this`events, this`seqno
      ensures View() == Firmware.At(old(View()), when, Taken)
    {
      At(when, Taken);
    }

    /** The queued closures, one by one: a move ends. */
    method CarouselArrived(target: Byte, presenting: bool)
      modifies this
      ensures View() == Firmware.Fire(old(View()), Arrived(target, presenting), clock.ms)
    {
      hide Enqueue;
      position := target;
      homed := true;
      if presenting {
        occupied := occupied - {target};
        discInBay := true;
      }
    }

    /** Half way through a retract the bay clears. */
    method DiscBackInSlot()
      modifies this
      ensures View() == Firmware.Fire(old(View()), BackInSlot, clock.ms)
    {
      hide Enqueue;
      if discInBay {
        discInBay := false;
        occupied := occupied + {position};
        After(RETRACT_MS - RETRACT_BAY_MS, Settled);
      }
    }

    /** A disc reaches the aperture. */
    method DiscArrived()
      modifies this
      ensures View() == Firmware.Fire(old(View()), DiscArrives, clock.ms)
    {
      hide Enqueue;
      discWaiting := true;
      fed := fed + 1;
      WorkFor(APERTURE_MS);
      After(APERTURE_MS, DrawnOff);
    }

    /** It has been drawn off the aperture and awaits its acknowledgement. */
    method DiscDrawnOff()
      modifies this
      ensures View() == Firmware.Fire(old(View()), DrawnOff, clock.ms)
    {
      hide Enqueue;
      discWaiting := false;
      newDiscAck := true;
      WorkFor(SETTLE_MS);
      var deadline := clock.ms + (SETTLE_MS + ACK_WINDOW_MS);
      At(deadline, AckExpired);
    }

    /** The window closes: a disc still unacknowledged goes out into the bay. */
    method AckWindowExpired()
      modifies this
      ensures View() == Firmware.Fire(old(View()), AckExpired, clock.ms)
    {
      hide Enqueue;
      if !newDiscAck { return; }
      newDiscAck := false;
      ackTimeout := true;
      discInBay := true;
      WorkFor(BAY_MS);
    }

    /** A hand empties the bay. */
    method DiscTaken()
      modifies this
      ensures View() == Firmware.Fire(old(View()), Taken, clock.ms)
    {
      hide Enqueue;
      handed := handed + if discInBay then 1 else 0;
      discInBay := false;
      ackTimeout := true;
      WorkFor(TAKE_MS);
    }

    method Fire(what: Happening)
      modifies this
      ensures View() == Firmware.Fire(old(View()), what, clock.ms)
    {
      hide Enqueue;
      match what
      case Arrived(target, presenting) => CarouselArrived(target, presenting);
      case BackInSlot => DiscBackInSlot();
      case Settled => retracted := true;
      case DiscArrives => DiscArrived();
      case DrawnOff => DiscDrawnOff();
      case AckExpired => AckWindowExpired();
      case Stored(slot) => occupied := occupied + {slot};
      case Taken => DiscTaken();
    }

    // -- state -------------------------------------------------------------

    method Status() returns (st: bv16)
      ensures st == StatusWord(View(), clock.ms)
    {
      st := 0;
      if Busy() { st := st | if working then BUSY_IDLE | BUSY_WORKING else BUSY_IDLE; }
      if discWaiting { st := st | DISC_WAITING; }
      if newDiscAck { st := st | NEW_DISC_ACK; }
      if discInBay { st := st | DISC_IN_BAY; }
      if ackTimeout { st := st | ACK_TIMEOUT; }
      if retracted { st := st | RETRACTED; }
      if unknownBit { st := st | UNKNOWN; }
      if homed { st := st | HOMED; }
    }

    method StatusReply() returns (reply: Payload)
      ensures reply == Firmware.StatusReply(View(), clock.ms)
    {
      var st := Status();
      reply := Payload(position as bv8, ((st >> 8) & 0xFF) as bv8, (st & 0xFF) as bv8, 0);
    }

    // -- opcode handling ---------------------------------------------------

    /** One command arriving: its reply, or silence. */
    method Handle(cmd: Byte, args: Args) returns (reply: Option<Payload>)
      modifies this
      ensures Response(View(), reply) == Firmware.Handle(old(View()), clock.ms, cmd, args)
    {
      hide Firmware.Receive;
      RunDue();
      reply := Receive(cmd, args);
    }

    method Drop(cmd: Byte, args: Args, why: Reason)
      modifies this`dropped
      ensures View() == Firmware.Drop(old(View()), cmd, args, why).u
    {
      dropped := dropped + [Dropped(cmd, args, why, |log|)];
    }

    /** Whether the next draw loses the command to a blip. */
    method Blipped() returns (lost: bool)
      modifies this`luck
      ensures View() == old(View()).(w := Draw(old(View()).w))
      ensures lost == (old(luck) != [] && old(luck)[0])
    {
      lost := luck != [] && luck[0];
      luck := if luck == [] then luck else luck[1..];
    }

    method Receive(cmd: Byte, args: Args) returns (reply: Option<Payload>)
      modifies this
      ensures Response(View(), reply) == Firmware.Receive(old(View()), clock.ms, cmd, args)
    {
      hide Perform;
      reply := None;
      if Busy() && !AlwaysAnswered(cmd) {
        Drop(cmd, args, MidMotion);
        return;
      }
      if blips && !AlwaysAnswered(cmd) {
        var lost := Blipped();
        if lost {
          WorkFor(BLIP_FOR_MS, false);
          Drop(cmd, args, Blip);
          return;
        }
      }
      if cmd == CMD_SET_POS && args.x1 != 0 && !homed {
        Drop(cmd, args, PositionUnknown);
        return;
      }
      log := log + [Heard(cmd, args, discInBay, newDiscAck)];
      reply := Dispatch(cmd, args);
    }

    method Dispatch(cmd: Byte, args: Args) returns (reply: Option<Payload>)
      modifies this
      ensures Response(View(), reply) == Perform(old(View()), clock.ms, cmd, args)
    {
      var payload := Payload(0, 0, 0, 0);
      if cmd == CMD_CLEAR_ERR_1 {
        ackTimeout := false;
      } else if cmd == CMD_SET_POS {
        payload := SetPos(args);
      } else if cmd == CMD_RETRACT {
        WorkFor(RETRACT_MS);
        After(RETRACT_BAY_MS, BackInSlot);
      } else if cmd == CMD_CLEAR_ERR_2 {
        ackTimeout := false;
        payload := StatusReply();
      } else if cmd == CMD_VERSION_A {
        payload := Payload(0x01, 0x04, 0x23, 0x17);
      } else if cmd == CMD_VERSION_B {
        payload := Payload(0x00, 0x02, 0x00, 0x79);
      } else if cmd == CMD_GET_SERIAL {
        payload := SerialReply(serial);
      } else if cmd == CMD_ACCEPT_DISC {
        payload := AcceptDisc();
      } else {
        payload := StatusReply();
      }
      reply := Some(payload);
    }

    method SetPos(args: Args) returns (payload: Payload)
      modifies this
      ensures Response(View(), Some(payload)) == Firmware.SetPos(old(View()), clock.ms, args)
    {
      hide Firmware.StatusReply, SeekMs, Enqueue;
      var travel := SeekMs(position, args.x1);
      var presenting := args.x2 != 0 && args.x1 in occupied;
      if presenting { travel := travel + PUSH_MS; }
      WorkFor(travel + if presenting then BAY_MS else 0);
      ackTimeout := false;
      retracted := false;
      After(travel, Arrived(args.x1, presenting));
      payload := StatusReply();
    }

    method AcceptDisc() returns (payload: Payload)
      modifies this
      ensures Response(View(), Some(payload)) == Firmware.AcceptDisc(old(View()), clock.ms)
    {
      if !newDiscAck {
        payload := StatusReply();
        return;
      }
      newDiscAck := false;
      WorkFor(INGEST_MS);
      After(INGEST_MS, Stored(position));
      payload := StatusReply();
    }
  }

  datatype Packet = Packet(unit: Byte, msgid: Byte, cmd: Byte, payload: Payload)

  /** What went out in between was status requests and this command, and nothing else. */
  predicate Wrote(a: seq<(Byte, Args)>, b: seq<(Byte, Args)>, cmd: Byte) {
    |a| <= |b| && b[..|a|] == a && forall i | |a| <= i < |b| :: b[i].0 == CMD_REQUEST_STATE || b[i].0 == cmd
  }

  lemma WroteOne(a: seq<(Byte, Args)>, b: seq<(Byte, Args)>, cmd: Byte, args: Args)
    requires b == a || b == a + [(cmd, args)]
    ensures Wrote(a, b, cmd)
  {
  }

  lemma WroteMore(a: seq<(Byte, Args)>, b: seq<(Byte, Args)>, cmd: Byte)
    requires Wrote(a, b, cmd)
    ensures a <= b
  {
  }

  lemma MoreAndMore(a: seq<(Byte, Args)>, b: seq<(Byte, Args)>, c: seq<(Byte, Args)>, d: seq<(Byte, Args)>)
    requires a <= b <= c <= d
    ensures a <= d
  {
  }

  lemma WroteTransitive(a: seq<(Byte, Args)>, b: seq<(Byte, Args)>, c: seq<(Byte, Args)>, cmd: Byte, other: Byte)
    requires Wrote(a, b, cmd) && Wrote(b, c, other)
             && (other == cmd || other == CMD_REQUEST_STATE || cmd == CMD_REQUEST_STATE)
    ensures Wrote(a, c, if cmd == CMD_REQUEST_STATE then other else cmd)
  {
    assert c[..|a|] == c[..|b|][..|a|] == a;
    forall i | |a| <= i < |c|
      ensures c[i].0 == CMD_REQUEST_STATE || c[i].0 == if cmd == CMD_REQUEST_STATE then other else cmd
    {
      if i < |b| { assert c[i] == c[..|b|][i]; }
    }
  }

  /**
   The line to a carousel: it repeats its last reply until it
   processes something new. `unplugAt` is when a hand pulls the cable, if ever.
   `strays` are packets of any kind that a line of another make delivers in place
   of the carousel's; the simulator's own line has none.
   */
  class SimulatedTransport {
    const clock: Clock
    const carousel: Carousel

    var present: bool
    var isOpen: bool
    var failOpens: nat
    var unplugAt: Option<int>
    var latched: Option<Packet>
    var msgid: Byte
    var strays: seq<Packet>
    var delivered: seq<Packet>
    var writes: seq<(Byte, Args)>
    var opens: nat
    var closes: nat

    /** A line of any make to this carousel. */
    ghost predicate Plumbed()
      reads this
    {
      && carousel.clock == clock && (isOpen ==> latched.Some?)
      && (latched.Some? ==> Genuine(latched.value))
    }

    /** The simulator's own line, that delivers what the carousel last replied and nothing else. */
    ghost predicate Wired()
      reads this
    {
      Plumbed() && strays == []
    }

    /** A packet this carousel could have sent: its own number on it, and its own serial in it. */
    ghost predicate Genuine(p: Packet) {
      p.unit == carousel.unit && (p.cmd == CMD_GET_SERIAL ==> p.payload == SerialReply(carousel.serial))
    }

    ghost function Now(): Sim
      reads this, carousel, clock
    {
      Sim(carousel.View(), clock.ms)
    }

    constructor (clock: Clock, carousel: Carousel, present: bool, unplugAt: Option<int>)
      requires carousel.clock == clock
      ensures Wired() && this.clock == clock && this.carousel == carousel && this.present == present
      ensures !isOpen && failOpens == 0 && latched == None && msgid == 0 && this.unplugAt == unplugAt
    {
      this.clock, this.carousel, this.present, this.unplugAt := clock, carousel, present, unplugAt;
      isOpen, failOpens, latched, msgid, writes, opens, closes := false, 0, None, 0, [], 0, 0;
      strays, delivered := [], [];
    }

    method Open() returns (ok: bool)
      requires Wired()
      modifies this
      ensures Wired() && unplugAt == old(unplugAt) && present == old(present) && msgid == old(msgid)
      ensures ok == (old(failOpens) == 0 && old(present))
      ensures ok ==> isOpen && latched == Some(Packet(carousel.unit, msgid, CMD_NEW_UNIT, Payload(0, 0, 0, 0)))
      ensures !ok ==> isOpen == old(isOpen) && latched == old(latched)
      ensures failOpens == if old(failOpens) > 0 then old(failOpens) - 1 else 0
    {
      if failOpens > 0 {
        failOpens := failOpens - 1;
        return false;
      }
      if !present { return false; }
      opens := opens + 1;
      isOpen := true;
      latched := Some(Packet(carousel.unit, msgid, CMD_NEW_UNIT, Payload(0, 0, 0, 0)));
      ok := true;
    }

    method Close()
      requires Plumbed()
      modifies this`isOpen, this`closes
      ensures Plumbed() && !isOpen
    {
      if isOpen { closes := closes + 1; }
      isOpen := false;
    }

    /** The next report; waiting for it is what moves time. */
    method Read(timeoutMs: nat) returns (r: Outcome<Packet>)
      requires Plumbed()
      modifies this`isOpen, this`present, this`strays, this`delivered, carousel, clock
      ensures Plumbed() && !r.Failed? && (old(Wired()) ==> Wired())
      ensures delivered == if r.Ok? then old(delivered) + [r.value] else old(delivered)
      ensures !old(isOpen) ==> r.Lost? && Now() == old(Now()) && present == old(present) && isOpen == old(isOpen)
      ensures old(isOpen) ==>
                clock.ms == old(clock.ms) + (if timeoutMs < REPEAT_MS then timeoutMs else REPEAT_MS)
                && carousel.View() == RunDue(old(carousel.View()), clock.ms)
      ensures r.Ok? ==> old(isOpen) && isOpen && present == old(present)
      ensures r.Ok? ==> Some(r.value) == if old(strays) == [] then latched else Some(old(strays)[0])
      ensures strays == if r.Ok? && old(strays) != [] then old(strays)[1..] else old(strays)
      ensures unplugAt.None? ==> present == old(present)
      ensures old(isOpen) && old(present) && unplugAt.None? ==> r.Ok? && isOpen && present
    {
      if !isOpen { return Lost; }
      clock.AdvanceMs(if timeoutMs < REPEAT_MS then timeoutMs else REPEAT_MS);
      carousel.RunDue();
      if unplugAt.Some? && unplugAt.value <= clock.ms {
        present := false;
        isOpen := false;
      }
      if !present { return Lost; }
      if strays == [] {
        r := Ok(latched.value);
      } else {
        r := Ok(strays[0]);
        strays := strays[1..];
      }
      delivered := delivered + [r.value];
    }

    /** A command on its way out; the reply, if any, is latched for the next read. */
    method Write(unit: Byte, msgid: Byte, cmd: Byte, args: Args) returns (r: Outcome<()>)
      requires Plumbed()
      modifies this`writes, this`msgid, this`latched, carousel
      ensures Plumbed()
      ensures r == if isOpen && present then Ok(()) else Lost
      ensures writes == if r.Ok? && unit == carousel.unit then old(writes) + [(cmd, args)] else old(writes)
      ensures r.Lost? ==> carousel.View() == old(carousel.View()) && latched == old(latched)
      ensures r.Ok? && unit == carousel.unit ==>
                var h := Handle(old(carousel.View()), clock.ms, cmd, args);
                && carousel.View() == h.u
                && latched == (if h.reply.Some? then Some(Packet(unit, msgid, cmd, h.reply.value)) else old(latched))
                && this.msgid == (if h.reply.Some? then msgid else old(this.msgid))
      ensures r.Ok? && unit != carousel.unit ==> carousel.View() == old(carousel.View()) && latched == old(latched)
    {
      hide Firmware.Handle, SerialReply;
      if !isOpen || !present { return Lost; }
      if unit != carousel.unit { return Ok(()); }
      SerialTold(carousel.View(), clock.ms, args);
      writes := writes + [(cmd, args)];
      var reply := carousel.Handle(cmd, args);
      if reply.Some? {
        this.msgid := msgid;
        latched := Some(Packet(unit, msgid, cmd, reply.value));
      }
      r := Ok(());
    }
  }
}
