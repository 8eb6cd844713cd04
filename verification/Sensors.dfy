/**
 The unit's flags and its clockwork, one flag and one instant at a time: what
 raises each, what lowers it, how long each thing takes, and which bit of the
 status word shows it.
 */
module Sensors {
  import opened Wrappers
  import opened Firmware
  import opened FirmwareLaws
  import opened CommandLaws

  // -- what closures do ----------------------------------------------------

  /** An unacknowledged disc is put back out. */
  predicate SpitsOut(m: Machine, h: Happening) { h.AckExpired? && m.newDiscAck }

  predicate BringsOut(h: Happening) { h.Arrived? && h.presenting }

  /** The flags after a closure has run, each by what raises it and what lowers it. */
  lemma FireFlags(u: Unit, h: Happening, now: int)
    ensures var m, n := u.m, Fire(u, h, now).m;
            && (n.ackTimeout <==> m.ackTimeout || h.Taken? || SpitsOut(m, h))
            && (n.retracted <==> m.retracted || h.Settled?)
            && (n.homed <==> m.homed || h.Arrived?)
            && (n.discWaiting <==> h.DiscArrives? || (m.discWaiting && !h.DrawnOff?))
            && (n.newDiscAck <==> h.DrawnOff? || (m.newDiscAck && !h.AckExpired?))
            && (n.discInBay <==> BringsOut(h) || SpitsOut(m, h) || (m.discInBay && !h.Taken? && !h.BackInSlot?))
            && n.unknownBit == m.unknownBit
    ensures Fire(u, h, now).w == u.w
  {
    match h
    case Arrived(_, presenting) => case BackInSlot => case Settled => case DiscArrives => case DrawnOff =>
    case AckExpired => case Stored(_) => case Taken =>
  }

  /** The milliseconds a closure keeps the unit at work. */
  function Toil(m: Machine, h: Happening): nat {
    if h.DiscArrives? then 1_500
    else if h.DrawnOff? then 1_800
    else if h.Taken? then 900
    else if SpitsOut(m, h) then 1_200
    else 0
  }

  /**
   Only a disc coming in, going back out or being taken keeps the unit at work;
   nothing shortens what it has begun.
   */
  lemma FireToils(u: Unit, h: Happening, now: int)
    ensures var v, ms := Fire(u, h, now), Toil(u.m, h);
            && v.busyUntil == (if ms == 0 || now + ms < u.busyUntil then u.busyUntil else now + ms)
            && (v.working <==> u.working || ms > 0)
  {
    hide Enqueue;
    match h
    case Arrived(_, presenting) => case BackInSlot => case Settled => case DiscArrives => case DrawnOff =>
    case AckExpired => case Stored(_) => case Taken =>
  }

  /** The one event that was not pending before, if any. */
  ghost predicate Queues(u: Unit, v: Unit, next: Option<(int, Happening)>) {
    if next.None? then v.events == u.events && v.seqno == u.seqno
    else
      && v.seqno == u.seqno + 1
      && forall e :: e in v.events <==> e in u.events || e == Event(next.value.0, v.seqno, next.value.1)
  }

  /**
   What a closure leaves to come: the drawing off, the end of the ack window, or the
   end of a retract that moved a disc.
   */
  lemma FireLeads(u: Unit, h: Happening, now: int)
    ensures Queues(u, Fire(u, h, now),
                 if h.DiscArrives? then Some((now + 1_500, DrawnOff))
                 else if h.DrawnOff? then Some((now + 11_800, AckExpired))
                 else if h.BackInSlot? && u.m.discInBay then Some((now + 1_800, Settled))
                 else None)
  {
    hide Enqueue, Altered, Labour;
    var next := Follows(u.m, h);
    if next.Next? { EnqueueMembers(u.events, Event(now + next.delay, u.seqno + 1, next.what)); }
  }

  /**
   Over any stretch of time the error flag is raised by takes, and by discs that
   were never acknowledged, and lowered by nothing.
   */
  lemma {:induction false} LatchRises(u: Unit, now: int)
    ensures u.m.ackTimeout || (exists e :: e in Ran(u, now) && e.what.Taken?) ==> RunDue(u, now).m.ackTimeout
    ensures RunDue(u, now).m.ackTimeout ==>
              u.m.ackTimeout || exists e :: e in Ran(u, now) && (e.what.Taken? || e.what.AckExpired?)
    decreases DueCount(u.events, now)
  {
    hide Fire;
    if u.events != [] && u.events[0].when <= now {
      var v := Step(u, now);
      FireDue(Popped(u), u.events[0].what, now);
      FireFlags(Popped(u), u.events[0].what, now);
      LatchRises(v, now);
      RanFirst(u, now);
      assert u.events[0] in Ran(u, now);
    }
  }

  // -- what commands do ----------------------------------------------------

  /** The four requests a unit answers whatever it is doing. */
  predicate Inquires(cmd: Byte) { cmd == 0x01 || cmd == 0x1A || cmd == 0x1B || cmd == 0x1C }

  /** The unit's housekeeping begins just as the command arrives. */
  predicate Interrupts(u: Unit, now: int, cmd: Byte) {
    !Inquires(cmd) && u.busyUntil <= now && u.w.blips && u.w.luck != [] && u.w.luck[0]
  }

  /** A command is heard but in mid-motion, in an interruption, or for a move from nobody knows where. */
  predicate Hears(u: Unit, now: int, cmd: Byte, args: Args) {
    Inquires(cmd) ||
    (u.busyUntil <= now && !Interrupts(u, now, cmd) && (cmd == 0x04 && args.x1 != 0 ==> u.m.homed))
  }

  lemma HeardExactly(u: Unit, now: int, cmd: Byte, args: Args)
    ensures Receive(u, now, cmd, args).reply.Some? <==> Hears(u, now, cmd, args)
  {
    hide Perform, Log;
    PerformReplies(Listening(u, cmd, args), now, cmd, args);
  }

  /** What is heard goes into one log and what is lost, with the reason, into the other. */
  lemma LogsExactly(u: Unit, now: int, cmd: Byte, args: Args)
    ensures var w := Receive(u, now, cmd, args).u.w;
            if Hears(u, now, cmd, args) then
              w.log == u.w.log + [Heard(cmd, args, u.m.discInBay, u.m.newDiscAck)] && w.dropped == u.w.dropped
            else
              w.log == u.w.log && w.dropped == u.w.dropped + [Loss(u, now, cmd, args)]
  {
    hide Perform, Loss;
    HeardExactly(u, now, cmd, args);
    if Hears(u, now, cmd, args) {
      ReceiveHeard(u, now, cmd, args);
      PerformWire(Listening(u, cmd, args), now, cmd, args);
    } else {
      LostExactly(u, now, cmd, args);
    }
  }

  /** The entry a lost command leaves. */
  function Loss(u: Unit, now: int, cmd: Byte, args: Args): Dropped {
    Dropped(cmd, args,
            if now < u.busyUntil then MidMotion else if Interrupts(u, now, cmd) then Blip else PositionUnknown,
            |u.w.log|)
  }

  lemma LostExactly(u: Unit, now: int, cmd: Byte, args: Args)
    requires !Hears(u, now, cmd, args)
    ensures var w := Receive(u, now, cmd, args).u.w;
            w.log == u.w.log && w.dropped == u.w.dropped + [Loss(u, now, cmd, args)]
  {
    hide Perform, Log;
    var r := Receive(u, now, cmd, args);
    if now < u.busyUntil {
      assert r == Drop(u, cmd, args, MidMotion);
    } else if Interrupts(u, now, cmd) {
      assert r == Drop(WorkFor(u.(w := Draw(u.w)), now, BLIP_FOR_MS, false), cmd, args, Blip);
    } else {
      assert r == Drop(if u.w.blips then u.(w := Draw(u.w)) else u, cmd, args, PositionUnknown);
    }
  }

  /** A draw is used up by each command that could be lost to it, and nothing else of the wire is touched. */
  lemma DrawsExactly(u: Unit, now: int, cmd: Byte, args: Args)
    ensures var w := Receive(u, now, cmd, args).u.w;
            && w.luck == (if !Inquires(cmd) && u.busyUntil <= now && u.w.blips && u.w.luck != [] then u.w.luck[1..]
                          else u.w.luck)
            && w.serial == u.w.serial && w.blips == u.w.blips
  {
    hide Perform;
    HeardExactly(u, now, cmd, args);
    if Hears(u, now, cmd, args) {
      ReceiveHeard(u, now, cmd, args);
      PerformWire(Listening(u, cmd, args), now, cmd, args);
    }
  }

  lemma PerformWire(u: Unit, now: int, cmd: Byte, args: Args)
    ensures Perform(u, now, cmd, args).u.w == u.w
  {
    hide StatusReply, SerialReply, Enqueue, SeekMs;
  }

  /** The flags after a command, heard or not: three of them are lowered by some, and none is raised by any. */
  lemma ReceiveFlags(u: Unit, now: int, cmd: Byte, args: Args)
    ensures var m, n, heard := u.m, Receive(u, now, cmd, args).u.m, Hears(u, now, cmd, args);
            && n == m.(ackTimeout := n.ackTimeout, retracted := n.retracted, newDiscAck := n.newDiscAck)
            && (n.ackTimeout <==> m.ackTimeout && !(heard && (cmd == 0x03 || cmd == 0x04 || cmd == 0x14)))
            && (n.retracted <==> m.retracted && !(heard && cmd == 0x04))
            && (n.newDiscAck <==> m.newDiscAck && !(heard && cmd == 0x1D))
  {
    hide Perform, Log;
    HeardExactly(u, now, cmd, args);
    if Hears(u, now, cmd, args) { PerformFlags(Listening(u, cmd, args), now, cmd, args); }
  }

  lemma PerformFlags(u: Unit, now: int, cmd: Byte, args: Args)
    ensures var m, n := u.m, Perform(u, now, cmd, args).u.m;
            n == m.(ackTimeout := m.ackTimeout && cmd != 0x03 && cmd != 0x04 && cmd != 0x14,
                    retracted := m.retracted && cmd != 0x04,
                    newDiscAck := m.newDiscAck && cmd != 0x1D)
  {
    hide StatusReply, SerialReply, SetPos, Retract, AcceptDisc;
    SetPosFlags(u, now, args);
    PutInFlags(u, now);
  }

  lemma SetPosFlags(u: Unit, now: int, args: Args)
    ensures SetPos(u, now, args).u.m == u.m.(ackTimeout := false, retracted := false)
  {
    hide StatusReply, Enqueue, SeekMs;
  }

  lemma PutInFlags(u: Unit, now: int)
    ensures Retract(u, now).u.m == u.m && AcceptDisc(u, now).u.m == u.m.(newDiscAck := false)
  {
    hide StatusReply, Enqueue;
  }

  /**
   A move takes a second and a half and 56 ms for each slot on the way, up or
   down; presenting a disc takes half a second more before it is out, and the unit
   1.2 s more after that.
   */
  lemma MoveTravels(u: Unit, now: int, args: Args, d: nat)
    requires args.x1 == u.m.position + d || u.m.position == args.x1 + d
    requires Hears(u, now, CMD_SET_POS, args)
    ensures var v := Receive(u, now, CMD_SET_POS, args).u;
            var presenting := args.x2 != 0 && args.x1 in u.m.occupied;
            var there := now + 1_500 + 56 * d + if presenting then 500 else 0;
            && Queues(u, v, Some((there, Arrived(args.x1, presenting))))
            && v.busyUntil == there + (if presenting then 1_200 else 0) && v.working
  {
    hide StatusReply, Enqueue, Perform;
    HeardExactly(u, now, CMD_SET_POS, args);
    var l := Listening(u, CMD_SET_POS, args);
    SetPosAt(l, now, args, d);
  }

  lemma SetPosAt(u: Unit, now: int, args: Args, d: nat)
    requires (args.x1 == u.m.position + d || u.m.position == args.x1 + d) && u.busyUntil <= now
    ensures var v := Perform(u, now, CMD_SET_POS, args).u;
            var presenting := args.x2 != 0 && args.x1 in u.m.occupied;
            var there := now + 1_500 + 56 * d + if presenting then 500 else 0;
            && Queues(u, v, Some((there, Arrived(args.x1, presenting))))
            && v.busyUntil == there + (if presenting then 1_200 else 0) && v.working
  {
    hide StatusReply, Enqueue;
    var presenting := args.x2 != 0 && args.x1 in u.m.occupied;
    var there := now + 1_500 + 56 * d + if presenting then 500 else 0;
    EnqueueMembers(u.events, Event(there, u.seqno + 1, Arrived(args.x1, presenting)));
  }

  /** A retract has the disc back behind the mouth half way through its 3.6 s. */
  lemma RetractTakes(u: Unit, now: int, args: Args)
    requires Hears(u, now, CMD_RETRACT, args)
    ensures var v := Receive(u, now, CMD_RETRACT, args).u;
            Queues(u, v, Some((now + 1_800, BackInSlot))) && v.busyUntil == now + 3_600 && v.working
  {
    hide Enqueue;
    HeardExactly(u, now, CMD_RETRACT, args);
    EnqueueMembers(u.events, Event(now + 1_800, u.seqno + 1, BackInSlot));
  }

  /** An accept has the disc in its slot 1.8 s later, if there is one to accept. */
  lemma AcceptTakes(u: Unit, now: int, args: Args)
    requires Hears(u, now, CMD_ACCEPT_DISC, args)
    ensures var v := Receive(u, now, CMD_ACCEPT_DISC, args).u;
            && Queues(u, v, if u.m.newDiscAck then Some((now + 1_800, Stored(u.m.position))) else None)
            && v.busyUntil == (if u.m.newDiscAck then now + 1_800 else u.busyUntil)
            && (v.working <==> u.working || u.m.newDiscAck)
  {
    hide Enqueue, StatusReply;
    HeardExactly(u, now, CMD_ACCEPT_DISC, args);
    EnqueueMembers(u.events, Event(now + 1_800, u.seqno + 1, Stored(u.m.position)));
  }

  /** Every other command takes no time at all. */
  lemma OthersTakeNone(u: Unit, now: int, cmd: Byte, args: Args)
    requires Hears(u, now, cmd, args) && !Actuates(cmd)
    ensures var v := Receive(u, now, cmd, args).u;
            Queues(u, v, None) && v.busyUntil == u.busyUntil && v.working == u.working
  {
    hide StatusReply, SerialReply;
    HeardExactly(u, now, cmd, args);
  }

  /**
   One that is lost takes none either, unless it is lost to an interruption; and that
   takes 300 ms of doing no work.
   */
  lemma LostTakes(u: Unit, now: int, cmd: Byte, args: Args)
    requires !Hears(u, now, cmd, args)
    ensures var v := Receive(u, now, cmd, args).u;
            && Queues(u, v, None)
            && (if Interrupts(u, now, cmd) then v.busyUntil == now + 300 && !v.working
                else v.busyUntil == u.busyUntil && v.working == u.working)
  {
    hide Perform, Log;
  }

  /** So whatever else is sent in those 300 ms is lost as well. */
  lemma InterruptedIsDeaf(u: Unit, now: int, cmd: Byte, args: Args, later: int, next: Byte, its: Args)
    requires Good(u) && Interrupts(u, now, cmd) && now <= later < now + 300 && !Inquires(next)
    ensures Handle(Receive(u, now, cmd, args).u, later, next, its).reply.None?
  {
    hide Good, Receive, RunDue, Ages, Fresh;
    HeardExactly(u, now, cmd, args);
    LostTakes(u, now, cmd, args);
    PassiveAges(u, now, cmd, args);
    var v := Receive(u, now, cmd, args).u;
    InterruptedGood(u, v);
    RunDueAges(v, later);
    InterruptedBusy(v, RunDue(v, later));
    HeardExactly(RunDue(v, later), later, next, its);
  }

  lemma InterruptedGood(u: Unit, v: Unit)
    requires Ages(u, v)
    ensures Good(v)
  {
  }

  lemma InterruptedBusy(u: Unit, v: Unit)
    requires Ages(u, v)
    ensures u.busyUntil <= v.busyUntil
  {
  }

  // -- what the status word shows ------------------------------------------

  /** Every bit of the word, the undecoded ones included. */
  lemma WordSpells(u: Unit, now: int)
    ensures var word, m := StatusWord(u, now), u.m;
            && (word & 0x0080 != 0 <==> now < u.busyUntil)
            && (word & 0x8000 != 0 <==> now < u.busyUntil && u.working)
            && (word & 0x1000 != 0 <==> m.discWaiting)
            && (word & 0x0800 != 0 <==> m.newDiscAck)
            && (word & 0x0400 != 0 <==> m.discInBay)
            && (word & 0x0200 != 0 <==> m.ackTimeout)
            && (word & 0x0100 != 0 <==> m.retracted)
            && (word & 0x4000 != 0 <==> m.unknownBit)
            && (word & 0x0001 != 0 <==> m.homed)
            && word & 0x207E == 0
  {
    BitsSpell(Busy(u, now), u.working, u.m);
  }

  lemma BitsSpell(busy: bool, working: bool, m: Machine)
    ensures var word := Flag(busy, if working then BUSY_IDLE | BUSY_WORKING else BUSY_IDLE)
                        | Flag(m.discWaiting, DISC_WAITING) | Flag(m.newDiscAck, NEW_DISC_ACK)
                        | Flag(m.discInBay, DISC_IN_BAY) | Flag(m.ackTimeout, ACK_TIMEOUT)
                        | Flag(m.retracted, RETRACTED) | Flag(m.unknownBit, UNKNOWN) | Flag(m.homed, HOMED);
            && (word & 0x0080 != 0 <==> busy) && (word & 0x8000 != 0 <==> busy && working)
            && (word & 0x1000 != 0 <==> m.discWaiting) && (word & 0x0800 != 0 <==> m.newDiscAck)
            && (word & 0x0400 != 0 <==> m.discInBay) && (word & 0x0200 != 0 <==> m.ackTimeout)
            && (word & 0x0100 != 0 <==> m.retracted) && (word & 0x4000 != 0 <==> m.unknownBit)
            && (word & 0x0001 != 0 <==> m.homed) && word & 0x207E == 0
  {
  }

  /** Where each bit travels: the position first, then the high half of the word and the low one. */
  lemma ReplySpells(u: Unit, now: int)
    ensures var r, m := StatusReply(u, now), u.m;
            && r.x1 == m.position as bv8 && r.x4 == 0
            && (r.x2 & 0x80 != 0 <==> now < u.busyUntil && u.working) && (r.x2 & 0x40 != 0 <==> m.unknownBit)
            && (r.x2 & 0x10 != 0 <==> m.discWaiting) && (r.x2 & 0x08 != 0 <==> m.newDiscAck)
            && (r.x2 & 0x04 != 0 <==> m.discInBay) && (r.x2 & 0x02 != 0 <==> m.ackTimeout)
            && (r.x2 & 0x01 != 0 <==> m.retracted)
            && (r.x3 & 0x80 != 0 <==> now < u.busyUntil) && (r.x3 & 0x01 != 0 <==> m.homed)
  {
    hide StatusWord;
    WordSpells(u, now);
    HalvesSpell(StatusWord(u, now));
  }

  lemma HalvesSpell(w: bv16)
    ensures var h, l := ((w >> 8) & 0xFF) as bv8, (w & 0xFF) as bv8;
            && (h & 0x80 != 0 <==> w & 0x8000 != 0) && (h & 0x40 != 0 <==> w & 0x4000 != 0)
            && (h & 0x10 != 0 <==> w & 0x1000 != 0) && (h & 0x08 != 0 <==> w & 0x0800 != 0)
            && (h & 0x04 != 0 <==> w & 0x0400 != 0) && (h & 0x02 != 0 <==> w & 0x0200 != 0)
            && (h & 0x01 != 0 <==> w & 0x0100 != 0)
            && (l & 0x80 != 0 <==> w & 0x0080 != 0) && (l & 0x01 != 0 <==> w & 0x0001 != 0)
  {
  }

  /**
   What the unit answers to each command it hears: its serial, high byte first, its two
   versions, nothing at all to `0x03` and `0x05`, and to any other its status once the
   command has taken effect.
   */
  lemma RepliesExactly(u: Unit, now: int, cmd: Byte, args: Args)
    requires Hears(u, now, cmd, args)
    ensures var r := Receive(u, now, cmd, args);
            r.reply == Some(
              if cmd == 0x1C then Payload((u.w.serial >> 24) as bv8, ((u.w.serial >> 16) & 0xFF) as bv8,
                                          ((u.w.serial >> 8) & 0xFF) as bv8, (u.w.serial & 0xFF) as bv8)
              else if cmd == 0x1A then Payload(0x01, 0x04, 0x23, 0x17)
              else if cmd == 0x1B then Payload(0x00, 0x02, 0x00, 0x79)
              else if cmd == 0x03 || cmd == 0x05 then Payload(0, 0, 0, 0)
              else StatusReply(r.u, now))
  {
    hide StatusReply, Receive, Perform, Listening, Hears;
    HeardExactly(u, now, cmd, args);
    ReceiveHeard(u, now, cmd, args);
    PerformAnswers(Listening(u, cmd, args), now, cmd, args);
    SerialKept(u, cmd, args);
  }

  lemma PerformAnswers(u: Unit, now: int, cmd: Byte, args: Args)
    ensures var r := Perform(u, now, cmd, args);
            r.reply == Some(
              if cmd == 0x1C then Payload((u.w.serial >> 24) as bv8, ((u.w.serial >> 16) & 0xFF) as bv8,
                                          ((u.w.serial >> 8) & 0xFF) as bv8, (u.w.serial & 0xFF) as bv8)
              else if cmd == 0x1A then Payload(0x01, 0x04, 0x23, 0x17)
              else if cmd == 0x1B then Payload(0x00, 0x02, 0x00, 0x79)
              else if cmd == 0x03 || cmd == 0x05 then Payload(0, 0, 0, 0)
              else StatusReply(r.u, now))
  {
    hide StatusReply, Enqueue, SeekMs;
  }

  lemma SerialKept(u: Unit, cmd: Byte, args: Args)
    ensures Listening(u, cmd, args).w.serial == u.w.serial
  {
  }
}
