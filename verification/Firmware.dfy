/**
 The carousel firmware as a discrete-event machine over values: a queue of
 timed happenings, a busy window, silently dropped commands and the handlers of
 every opcode. The class `Carousel` is proved to refine these functions.
 */
module Firmware {
  import opened Wrappers

  type Byte = b: int | 0 <= b < 256

  const CMD_REQUEST_STATE: Byte := 0x01
  const CMD_CLEAR_ERR_1: Byte := 0x03
  const CMD_SET_POS: Byte := 0x04
  const CMD_RETRACT: Byte := 0x05
  const CMD_SET_LED: Byte := 0x06
  const CMD_CLEAR_ERR_2: Byte := 0x14
  const CMD_VERSION_A: Byte := 0x1A
  const CMD_VERSION_B: Byte := 0x1B
  const CMD_GET_SERIAL: Byte := 0x1C
  const CMD_ACCEPT_DISC: Byte := 0x1D
  const CMD_NEW_UNIT: Byte := 0xCC

  const BUSY_IDLE: bv16 := 0x0080
  const BUSY_WORKING: bv16 := 0x8000
  const DISC_WAITING: bv16 := 0x1000
  const NEW_DISC_ACK: bv16 := 0x0800
  const DISC_IN_BAY: bv16 := 0x0400
  const ACK_TIMEOUT: bv16 := 0x0200
  const UNKNOWN: bv16 := 0x4000
  const RETRACTED: bv16 := 0x0100
  const HOMED: bv16 := 0x0001

  const REPEAT_MS := 143
  const SEEK_BASE_MS := 1_500
  const SEEK_PER_SLOT_MS := 56
  const BLIP_FOR_MS := 300
  const APERTURE_MS := 1_500
  const SETTLE_MS := 1_800
  const INGEST_MS := 1_800
  const PUSH_MS := 500
  const BAY_MS := 1_200
  const TAKE_MS := 900
  const RETRACT_MS := 3_600
  const RETRACT_BAY_MS := 1_800
  const ACK_WINDOW_MS := 10_000

  /** What a queued closure of the simulator does when its time comes. */
  datatype Happening =
    | Arrived(target: Byte, presenting: bool)
    | BackInSlot
    | Settled
    | DiscArrives
    | DrawnOff
    | AckExpired
    | Stored(slot: Byte)
    | Taken

  datatype Event = Event(when: int, seqno: nat, what: Happening)

  datatype Args = Args(x1: Byte, x2: Byte, x3: Byte, x4: Byte, x5: Byte)

  const NO_ARGS := Args(0, 0, 0, 0, 0)

  /** A processed command, with the two sensors as they stood when it was heard. */
  datatype Heard = Heard(cmd: Byte, args: Args, bay: bool, ack: bool)

  datatype Reason = MidMotion | Blip | PositionUnknown

  /** A command lost: which, to what, and how many had been processed by then. */
  datatype Dropped = Dropped(cmd: Byte, args: Args, why: Reason, heard: nat)

  datatype Payload = Payload(x1: bv8, x2: bv8, x3: bv8, x4: bv8)

  /**
   The mechanism and its sensors. `fed` and `handed` count the discs people put
   in and took away, so that discs can be accounted for.
   */
  datatype Machine = Machine(
    occupied: set<Byte>,
    position: Byte,
    homed: bool,
    discWaiting: bool,
    newDiscAck: bool,
    discInBay: bool,
    ackTimeout: bool,
    retracted: bool,
    unknownBit: bool,
    fed: nat,
    handed: nat)

  /**
   The wire side. `luck` holds the outcomes of the blip draws still to come, and
   none once it runs out: each finite pattern of lost commands is some value of it.
   */
  datatype Wire = Wire(
    serial: bv32,
    blips: bool,
    luck: seq<bool>,
    log: seq<Heard>,
    dropped: seq<Dropped>)

  /** Every field of the carousel. */
  datatype Unit = Unit(
    m: Machine,
    busyUntil: int,
    working: bool,
    events: seq<Event>,
    seqno: nat,
    w: Wire)

  /** A unit and the clock it runs on. */
  datatype Sim = Sim(u: Unit, now: int)

  // -- the queue -----------------------------------------------------------

  predicate Before(a: Event, b: Event) {
    a.when < b.when || (a.when == b.when && a.seqno < b.seqno)
  }

  /** Queue insertion: the heap order of (time, sequence number). */
  function Enqueue(q: seq<Event>, e: Event): (r: seq<Event>)
    ensures |r| == |q| + 1
  {
    if q == [] || Before(e, q[0]) then [e] + q else [q[0]] + Enqueue(q[1..], e)
  }

  function At(u: Unit, when: int, what: Happening): Unit {
    u.(seqno := u.seqno + 1, events := Enqueue(u.events, Event(when, u.seqno + 1, what)))
  }

  function DueCount(q: seq<Event>, now: int): nat {
    if q == [] then 0 else (if q[0].when <= now then 1 else 0) + DueCount(q[1..], now)
  }

  lemma DueCountOfEnqueue(q: seq<Event>, e: Event, now: int)
    ensures DueCount(Enqueue(q, e), now) == DueCount(q, now) + if e.when <= now then 1 else 0
  {
    if q == [] || Before(e, q[0]) {
      assert ([e] + q)[1..] == q;
    } else {
      DueCountOfEnqueue(q[1..], e, now);
      assert ([q[0]] + Enqueue(q[1..], e))[1..] == Enqueue(q[1..], e);
    }
  }

  // -- time ----------------------------------------------------------------

  function Max(a: int, b: int): int { if a < b then b else a }

  function WorkFor(u: Unit, now: int, ms: nat, working: bool): Unit {
    u.(busyUntil := Max(u.busyUntil, now + ms), working := working)
  }

  predicate Busy(u: Unit, now: int) { now < u.busyUntil }

  /** What a queued closure does to the mechanism. */
  function Altered(m: Machine, what: Happening): Machine {
    match what
    case Arrived(target, presenting) =>
      if presenting
      then m.(position := target, homed := true, occupied := m.occupied - {target}, discInBay := true)
      else m.(position := target, homed := true)
    case BackInSlot => if m.discInBay then m.(discInBay := false, occupied := m.occupied + {m.position}) else m
    case Settled => m.(retracted := true)
    case DiscArrives => m.(discWaiting := true, fed := m.fed + 1)
    case DrawnOff => m.(discWaiting := false, newDiscAck := true)
    case AckExpired => if m.newDiscAck then m.(newDiscAck := false, ackTimeout := true, discInBay := true) else m
    case Stored(slot) => m.(occupied := m.occupied + {slot})
    case Taken => m.(discInBay := false, ackTimeout := true, handed := m.handed + if m.discInBay then 1 else 0)
  }

  /** How long it keeps the unit busy. */
  function Labour(m: Machine, what: Happening): nat {
    match what
    case DiscArrives => APERTURE_MS
    case DrawnOff => SETTLE_MS
    case AckExpired => if m.newDiscAck then BAY_MS else 0
    case Taken => TAKE_MS
    case _ => 0
  }

  datatype Next = Nothing | Next(delay: int, what: Happening)

  /** What it schedules in turn. */
  function Follows(m: Machine, what: Happening): Next {
    match what
    case BackInSlot => if m.discInBay then Next(RETRACT_MS - RETRACT_BAY_MS, Settled) else Nothing
    case DiscArrives => Next(APERTURE_MS, DrawnOff)
    case DrawnOff => Next(SETTLE_MS + ACK_WINDOW_MS, AckExpired)
    case _ => Nothing
  }

  function Schedule(u: Unit, now: int, next: Next): Unit {
    if next.Nothing? then u else At(u, now + next.delay, next.what)
  }

  /** One queued closure running at `now`, which may be later than it was due. */
  function Fire(u: Unit, what: Happening, now: int): Unit {
    var ms := Labour(u.m, what);
    var v := u.(m := Altered(u.m, what));
    Schedule(if ms == 0 then v else WorkFor(v, now, ms, true), now, Follows(u.m, what))
  }

  /** Whatever fires schedules strictly later, so it leaves nothing more due. */
  lemma FireDue(u: Unit, what: Happening, now: int)
    ensures DueCount(Fire(u, what, now).events, now) == DueCount(u.events, now)
  {
    var next := Follows(u.m, what);
    if next.Next? {
      DueCountOfEnqueue(u.events, Event(now + next.delay, u.seqno + 1, next.what), now);
    }
  }

  /** Runs every closure that is due, earliest first. */
  function RunDue(u: Unit, now: int): Unit
    decreases DueCount(u.events, now)
  {
    if u.events != [] && u.events[0].when <= now
    then
      FireDue(u.(events := u.events[1..]), u.events[0].what, now);
      RunDue(Fire(u.(events := u.events[1..]), u.events[0].what, now), now)
    else u
  }

  // -- state ---------------------------------------------------------------

  function Flag(on: bool, bit: bv16): bv16 { if on then bit else 0 }

  function StatusWord(u: Unit, now: int): bv16 {
    Flag(Busy(u, now), if u.working then BUSY_IDLE | BUSY_WORKING else BUSY_IDLE)
    | Flag(u.m.discWaiting, DISC_WAITING)
    | Flag(u.m.newDiscAck, NEW_DISC_ACK)
    | Flag(u.m.discInBay, DISC_IN_BAY)
    | Flag(u.m.ackTimeout, ACK_TIMEOUT)
    | Flag(u.m.retracted, RETRACTED)
    | Flag(u.m.unknownBit, UNKNOWN)
    | Flag(u.m.homed, HOMED)
  }

  function StatusReply(u: Unit, now: int): Payload {
    var st := StatusWord(u, now);
    Payload(u.m.position as bv8, ((st >> 8) & 0xFF) as bv8, (st & 0xFF) as bv8, 0)
  }

  function SeekMs(position: Byte, target: Byte): nat {
    SEEK_BASE_MS + SEEK_PER_SLOT_MS * (if target < position then position - target else target - position)
  }

  // -- opcodes -------------------------------------------------------------

  predicate AlwaysAnswered(cmd: Byte) {
    cmd == CMD_REQUEST_STATE || cmd == CMD_VERSION_A || cmd == CMD_VERSION_B || cmd == CMD_GET_SERIAL
  }

  datatype Response = Response(u: Unit, reply: Option<Payload>)

  function SetPos(u: Unit, now: int, args: Args): Response {
    var presenting := args.x2 != 0 && args.x1 in u.m.occupied;
    var travel := SeekMs(u.m.position, args.x1) + if presenting then PUSH_MS else 0;
    var m := u.m.(ackTimeout := false, retracted := false);
    var v := WorkFor(u.(m := m), now, travel + if presenting then BAY_MS else 0, true);
    var w := At(v, now + travel, Arrived(args.x1, presenting));
    Response(w, Some(StatusReply(w, now)))
  }

  function Retract(u: Unit, now: int): Response {
    Response(At(WorkFor(u, now, RETRACT_MS, true), now + RETRACT_BAY_MS, BackInSlot), Some(Payload(0, 0, 0, 0)))
  }

  function AcceptDisc(u: Unit, now: int): Response {
    if !u.m.newDiscAck then Response(u, Some(StatusReply(u, now)))
    else
      var v := WorkFor(u.(m := u.m.(newDiscAck := false)), now, INGEST_MS, true);
      var w := At(v, now + INGEST_MS, Stored(v.m.position));
      Response(w, Some(StatusReply(w, now)))
  }

  function SerialReply(serial: bv32): Payload {
    Payload((serial >> 24) as bv8, ((serial >> 16) & 0xFF) as bv8, ((serial >> 8) & 0xFF) as bv8,
            (serial & 0xFF) as bv8)
  }

  /** The handler of an opcode the unit has decided to process. */
  function Perform(u: Unit, now: int, cmd: Byte, args: Args): Response {
    if cmd == CMD_CLEAR_ERR_1 then Response(u.(m := u.m.(ackTimeout := false)), Some(Payload(0, 0, 0, 0)))
    else if cmd == CMD_SET_POS then SetPos(u, now, args)
    else if cmd == CMD_RETRACT then Retract(u, now)
    else if cmd == CMD_CLEAR_ERR_2 then
      var v := u.(m := u.m.(ackTimeout := false));
      Response(v, Some(StatusReply(v, now)))
    else if cmd == CMD_VERSION_A then Response(u, Some(Payload(0x01, 0x04, 0x23, 0x17)))
    else if cmd == CMD_VERSION_B then Response(u, Some(Payload(0x00, 0x02, 0x00, 0x79)))
    else if cmd == CMD_GET_SERIAL then Response(u, Some(SerialReply(u.w.serial)))
    else if cmd == CMD_ACCEPT_DISC then AcceptDisc(u, now)
    else Response(u, Some(StatusReply(u, now)))
  }

  function Drop(u: Unit, cmd: Byte, args: Args, why: Reason): Response {
    Response(u.(w := u.w.(dropped := u.w.dropped + [Dropped(cmd, args, why, |u.w.log|)])), None)
  }

  function Draw(w: Wire): Wire { if w.luck == [] then w else w.(luck := w.luck[1..]) }

  function Log(m: Machine, w: Wire, cmd: Byte, args: Args): Wire {
    w.(log := w.log + [Heard(cmd, args, m.discInBay, m.newDiscAck)])
  }

  /** One command on a unit whose due events have run: dropped in silence, or heard and performed. */
  function Receive(u: Unit, now: int, cmd: Byte, args: Args): Response {
    if Busy(u, now) && !AlwaysAnswered(cmd) then Drop(u, cmd, args, MidMotion)
    else
      var draws := u.w.blips && !AlwaysAnswered(cmd);
      var v := if draws then u.(w := Draw(u.w)) else u;
      if draws && u.w.luck != [] && u.w.luck[0] then
        Drop(WorkFor(v, now, BLIP_FOR_MS, false), cmd, args, Blip)
      else if cmd == CMD_SET_POS && args.x1 != 0 && !u.m.homed then Drop(v, cmd, args, PositionUnknown)
      else Perform(v.(w := Log(v.m, v.w, cmd, args)), now, cmd, args)
  }

  function Handle(u: Unit, now: int, cmd: Byte, args: Args): Response {
    Receive(RunDue(u, now), now, cmd, args)
  }
}
