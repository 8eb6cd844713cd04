/**
 What holds of the firmware in every reachable state: the queue is ordered, a
 busy window covers every pending motion, at most one disc is on its way, and
 discs are conserved by every closure and every command.
 */
module FirmwareLaws {
  import opened Firmware

  // -- the queue -----------------------------------------------------------

  ghost predicate Sorted(q: seq<Event>) {
    q != [] ==> (forall e | e in q[1..] :: Before(q[0], e)) && Sorted(q[1..])
  }

  lemma {:induction false} EnqueueMembers(q: seq<Event>, e: Event)
    ensures forall x :: x in Enqueue(q, e) <==> x == e || x in q
  {
    if q == [] || Before(e, q[0]) {
    } else {
      EnqueueMembers(q[1..], e);
      assert q == [q[0]] + q[1..];
    }
  }

  lemma {:induction false} EnqueueSorted(q: seq<Event>, e: Event)
    requires Sorted(q) && forall x | x in q :: x.seqno < e.seqno
    ensures Sorted(Enqueue(q, e))
  {
    if q == [] || Before(e, q[0]) {
      assert ([e] + q)[1..] == q;
      forall x | x in q ensures Before(e, x) {
        assert q == [q[0]] + q[1..];
      }
    } else {
      EnqueueSorted(q[1..], e);
      EnqueueMembers(q[1..], e);
      assert ([q[0]] + Enqueue(q[1..], e))[1..] == Enqueue(q[1..], e);
    }
  }

  // -- counting what is pending --------------------------------------------

  /** How many of each kind are pending; `settled` is cosmetic and not counted. */
  datatype Census = Census(
    moves: nat, presents: nat, backs: nat, arrives: nat, drawn: nat, expiries: nat, stores: nat, takes: nat)

  function One(h: Happening): Census {
    match h
    case Arrived(_, presenting) => if presenting then Census(0, 1, 0, 0, 0, 0, 0, 0) else Census(1, 0, 0, 0, 0, 0, 0, 0)
    case BackInSlot => Census(0, 0, 1, 0, 0, 0, 0, 0)
    case Settled => Census(0, 0, 0, 0, 0, 0, 0, 0)
    case DiscArrives => Census(0, 0, 0, 1, 0, 0, 0, 0)
    case DrawnOff => Census(0, 0, 0, 0, 1, 0, 0, 0)
    case AckExpired => Census(0, 0, 0, 0, 0, 1, 0, 0)
    case Stored(_) => Census(0, 0, 0, 0, 0, 0, 1, 0)
    case Taken => Census(0, 0, 0, 0, 0, 0, 0, 1)
  }

  function Plus(a: Census, b: Census): Census {
    Census(a.moves + b.moves, a.presents + b.presents, a.backs + b.backs, a.arrives + b.arrives,
           a.drawn + b.drawn, a.expiries + b.expiries, a.stores + b.stores, a.takes + b.takes)
  }

  function Tally(q: seq<Event>): Census {
    if q == [] then Census(0, 0, 0, 0, 0, 0, 0, 0) else Plus(One(q[0].what), Tally(q[1..]))
  }

  lemma {:induction false} EnqueueTally(q: seq<Event>, e: Event)
    ensures Tally(Enqueue(q, e)) == Plus(One(e.what), Tally(q))
  {
    if q == [] || Before(e, q[0]) {
      assert ([e] + q)[1..] == q;
    } else {
      EnqueueTally(q[1..], e);
      assert ([q[0]] + Enqueue(q[1..], e))[1..] == Enqueue(q[1..], e);
    }
  }

  /** Whatever is pending is counted. */
  lemma {:induction false} TallyCounts(q: seq<Event>, e: Event)
    requires e in q
    ensures exists rest :: Tally(q) == Plus(One(e.what), rest)
  {
    if e == q[0] {
      assert Tally(q) == Plus(One(e.what), Tally(q[1..]));
    } else {
      assert q == [q[0]] + q[1..];
      TallyCounts(q[1..], e);
      var rest :| Tally(q[1..]) == Plus(One(e.what), rest);
      assert Tally(q) == Plus(One(e.what), Plus(One(q[0].what), rest));
    }
  }

  // -- the invariants ------------------------------------------------------

  function Count(b: bool): nat { if b then 1 else 0 }

  predicate Motion(h: Happening) { h.Arrived? || h.BackInSlot? || h.Stored? || h.DrawnOff? }

  ghost predicate Queued(u: Unit) {
    Sorted(u.events) && forall e | e in u.events :: e.seqno <= u.seqno
  }

  /** No motion outlasts the busy window, and a disc at the aperture is being drawn off it. */
  ghost predicate Covered(u: Unit) {
    && (forall e | e in u.events :: Motion(e.what) ==> e.when <= u.busyUntil)
    && (u.m.discWaiting ==> exists e :: e in u.events && e.what == DrawnOff)
  }

  /** Discs between a hand and a slot: coming in, going out, or in the bay. */
  function LoadOf(m: Machine, c: Census): nat {
    Count(m.discInBay) + Count(m.newDiscAck) + c.arrives + c.drawn + c.stores + c.presents
  }

  function Load(u: Unit): nat { LoadOf(u.m, Tally(u.events)) }

  function Moving(c: Census): nat { c.moves + c.presents + c.stores + c.backs }

  predicate MouthTaken(m: Machine, c: Census) { m.discInBay || m.newDiscAck || c.arrives > 0 || c.drawn > 0 }

  /**
   At most one disc is on its way and at most one motion is pending, and while a
   disc is at the mouth, or about to be, nothing turns the carousel.
   */
  predicate Tidy(m: Machine, c: Census) {
    && LoadOf(m, c) <= 1
    && Moving(c) <= 1
    && (MouthTaken(m, c) ==> c.moves + c.presents == 0)
  }

  ghost predicate Orderly(u: Unit) { Tidy(u.m, Tally(u.events)) }

  /** The unit never processed a move with a disc in its bay. */
  ghost predicate NeverTurnedLoaded(log: seq<Heard>) {
    forall h | h in log :: h.cmd == CMD_SET_POS ==> !h.bay
  }

  ghost predicate Good(u: Unit) {
    Queued(u) && Covered(u) && Orderly(u) && NeverTurnedLoaded(u.w.log)
  }

  lemma GoodQueue(u: Unit)
    requires Good(u)
    ensures Queued(u) && Sorted(u.events)
  {
  }

  predicate SlotAgrees(m: Machine, h: Happening) {
    match h
    case Arrived(target, true) => target in m.occupied
    case Stored(slot) => slot !in m.occupied
    case _ => true
  }

  /** A disc at the mouth has a free slot behind it. */
  predicate Roomy(m: Machine, c: Census) { MouthTaken(m, c) ==> m.position !in m.occupied }

  /** Every disc on its way comes out of a slot that holds it and has a free slot to go into. */
  ghost predicate Fitting(u: Unit) {
    Roomy(u.m, Tally(u.events)) && forall e | e in u.events :: SlotAgrees(u.m, e.what)
  }

  /** Every disc: in a slot, on its way, in the bay, or in a hand. */
  function DiscsOf(m: Machine, c: Census): int {
    |m.occupied| + Count(m.discInBay) + Count(m.newDiscAck) + c.drawn + c.stores + m.handed - m.fed
  }

  function Discs(u: Unit): int { DiscsOf(u.m, Tally(u.events)) }

  /** No disc is lost, doubled or put where another one is. */
  ghost predicate Accounted(u: Unit, v: Unit) {
    Fitting(u) ==> Fitting(v) && Discs(v) == Discs(u)
  }

  // -- one closure ---------------------------------------------------------

  function Popped(u: Unit): Unit
    requires u.events != []
  {
    u.(events := u.events[1..])
  }

  function Step(u: Unit, now: int): Unit
    requires u.events != []
  {
    Fire(Popped(u), u.events[0].what, now)
  }

  lemma AtLaws(u: Unit, when: int, what: Happening)
    requires Queued(u)
    ensures var v := At(u, when, what);
            && Queued(v)
            && Tally(v.events) == Plus(One(what), Tally(u.events))
            && forall e :: e in v.events <==> e in u.events || e == Event(when, u.seqno + 1, what)
  {
    hide Sorted, Tally, Enqueue, Plus, One;
    var e := Event(when, u.seqno + 1, what);
    EnqueueMembers(u.events, e);
    EnqueueTally(u.events, e);
    EnqueueSorted(u.events, e);
  }

  function OneMore(next: Next): Census {
    if next.Nothing? then Census(0, 0, 0, 0, 0, 0, 0, 0) else One(next.what)
  }

  /** The queue after one closure: its tail, and what the closure scheduled. */
  ghost predicate Requeued(q: seq<Event>, r: seq<Event>, next: Next, now: int)
    requires q != []
  {
    && Tally(q) == Plus(One(q[0].what), Tally(q[1..]))
    && Tally(r) == Plus(OneMore(next), Tally(q[1..]))
    && (forall e | e in r :: e in q[1..] || (next.Next? && e.when == now + next.delay && e.what == next.what))
    && (forall e | e in q[1..] :: e in q && e in r)
    && (next.Next? ==> exists e :: e in r && e.what == next.what)
  }

  /** `v` is `u` after its first closure ran at `now`. */
  ghost predicate Stepped(u: Unit, v: Unit, now: int)
    requires u.events != []
  {
    var h := u.events[0].what;
    && v.m == Altered(u.m, h)
    && v.w == u.w
    && v.busyUntil == (if Labour(u.m, h) == 0 then u.busyUntil else Max(u.busyUntil, now + Labour(u.m, h)))
    && Queued(v)
    && Requeued(u.events, v.events, Follows(u.m, h), now)
  }

  lemma ScheduleLaws(u: Unit, now: int, next: Next)
    requires Queued(u)
    ensures var v := Schedule(u, now, next);
            && v == u.(events := v.events, seqno := v.seqno)
            && Queued(v)
            && Tally(v.events) == Plus(OneMore(next), Tally(u.events))
            && (forall e | e in v.events ::
                  e in u.events || (next.Next? && e == Event(now + next.delay, e.seqno, next.what)))
            && (forall e | e in u.events :: e in v.events)
            && (next.Next? ==> Event(now + next.delay, u.seqno + 1, next.what) in v.events)
  {
    hide Tally, One, Enqueue;
    if next.Next? {
      AtLaws(u, now + next.delay, next.what);
    }
  }

  lemma StepStepped(u: Unit, now: int)
    requires Queued(u) && u.events != []
    ensures Stepped(u, Step(u, now), now)
  {
    hide Altered, Labour, Follows, Tally, One, OneMore, Plus, Schedule;
    var h := u.events[0].what;
    var v := Popped(u).(m := Altered(u.m, h));
    var w := if Labour(u.m, h) == 0 then v else WorkFor(v, now, Labour(u.m, h), true);
    assert u.events == [u.events[0]] + u.events[1..];
    TallyHead(u.events);
    ScheduleLaws(w, now, Follows(u.m, h));
  }

  lemma TallyHead(q: seq<Event>)
    requires q != []
    ensures Tally(q) == Plus(One(q[0].what), Tally(q[1..]))
  {
  }

  lemma AlteredTidy(m: Machine, h: Happening, c: Census)
    requires Tidy(m, Plus(One(h), c))
    ensures var n := Altered(m, h);
            var d := Plus(OneMore(Follows(m, h)), c);
            Tidy(n, d) && LoadOf(n, d) <= LoadOf(m, Plus(One(h), c))
  {
    match h
    case Arrived(_, presenting) =>
    case BackInSlot => case Settled => case DiscArrives => case DrawnOff =>
    case AckExpired => case Stored(_) => case Taken =>
  }

  /** How many discs a closure puts into slots. */
  function Slotted(m: Machine, h: Happening): int {
    match h
    case Arrived(_, presenting) => if presenting then -1 else 0
    case BackInSlot => Count(m.discInBay)
    case Stored(_) => 1
    case _ => 0
  }

  lemma AlteredSlotted(m: Machine, h: Happening)
    requires SlotAgrees(m, h) && (h.BackInSlot? && m.discInBay ==> m.position !in m.occupied)
    ensures |Altered(m, h).occupied| == |m.occupied| + Slotted(m, h)
  {
    match h
    case Arrived(target, presenting) => if presenting { RemoveOne(m.occupied, target); }
    case BackInSlot => if m.discInBay { AddOne(m.occupied, m.position); }
    case Stored(slot) => AddOne(m.occupied, slot);
    case _ =>
  }

  lemma AddOne(s: set<Byte>, x: Byte)
    requires x !in s
    ensures |s + {x}| == |s| + 1
  {
  }

  lemma RemoveOne(s: set<Byte>, x: Byte)
    requires x in s
    ensures |s - {x}| == |s| - 1
  {
  }

  /** A closure moves discs about, and changes how many there are only by a hand. */
  lemma AlteredConserves(m: Machine, h: Happening, c: Census)
    requires Tidy(m, Plus(One(h), c)) && Roomy(m, Plus(One(h), c)) && SlotAgrees(m, h)
    ensures DiscsOf(Altered(m, h), Plus(OneMore(Follows(m, h)), c)) == DiscsOf(m, Plus(One(h), c))
  {
    hide DiscsOf, Altered, Follows, OneMore, SlotAgrees;
    MouthRoom(m, h, c);
    OneAtMouth(m, h, c);
    AlteredSlotted(m, h);
    AlteredBalances(m, h, c);
  }

  lemma MouthRoom(m: Machine, h: Happening, c: Census)
    requires Roomy(m, Plus(One(h), c))
    ensures m.discInBay ==> m.position !in m.occupied
  {
  }

  /** A disc that comes to the bay or the mouth finds it empty. */
  predicate FindsRoom(m: Machine, h: Happening) {
    match h
    case Arrived(_, presenting) => presenting ==> !m.discInBay
    case DrawnOff => !m.newDiscAck
    case AckExpired => !m.discInBay || !m.newDiscAck
    case _ => true
  }

  lemma OneAtMouth(m: Machine, h: Happening, c: Census)
    requires Tidy(m, Plus(One(h), c))
    ensures FindsRoom(m, h)
  {
    match h
    case Arrived(_, presenting) => case _ =>
  }

  lemma AlteredBalances(m: Machine, h: Happening, c: Census)
    requires FindsRoom(m, h) && |Altered(m, h).occupied| == |m.occupied| + Slotted(m, h)
    ensures DiscsOf(Altered(m, h), Plus(OneMore(Follows(m, h)), c)) == DiscsOf(m, Plus(One(h), c))
  {
    match h
    case Arrived(_, presenting) =>
    case BackInSlot => case Settled => case DiscArrives => case DrawnOff =>
    case AckExpired => case Stored(_) => case Taken =>
  }

  lemma AlteredRoomy(m: Machine, h: Happening, c: Census)
    requires Tidy(m, Plus(One(h), c)) && Roomy(m, Plus(One(h), c)) && SlotAgrees(m, h)
    ensures Roomy(Altered(m, h), Plus(OneMore(Follows(m, h)), c))
  {
    match h
    case Arrived(_, presenting) =>
    case BackInSlot => case Settled => case DiscArrives => case DrawnOff =>
    case AckExpired => case Stored(_) => case Taken =>
  }

  /** A slot some other closure is about to fill or empty is left alone by this one. */
  lemma AlteredSlots(m: Machine, h: Happening, c: Census, k: Happening, rest: Census)
    requires Tidy(m, Plus(One(h), c)) && SlotAgrees(m, h) && SlotAgrees(m, k)
    requires c == Plus(One(k), rest)
    ensures SlotAgrees(Altered(m, h), k)
  {
  }

  lemma SteppedTidy(u: Unit, v: Unit, now: int)
    requires u.events != [] && Stepped(u, v, now) && Orderly(u)
    ensures Orderly(v) && Load(v) <= Load(u)
  {
    hide Tally, Altered, Follows, Tidy, Plus, One, Labour, LoadOf;
    AlteredTidy(u.m, u.events[0].what, Tally(u.events[1..]));
  }

  lemma FollowerSlots(m: Machine, n: Machine, h: Happening)
    requires Follows(m, h).Next?
    ensures SlotAgrees(n, Follows(m, h).what)
  {
    match h
    case BackInSlot => case DiscArrives => case DrawnOff => case _ =>
  }

  lemma SteppedSlots(u: Unit, v: Unit, now: int, e: Event)
    requires u.events != [] && Stepped(u, v, now) && Orderly(u) && Fitting(u) && e in v.events
    ensures SlotAgrees(v.m, e.what)
  {
    hide Tally, Altered, Follows, Tidy, Labour, One, OneMore, SlotAgrees, Roomy;
    var h := u.events[0].what;
    var c := Tally(u.events[1..]);
    if e in u.events[1..] {
      TallyCounts(u.events[1..], e);
      var rest :| c == Plus(One(e.what), rest);
      AlteredSlots(u.m, h, c, e.what, rest);
    } else {
      FollowerSlots(u.m, v.m, h);
    }
  }

  lemma SteppedFitting(u: Unit, v: Unit, now: int)
    requires u.events != [] && Stepped(u, v, now) && Orderly(u)
    ensures Accounted(u, v)
  {
    hide Tally, Altered, Follows, Tidy, Labour, One, OneMore, Plus, SlotAgrees, Roomy, DiscsOf;
    if Fitting(u) {
      assert u.events[0] in u.events;
      AlteredConserves(u.m, u.events[0].what, Tally(u.events[1..]));
      AlteredRoomy(u.m, u.events[0].what, Tally(u.events[1..]));
      forall e | e in v.events ensures SlotAgrees(v.m, e.what) { SteppedSlots(u, v, now, e); }
    }
  }

  lemma SteppedCovered(u: Unit, v: Unit, now: int)
    requires u.events != [] && u.events[0].when <= now && Stepped(u, v, now) && Covered(u)
    ensures Covered(v)
  {
    hide Tally, Altered, Labour;
    LabourCovers(u.m, u.events[0].what);
    if v.m.discWaiting && !u.events[0].what.DiscArrives? {
      var e :| e in u.events && e.what == DrawnOff;
      assert u.events == [u.events[0]] + u.events[1..];
      assert e in v.events;
    }
  }

  lemma LabourCovers(m: Machine, h: Happening)
    ensures var next := Follows(m, h);
            && (next.Next? && Motion(next.what) ==> next.delay <= Labour(m, h))
            && (Altered(m, h).discWaiting ==> h.DiscArrives? || (m.discWaiting && !h.DrawnOff?))
            && (h.DiscArrives? ==> next.what == DrawnOff)
  {
    match h
    case Arrived(_, presenting) => case DiscArrives => case DrawnOff => case _ =>
  }

  lemma SteppedGood(u: Unit, v: Unit, now: int)
    requires u.events != [] && u.events[0].when <= now && Good(u) && Stepped(u, v, now)
    ensures Good(v) && Accounted(u, v) && Load(v) <= Load(u)
  {
    hide Tally, Altered, Labour, Tidy, Covered, Accounted, LoadOf, NeverTurnedLoaded;
    SteppedCovered(u, v, now);
    SteppedTidy(u, v, now);
    SteppedFitting(u, v, now);
  }

  // -- what waiting cannot change ------------------------------------------

  /** No disc is coming in: none being fed, drawn off the aperture or awaiting its acknowledgement. */
  predicate Tame(u: Unit) {
    !u.m.newDiscAck && Tally(u.events).arrives == 0 && Tally(u.events).drawn == 0
  }

  predicate NoMotion(u: Unit) {
    Moving(Tally(u.events)) == 0
  }

  /** Nobody is about to take a disc. */
  predicate NoHands(u: Unit) { Reaching(u) == 0 }

  /** How many hands are yet to reach into the bay. */
  function Reaching(u: Unit): nat { Tally(u.events).takes }

  /** The unit is left to itself. */
  predicate Calm(u: Unit) { Tame(u) && NoHands(u) }

  /** When the last armed ack expiry falls due; 0 with none armed. */
  function LastExpiry(q: seq<Event>): int {
    if q == [] then 0
    else Max(if q[0].what.AckExpired? then q[0].when else 0, LastExpiry(q[1..]))
  }

  /** Where the carousel stands and where its discs are. */
  datatype Core = Core(occupied: set<Byte>, position: Byte, homed: bool, bay: bool)

  function CoreOf(m: Machine): Core { Core(m.occupied, m.position, m.homed, m.discInBay) }

  function Foreseen(c: Core, h: Happening): Core {
    match h
    case Arrived(target, false) => Core(c.occupied, target, true, c.bay)
    case Arrived(target, true) => Core(c.occupied - {target}, target, true, true)
    case BackInSlot => if c.bay then Core(c.occupied + {c.position}, c.position, c.homed, false) else c
    case Stored(slot) => Core(c.occupied + {slot}, c.position, c.homed, c.bay)
    case _ => c
  }

  function Foresee(c: Core, q: seq<Event>): Core
    decreases q
  {
    if q == [] then c else Foresee(Foreseen(c, q[0].what), q[1..])
  }

  /** The state a calm unit is heading for: its core once every pending motion has run. */
  function Outlook(u: Unit): Core { Foresee(CoreOf(u.m), u.events) }

  lemma {:induction false} EnqueueForesee(c: Core, q: seq<Event>, e: Event)
    requires !Motion(e.what)
    ensures Foresee(c, Enqueue(q, e)) == Foresee(c, q)
    decreases q
  {
    if q == [] || Before(e, q[0]) {
      assert ([e] + q)[1..] == q;
      assert Foreseen(c, e.what) == c;
    } else {
      EnqueueForesee(Foreseen(c, q[0].what), q[1..], e);
      assert ([q[0]] + Enqueue(q[1..], e))[1..] == Enqueue(q[1..], e);
    }
  }

  lemma {:induction false} EnqueueExpiry(q: seq<Event>, e: Event)
    ensures LastExpiry(Enqueue(q, e)) == Max(if e.what.AckExpired? then e.when else 0, LastExpiry(q))
  {
    if q == [] || Before(e, q[0]) {
      assert ([e] + q)[1..] == q;
    } else {
      EnqueueExpiry(q[1..], e);
      assert ([q[0]] + Enqueue(q[1..], e))[1..] == Enqueue(q[1..], e);
    }
    LastExpiryNonNegative(q);
  }

  lemma LastExpiryNonNegative(q: seq<Event>)
    ensures LastExpiry(q) >= 0
  {
  }

  lemma FollowsKinds(m: Machine, h: Happening)
    ensures var d := OneMore(Follows(m, h));
            Moving(d) == d.arrives == d.takes == 0 && (h.DiscArrives? || d.drawn == 0)
  {
    match h
    case BackInSlot => case DiscArrives => case DrawnOff => case _ =>
  }

  /** With no disc coming in and no hand about, a closure does just what was foreseen. */
  lemma AlteredForeseen(m: Machine, h: Happening)
    requires !m.newDiscAck && !h.DiscArrives? && !h.DrawnOff?
    ensures !Altered(m, h).newDiscAck
    ensures !h.Taken? ==>
              && Labour(m, h) == 0
              && Altered(m, h).ackTimeout == m.ackTimeout
              && CoreOf(Altered(m, h)) == Foreseen(CoreOf(m), h)
  {
    match h
    case Arrived(_, presenting) => case BackInSlot => case Settled => case Stored(_) => case Taken => case AckExpired =>
  }

  lemma HeadKind(u: Unit)
    requires u.events != []
    ensures Tame(u) ==> !u.events[0].what.DiscArrives? && !u.events[0].what.DrawnOff?
    ensures Calm(u) ==> !u.events[0].what.Taken?
  {
    TallyHead(u.events);
  }

  predicate SameBusy(u: Unit, v: Unit) {
    v.busyUntil == u.busyUntil && v.m.ackTimeout == u.m.ackTimeout
  }

  lemma SteppedTame(u: Unit, v: Unit, now: int)
    requires u.events != [] && Stepped(u, v, now) && Tame(u)
    ensures Tame(v)
  {
    hide Tally, Altered, Follows, Labour, OneMore, One;
    HeadKind(u);
    FollowsKinds(u.m, u.events[0].what);
    AlteredForeseen(u.m, u.events[0].what);
  }

  lemma SteppedCalm(u: Unit, v: Unit, now: int)
    requires u.events != [] && Stepped(u, v, now) && Calm(u)
    ensures Tally(v.events).takes == 0 && SameBusy(u, v)
  {
    hide Tally, Altered, Follows, Labour, OneMore, One;
    HeadKind(u);
    FollowsKinds(u.m, u.events[0].what);
    AlteredForeseen(u.m, u.events[0].what);
  }

  lemma SteppedMotion(u: Unit, v: Unit, now: int)
    requires u.events != [] && Stepped(u, v, now) && NoMotion(u)
    ensures NoMotion(v)
  {
    hide Tally, Altered, Follows, Labour, OneMore, One;
    FollowsKinds(u.m, u.events[0].what);
  }

  lemma SteppedReaching(u: Unit, v: Unit, now: int)
    requires u.events != [] && Stepped(u, v, now)
    ensures Reaching(v) <= Reaching(u)
  {
    hide Tally, Altered, Follows, Labour, OneMore, One;
    FollowsKinds(u.m, u.events[0].what);
  }

  lemma StepOutlook(u: Unit, now: int)
    requires u.events != [] && Calm(u)
    ensures Outlook(Step(u, now)) == Outlook(u)
  {
    hide Tally, Enqueue, Altered, Labour;
    HeadKind(u);
    var h := u.events[0].what;
    AlteredForeseen(u.m, h);
    var c := CoreOf(Altered(u.m, h));
    var next := Follows(u.m, h);
    assert Outlook(u) == Foresee(c, u.events[1..]);
    if next.Next? {
      EnqueueForesee(c, u.events[1..], Event(now + next.delay, u.seqno + 1, next.what));
    }
  }

  lemma StepExpiry(u: Unit, now: int)
    requires u.events != [] && Tame(u)
    ensures LastExpiry(Step(u, now).events) <= LastExpiry(u.events)
  {
    hide Tally, Enqueue, Altered, Labour;
    HeadKind(u);
    var next := Follows(u.m, u.events[0].what);
    LastExpiryNonNegative(u.events[1..]);
    if next.Next? {
      EnqueueExpiry(u.events[1..], Event(now + next.delay, u.seqno + 1, next.what));
    }
  }

  // -- what hands cannot change --------------------------------------------

  /** A closure that will put a disc into the slot, if it has one to put. */
  predicate Fills(m: Machine, h: Happening, slot: Byte) {
    (h.Stored? && h.slot == slot) || (h.BackInSlot? && m.position == slot)
  }

  /** A slot with a disc in it, or about to have one put there. */
  ghost predicate Claimed(u: Unit, slot: Byte) {
    slot in u.m.occupied || exists e :: e in u.events && Fills(u.m, e.what, slot)
  }

  /** No slot is claimed that was not before, but for these. */
  ghost predicate Claims(u: Unit, v: Unit, more: set<int>) {
    forall slot | Claimed(v, slot) :: Claimed(u, slot) || slot in more
  }

  lemma ClaimsTransitive(u: Unit, v: Unit, w: Unit, more: set<int>, yet: set<int>)
    requires Claims(u, v, more) && Claims(v, w, yet)
    ensures Claims(u, w, more + yet)
  {
    hide Claimed;
  }

  /** Nothing is about to come out of a slot. */
  predicate Shut(u: Unit) { Tally(u.events).presents == 0 }

  /** A slot with a disc in it, or with one accepted for it. */
  ghost predicate Stowed(u: Unit, slot: Byte) {
    slot in u.m.occupied || exists e :: e in u.events && e.what == Stored(slot)
  }

  /** With nothing about to come out, whatever is stowed stays so. */
  ghost predicate Stows(u: Unit, v: Unit) {
    Shut(u) ==> Shut(v) && forall slot | Stowed(u, slot) :: Stowed(v, slot)
  }

  lemma StowedClaims(u: Unit, slot: Byte)
    requires Stowed(u, slot)
    ensures Claimed(u, slot)
  {
    if slot !in u.m.occupied {
      var e :| e in u.events && e.what == Stored(slot);
      assert Fills(u.m, e.what, slot);
    }
  }

  /** No slot is claimed that was not before, nor emptied unforeseen, and the carousel is bound for where it was. */
  ghost predicate Onward(u: Unit, v: Unit) {
    Claims(u, v, {}) && Stows(u, v) && Outlook(v).position == Outlook(u).position
  }

  lemma OnwardReflexive(u: Unit)
    ensures Onward(u, u)
  {
  }

  lemma OnwardTransitive(u: Unit, v: Unit, w: Unit)
    requires Onward(u, v) && Onward(v, w)
    ensures Onward(u, w)
  {
    hide Claimed, Outlook, Shut, Stowed;
  }

  /** One motion at a time: nothing turns the carousel while a disc is on its way behind the mouth. */
  lemma TurnsAlone(m: Machine, h: Happening, c: Census, k: Happening, rest: Census)
    requires Tidy(m, Plus(One(h), c)) && c == Plus(One(k), rest) && k.BackInSlot?
    ensures !h.Arrived?
  {
  }

  lemma SteppedFills(u: Unit, v: Unit, now: int, e: Event, slot: Byte)
    requires u.events != [] && Stepped(u, v, now) && Orderly(u) && e in v.events && Fills(v.m, e.what, slot)
    ensures Claimed(u, slot)
  {
    hide Tally, Labour, One, Tidy, Plus, Altered;
    var h := u.events[0].what;
    AlteredPosition(u.m, h);
    NextFillsNothing(u.m, v.m, h, slot);
    assert e in u.events[1..];
    if e.what.BackInSlot? {
      var c := Tally(u.events[1..]);
      TallyCounts(u.events[1..], e);
      var rest :| c == Plus(One(e.what), rest);
      TurnsAlone(u.m, h, c, e.what, rest);
    }
    assert e in u.events && Fills(u.m, e.what, slot);
  }

  lemma AlteredPosition(m: Machine, h: Happening)
    ensures Altered(m, h).position == if h.Arrived? then h.target else m.position
    ensures forall slot | slot in Altered(m, h).occupied :: slot in m.occupied || Fills(m, h, slot)
  {
    match h
    case Arrived(_, presenting) =>
    case BackInSlot => case Settled => case DiscArrives => case DrawnOff =>
    case AckExpired => case Stored(_) => case Taken =>
  }

  lemma NextFillsNothing(m: Machine, n: Machine, h: Happening, slot: Byte)
    ensures Follows(m, h).Next? ==> !Fills(n, Follows(m, h).what, slot) && !Follows(m, h).what.Arrived?
  {
    match h
    case BackInSlot => case DiscArrives => case DrawnOff => case _ =>
  }

  lemma SteppedClaims(u: Unit, v: Unit, now: int, slot: Byte)
    requires u.events != [] && Stepped(u, v, now) && Orderly(u) && Claimed(v, slot)
    ensures Claimed(u, slot)
  {
    hide Tally, Labour, One, Tidy, Plus, Altered, Requeued, Fills;
    var h := u.events[0].what;
    AlteredPosition(u.m, h);
    if slot in v.m.occupied {
      assert u.events[0] in u.events;
    } else {
      var e :| e in v.events && Fills(v.m, e.what, slot);
      SteppedFills(u, v, now, e, slot);
    }
  }

  /** Where the carousel is bound depends on nothing but where it is and what will turn it. */
  lemma {:induction false} ForeseePosition(c: Core, d: Core, q: seq<Event>)
    requires c.position == d.position
    ensures Foresee(c, q).position == Foresee(d, q).position
    decreases q
  {
    if q != [] { ForeseePosition(Foreseen(c, q[0].what), Foreseen(d, q[0].what), q[1..]); }
  }

  lemma {:induction false} EnqueuePosition(c: Core, q: seq<Event>, e: Event)
    requires !e.what.Arrived?
    ensures Foresee(c, Enqueue(q, e)).position == Foresee(c, q).position
    decreases q
  {
    if q == [] || Before(e, q[0]) {
      assert ([e] + q)[1..] == q;
      ForeseePosition(Foreseen(c, e.what), c, q);
    } else {
      EnqueuePosition(Foreseen(c, q[0].what), q[1..], e);
      assert ([q[0]] + Enqueue(q[1..], e))[1..] == Enqueue(q[1..], e);
    }
  }

  lemma StepPosition(u: Unit, now: int)
    requires u.events != []
    ensures Outlook(Step(u, now)).position == Outlook(u).position
  {
    hide Enqueue, Altered, Labour, Follows;
    var h := u.events[0].what;
    var c := CoreOf(Altered(u.m, h));
    var next := Follows(u.m, h);
    AlteredPosition(u.m, h);
    NextFillsNothing(u.m, u.m, h, 0);
    ForeseePosition(c, Foreseen(CoreOf(u.m), h), u.events[1..]);
    if next.Next? { EnqueuePosition(c, u.events[1..], Event(now + next.delay, u.seqno + 1, next.what)); }
  }

  lemma SteppedStows(u: Unit, v: Unit, now: int)
    requires u.events != [] && Stepped(u, v, now)
    ensures Stows(u, v)
  {
    hide Tally, Labour, Follows, Altered, One, OneMore;
    var h := u.events[0].what;
    FollowsKinds(u.m, h);
    if Shut(u) {
      AlteredStows(u.m, h);
      forall slot | Stowed(u, slot) ensures Stowed(v, slot) {
        if slot !in u.m.occupied {
          var e :| e in u.events && e.what == Stored(slot);
          assert u.events == [u.events[0]] + u.events[1..];
        }
      }
    }
  }

  lemma AlteredStows(m: Machine, h: Happening)
    requires One(h).presents == 0
    ensures forall slot | slot in m.occupied || h == Stored(slot) :: slot in Altered(m, h).occupied
  {
    match h
    case Arrived(_, presenting) => case BackInSlot => case Stored(_) => case _ =>
  }

  lemma StepOnward(u: Unit, now: int)
    requires u.events != [] && Good(u)
    ensures Onward(u, Step(u, now))
  {
    hide Step, Stepped, Claimed, Outlook, Orderly, Shut, Stowed;
    var v := Step(u, now);
    GoodOrderly(u);
    StepStepped(u, now);
    SteppedStows(u, v, now);
    StepPosition(u, now);
    forall slot | Claimed(v, slot) ensures Claimed(u, slot) { SteppedClaims(u, v, now, slot); }
  }

  lemma GoodOrderly(u: Unit)
    requires Good(u)
    ensures Queued(u) && Orderly(u)
  {
  }

  // -- any stretch of time -------------------------------------------------

  /** The commands that set something in motion. */
  predicate Actuates(cmd: Byte) {
    cmd == CMD_SET_POS || cmd == CMD_RETRACT || cmd == CMD_ACCEPT_DISC
  }

  /** The log grew by commands that move nothing. */
  ghost predicate OnlyTalked(a: seq<Heard>, b: seq<Heard>) {
    |a| <= |b| && b[..|a|] == a && forall i | |a| <= i < |b| :: !Actuates(b[i].cmd)
  }

  /** What was lost stays lost, and what was heard was heard. */
  predicate Drops(a: Wire, b: Wire) { b.blips == a.blips && a.dropped <= b.dropped && a.log <= b.log }

  /** What a later unit `v` keeps of an earlier `u` when nothing that moves it was heard in between. */
  ghost predicate Ages(u: Unit, v: Unit) {
    && Good(v)
    && Accounted(u, v)
    && Onward(u, v)
    && Load(v) <= Load(u)
    && u.busyUntil <= v.busyUntil
    && OnlyTalked(u.w.log, v.w.log)
    && Drops(u.w, v.w)
    && (NoMotion(u) ==> NoMotion(v))
    && Reaching(v) <= Reaching(u)
    && (Tame(u) ==> Tame(v) && LastExpiry(v.events) <= LastExpiry(u.events))
    && (Calm(u) ==> Calm(v) && Outlook(v) == Outlook(u))
  }

  lemma AgesReflexive(u: Unit)
    requires Good(u)
    ensures Ages(u, u)
  {
    OnwardReflexive(u);
  }

  lemma AgesTransitive(u: Unit, v: Unit, w: Unit)
    requires Ages(u, v) && Ages(v, w)
    ensures Ages(u, w)
  {
    hide Good, NoMotion, Tame, Calm, Outlook, LastExpiry, Load, Fitting, Discs, Reaching, Onward;
    OnwardTransitive(u, v, w);
    assert u.w.log == v.w.log[..|u.w.log|] == w.w.log[..|v.w.log|][..|u.w.log|] == w.w.log[..|u.w.log|];
  }

  lemma StepGood(u: Unit, now: int)
    requires u.events != [] && u.events[0].when <= now && Good(u)
    ensures var v := Step(u, now);
            Good(v) && Accounted(u, v) && Load(v) <= Load(u) && v.w == u.w && u.busyUntil <= v.busyUntil
  {
    hide Tally, Altered, Step, Good, Load, Accounted;
    GoodQueue(u);
    StepStepped(u, now);
    SteppedGood(u, Step(u, now), now);
  }

  lemma StepKeepsTame(u: Unit, now: int)
    requires u.events != [] && Queued(u)
    ensures Tame(u) ==> Tame(Step(u, now)) && LastExpiry(Step(u, now).events) <= LastExpiry(u.events)
    ensures NoMotion(u) ==> NoMotion(Step(u, now))
    ensures Reaching(Step(u, now)) <= Reaching(u)
  {
    hide Step, Stepped, Tame, NoMotion, Reaching, LastExpiry;
    var v := Step(u, now);
    StepStepped(u, now);
    if Tame(u) { SteppedTame(u, v, now); StepExpiry(u, now); }
    if NoMotion(u) { SteppedMotion(u, v, now); }
    SteppedReaching(u, v, now);
  }

  lemma StepKeepsCalm(u: Unit, now: int)
    requires u.events != [] && Queued(u)
    ensures Calm(u) ==> Calm(Step(u, now)) && Outlook(Step(u, now)) == Outlook(u) && SameBusy(u, Step(u, now))
  {
    hide Step, Stepped, Tame, Outlook;
    StepStepped(u, now);
    if Calm(u) { SteppedTame(u, Step(u, now), now); SteppedCalm(u, Step(u, now), now); StepOutlook(u, now); }
  }

  lemma StepAges(u: Unit, now: int)
    requires u.events != [] && u.events[0].when <= now && Good(u)
    ensures Ages(u, Step(u, now)) && Step(u, now).w == u.w
    ensures Calm(u) ==> SameBusy(u, Step(u, now))
  {
    hide Step, Good, Outlook, LastExpiry, Load, Accounted, Tame, NoMotion, Calm, Reaching, Onward;
    GoodQueue(u);
    StepOnward(u, now);
    StepKeepsTame(u, now);
    StepKeepsCalm(u, now);
    StepGood(u, now);
  }

  /** The queue is left with the strict future only. */
  lemma {:induction false} AllFuture(q: seq<Event>, now: int)
    requires Sorted(q) && (q == [] || now < q[0].when)
    ensures forall e | e in q :: now < e.when
  {
    if q != [] {
      assert q == [q[0]] + q[1..];
    }
  }

  ghost predicate Fresh(u: Unit, now: int) { forall e | e in u.events :: now < e.when }

  /** Running what is due leaves the strict future, keeps every invariant, loses no disc and touches no wire. */
  lemma {:induction false} RunDueAges(u: Unit, now: int)
    requires Good(u)
    ensures Ages(u, RunDue(u, now)) && RunDue(u, now).w == u.w && Fresh(RunDue(u, now), now)
    ensures Calm(u) ==> SameBusy(u, RunDue(u, now))
    decreases DueCount(u.events, now)
  {
    hide Fire, Good, Outlook, Load, Accounted, NoMotion, Tame, LastExpiry, OnlyTalked, Reaching;
    GoodQueue(u);
    AgesReflexive(u);
    if u.events != [] && u.events[0].when <= now {
      var v := Step(u, now);
      StepAges(u, now);
      FireDue(Popped(u), u.events[0].what, now);
      RunDueAges(v, now);
      assert RunDue(u, now) == RunDue(v, now);
      AgesTransitive(u, v, RunDue(v, now));
    } else {
      AllFuture(u.events, now);
    }
  }

  // -- what runs -----------------------------------------------------------

  /** The closures that run, in the order they run in. */
  function Ran(u: Unit, now: int): seq<Event>
    decreases DueCount(u.events, now)
  {
    if u.events != [] && u.events[0].when <= now
    then
      FireDue(Popped(u), u.events[0].what, now);
      [u.events[0]] + Ran(Step(u, now), now)
    else []
  }

  lemma {:induction false} NoneDue(q: seq<Event>, now: int)
    requires Sorted(q) && (q == [] || now < q[0].when)
    ensures DueCount(q, now) == 0
  {
    if q != [] {
      if q[1..] != [] { assert q[1..][0] in q[1..]; }
      NoneDue(q[1..], now);
    }
  }

  lemma {:induction false} EnqueueDue(q: seq<Event>, e: Event, now: int)
    requires Sorted(q) && now < e.when
    ensures var k := DueCount(q, now); k <= |q| && Enqueue(q, e)[..k] == q[..k]
  {
    if q == [] || now < q[0].when {
      NoneDue(q, now);
    } else {
      EnqueueDue(q[1..], e, now);
      var k := DueCount(q[1..], now);
      assert DueCount(q, now) == k + 1;
      assert !Before(e, q[0]) && Enqueue(q, e) == [q[0]] + Enqueue(q[1..], e);
      assert q[..k + 1] == [q[0]] + q[1..][..k];
      assert Enqueue(q, e)[..k + 1] == [q[0]] + Enqueue(q[1..], e)[..k];
    }
  }

  /**
   One pass runs exactly what was due when it began, earliest first and in order
   of arrival: whatever those closures schedule is for later.
   */
  lemma {:induction false} RanIsWhatWasDue(u: Unit, now: int)
    requires Queued(u)
    ensures var k := DueCount(u.events, now); k <= |u.events| && Ran(u, now) == u.events[..k]
    decreases DueCount(u.events, now)
  {
    hide Step, Stepped, Ran;
    if u.events != [] && u.events[0].when <= now {
      var v := Step(u, now);
      StepCount(u, now);
      RanIsWhatWasDue(v, now);
      StepQueue(u, now);
      var k := DueCount(u.events[1..], now);
      assert DueCount(v.events, now) == k && DueCount(u.events, now) == k + 1;
      assert u.events[..k + 1] == [u.events[0]] + u.events[1..][..k];
      RanFirst(u, now);
    } else {
      NoneDue(u.events, now);
      RanNone(u, now);
    }
  }

  lemma StepCount(u: Unit, now: int)
    requires Queued(u) && u.events != []
    ensures DueCount(Step(u, now).events, now) == DueCount(u.events[1..], now) && Queued(Step(u, now))
  {
    hide Fire;
    FireDue(Popped(u), u.events[0].what, now);
    StepStepped(u, now);
  }

  lemma RanFirst(u: Unit, now: int)
    requires u.events != [] && u.events[0].when <= now
    ensures Ran(u, now) == [u.events[0]] + Ran(Step(u, now), now)
  {
    hide Fire;
  }

  lemma RanNone(u: Unit, now: int)
    requires u.events == [] || now < u.events[0].when
    ensures Ran(u, now) == []
  {
  }

  lemma StepQueue(u: Unit, now: int)
    requires Queued(u) && u.events != []
    ensures var k := DueCount(u.events[1..], now);
            k <= |u.events[1..]| && k <= |Step(u, now).events| && Step(u, now).events[..k] == u.events[1..][..k]
  {
    hide Altered, Labour, Enqueue, DueCount;
    var next := Follows(u.m, u.events[0].what);
    DueBound(u.events[1..], now);
    if next.Next? {
      FollowsLater(u.m, u.events[0].what);
      EnqueueDue(u.events[1..], Event(now + next.delay, u.seqno + 1, next.what), now);
    }
  }

  lemma FollowsLater(m: Machine, h: Happening)
    requires Follows(m, h).Next?
    ensures Follows(m, h).delay > 0
  {
  }

  lemma DueBound(q: seq<Event>, now: int)
    ensures DueCount(q, now) <= |q|
  {
  }

  /** What is due happens inside the unit; nothing crosses the wire. */
  lemma {:induction false} RunDueWire(u: Unit, now: int)
    ensures RunDue(u, now).w == u.w
    decreases DueCount(u.events, now)
  {
    hide Altered, Labour, Follows, Enqueue;
    if u.events != [] && u.events[0].when <= now {
      FireDue(Popped(u), u.events[0].what, now);
      RunDueWire(Step(u, now), now);
    }
  }

  /** Nothing is left to do the second time: everything due has run. */
  lemma {:induction false} RunDueTwice(u: Unit, now: int)
    ensures RunDue(RunDue(u, now), now) == RunDue(u, now)
    decreases DueCount(u.events, now)
  {
    hide Fire;
    if u.events != [] && u.events[0].when <= now {
      FireDue(Popped(u), u.events[0].what, now);
      RunDueTwice(Step(u, now), now);
    }
  }
}
