/**
 What a job does to the discs, step by step: for any hands about, that no disc is
 left coming in and no timer running; for hands that keep to the prompts, where
 every disc is.
 */
module FlowLaws {
  import opened Wrappers
  import opened Geometry
  import opened Firmware
  import opened FirmwareLaws
  import opened Runs
  import opened Motions
  import opened MoveLaws
  import opened LoadLaws
  import opened Courses

  /** What one unit is of an earlier: every disc accounted for, and nothing forgotten of what it lost. */
  ghost predicate Tracks(u: Unit, v: Unit) { Accounted(u, v) && Drops(u.w, v.w) }

  lemma TracksTransitive(u: Unit, v: Unit, w: Unit)
    requires Tracks(u, v) && Tracks(v, w)
    ensures Tracks(u, w)
  {
    hide Accounted;
    AccountedTransitive(u, v, w);
  }

  lemma AgesTracks(u: Unit, v: Unit)
    requires Ages(u, v)
    ensures Tracks(u, v) && Good(v)
  {
    hide Accounted, Good, Ages;
    AgesAccounted(u, v);
  }

  lemma MindedTracks(s: Sim, t: Sim)
    requires Minded(s, t)
    ensures Tracks(s.u, t.u) && Sound(t) && LastExpiry(t.u.events) <= LastExpiry(s.u.events)
  {
    hide Accounted, Good, Tame, Minded, LastExpiry;
    KeptAccounted(s, t);
  }

  lemma KeptGood(s: Sim, t: Sim)
    requires Kept(s, t)
    ensures Good(t.u)
  {
    hide Good, Accounted, Tame, Claims, LastExpiry;
  }

  lemma KeptTracks(s: Sim, t: Sim)
    requires Kept(s, t)
    ensures Tracks(s.u, t.u) && Sound(t) && LastExpiry(t.u.events) <= LastExpiry(s.u.events) && Claims(s.u, t.u, {})
  {
    hide Tracks, Sound, Minded, LastExpiry, Claims;
    MindedTracks(s, t);
  }

  /** Between jobs: no disc coming in, and no ack timer running. */
  ghost predicate Between(s: Sim) { Sound(s) && TimersBy(s.u, s.now) && 0 <= s.now }

  /** And nobody about to touch anything. */
  ghost predicate Still(s: Sim) { Between(s) && Prompt(s) }

  lemma MindedBetween(s: Sim, t: Sim)
    requires Between(s) && Minded(s, t) && s.now <= t.now
    ensures Between(t) && Tracks(s.u, t.u)
  {
    hide Good, Tame, LastExpiry, Accounted;
  }

  lemma KeptBetween(s: Sim, t: Sim)
    requires Between(s) && Kept(s, t) && s.now <= t.now
    ensures Between(t) && Tracks(s.u, t.u) && Claims(s.u, t.u, {})
  {
    hide Between, Minded, Tracks, Claims;
    MindedBetween(s, t);
  }

  /** With any hands about: no disc is lost, and no slot is claimed anew but these. */
  ghost predicate Secures(s: Sim, t: Sim, more: set<int>) {
    Between(s) ==> Between(t) && Tracks(s.u, t.u) && Claims(s.u, t.u, more)
  }

  lemma SecuresAfter(s: Sim, x: Sim, t: Sim, more: set<int>, yet: set<int>)
    requires Secures(s, x, more) && Secures(x, t, yet)
    ensures Secures(s, t, more + yet)
  {
    hide Between, Tracks, Claims;
    if Between(s) {
      TracksTransitive(s.u, x.u, t.u);
      ClaimsTransitive(s.u, x.u, t.u, more, yet);
    }
  }

  lemma SecuresStill(s: Sim, x: Sim, t: Sim, more: set<int>)
    requires Secures(s, x, more) && Secures(x, t, {})
    ensures Secures(s, t, more)
  {
    hide Secures;
    SecuresAfter(s, x, t, more, {});
    assert more + {} == more;
  }

  lemma KeptSecures(s: Sim, t: Sim)
    requires (Sound(s) ==> Kept(s, t)) && s.now <= t.now
    ensures Secures(s, t, {})
  {
    hide Sound, Kept, Tracks, Claims, TimersBy;
    if Between(s) { KeptBetween(s, t); }
  }

  lemma SelfSecures(s: Sim)
    ensures Secures(s, s, {})
  {
    hide Between, Tracks, Claimed;
    SelfTracks(s.u);
  }

  /** The slot's disc has left it. */
  ghost predicate Vacated(s: Sim, t: Sim, slot: int) {
    Between(s) && Fitting(s.u) ==> 0 <= slot < 256 && !Claimed(t.u, slot)
  }

  lemma VacatedStill(s: Sim, x: Sim, t: Sim, slot: int)
    requires Vacated(s, x, slot) && Secures(s, x, {slot}) && Secures(x, t, {})
    ensures Vacated(s, t, slot)
  {
    hide Between, Tracks, Fitting, Claimed;
  }

  /** And if the slot was free to begin with. */
  ghost predicate SecuresFree(s: Sim, t: Sim, slot: Byte, more: set<int>) {
    !Claimed(s.u, slot) ==> Secures(s, t, more)
  }

  /** The same, with a disc on its way in. */
  ghost predicate TracksFree(s: Sim, t: Sim, slot: Byte, more: set<int>) {
    Between(s) && !Claimed(s.u, slot) ==> Tracks(s.u, t.u) && Claims(s.u, t.u, more)
  }

  lemma TracksFreeAfter(s: Sim, x: Sim, t: Sim, slot: Byte, more: set<int>, yet: set<int>)
    requires TracksFree(s, x, slot, more) && (Between(s) ==> Tracks(x.u, t.u) && Claims(x.u, t.u, yet))
    ensures TracksFree(s, t, slot, more + yet)
  {
    hide Between, Tracks, Claims, Claimed;
    if Between(s) && !Claimed(s.u, slot) {
      TracksTransitive(s.u, x.u, t.u);
      ClaimsTransitive(s.u, x.u, t.u, more, yet);
    }
  }

  lemma TracksFreeSecures(s: Sim, t: Sim, slot: Byte, more: set<int>)
    requires TracksFree(s, t, slot, more) && (Between(s) ==> Between(t))
    ensures SecuresFree(s, t, slot, more)
  {
    hide Between, Tracks, Claims, Claimed;
  }

  /** A load that came to nothing: no disc is lost, and its slot is as free as it was. */
  ghost predicate Spurns(s: Sim, t: Sim, slot: int) { 0 <= slot < 256 ==> SecuresFree(s, t, slot, {}) }

  lemma SecuresFreeMore(s: Sim, t: Sim, slot: Byte)
    requires SecuresFree(s, t, slot, {})
    ensures SecuresFree(s, t, slot, {slot})
  {
    hide Between, Tracks, Claimed, Secures;
    if !Claimed(s.u, slot) { SecuresMore(s, t, slot); }
  }

  lemma SecuresFreeStill(s: Sim, x: Sim, t: Sim, slot: Byte, more: set<int>)
    requires SecuresFree(s, x, slot, more) && Secures(x, t, {})
    ensures SecuresFree(s, t, slot, more)
  {
    hide Between, Tracks, Claimed, Secures;
    if !Claimed(s.u, slot) { SecuresStill(s, x, t, more); }
  }

  lemma BetweenSound(s: Sim)
    requires Between(s)
    ensures Sound(s) && Good(s.u)
  {
    hide Good, Tame, LastExpiry;
  }

  /** No ack timer is in the queue. */
  ghost predicate Unarmed(u: Unit) { forall e | e in u.events :: !e.what.AckExpired? }

  /** Whatever timers there were have run out. */
  lemma {:induction false} NoneArmed(q: seq<Event>, now: int)
    requires LastExpiry(q) <= now && forall e | e in q :: now < e.when
    ensures forall e | e in q :: !e.what.AckExpired?
  {
    if q != [] {
      LastExpiryNonNegative(q[1..]);
      assert q == [q[0]] + q[1..];
      assert q[0] in q;
      NoneArmed(q[1..], now);
    }
  }

  // -- hands to come -------------------------------------------------------

  /** In a job begun at `s`: from `x` to `t` at most `n` more hands are set to reach in. */
  ghost predicate Brings(s: Sim, x: Sim, t: Sim, n: nat) { Between(s) ==> Reaching(t.u) <= Reaching(x.u) + n }

  /** How many reach in for a disc presented. */
  function HandsOf(take: Option<nat>): nat { if take.Some? then 1 else 0 }

  lemma BringsAfter(s: Sim, x: Sim, y: Sim, t: Sim, n: nat, k: nat)
    requires Brings(s, x, y, n) && Brings(s, y, t, k)
    ensures Brings(s, x, t, n + k)
  {
    hide Between, Reaching;
  }

  lemma BringsMore(s: Sim, x: Sim, t: Sim, n: nat, k: nat)
    requires Brings(s, x, t, n) && n <= k
    ensures Brings(s, x, t, k)
  {
    hide Between, Reaching;
  }

  lemma MindedBrings(s: Sim, x: Sim, t: Sim)
    requires (Between(s) ==> Sound(x)) && (Sound(x) ==> Minded(x, t))
    ensures Brings(s, x, t, 0)
  {
    hide Between, Reaching, Sound, Good, Tame, Accounted, LastExpiry;
  }

  lemma KeptBrings(s: Sim, x: Sim, t: Sim)
    requires (Between(s) ==> Sound(x)) && (Sound(x) ==> Kept(x, t))
    ensures Brings(s, x, t, 0)
  {
    hide Between, Sound, Brings, Minded, Claims;
    MindedBrings(s, x, t);
  }

  lemma MovesBrings(s: Sim, x: Sim, t: Sim, args: Args, r: Outcome<()>)
    requires (Between(s) ==> Sound(x)) && Moves(x, t, args, r)
    ensures Brings(s, x, t, 0)
  {
    hide Between, Sound, Brings, Kept, Rested, Prompt, MovesTo;
    KeptBrings(s, x, t);
  }

  lemma PresentsBrings(s: Sim, x: Sim, t: Sim, take: Option<nat>, gone: bool)
    requires (Between(s) ==> Sound(x)) && Presents(x, t, take, gone)
    ensures Brings(s, x, t, HandsOf(take))
  {
    hide Between, Good, Tame, Tracks, Onward, Reaching, Quiet, Prompt, Outlook;
  }

  lemma SecuresSound(s: Sim, x: Sim, more: set<int>)
    requires Secures(s, x, more)
    ensures Between(s) ==> Sound(x)
  {
    hide Between, Sound, Tracks, Claims;
    if Between(s) { BetweenSound(x); }
  }

  lemma AtReaching(u: Unit, when: int, what: Happening)
    ensures Reaching(At(u, when, what)) == Reaching(u) + if what.Taken? then 1 else 0
  {
    hide Enqueue, Tally;
    EnqueueTally(u.events, Event(when, u.seqno + 1, what));
    TakesOf(what, Tally(u.events));
  }

  /** The same discs in the slots; a disc in the bay stays there, behind the same slot. */
  predicate Same(c: Core, d: Core) {
    d.occupied == c.occupied && (c.bay ==> d.bay && d.position == c.position)
  }

  predicate InWindow(delay: Option<nat>, window: nat) { delay.Some? ==> delay.value <= window }

  // -- the prompts ---------------------------------------------------------

  /** What waiting for an insertion comes to. */
  ghost predicate Awaits(s: Sim, t: Sim, insert: Option<nat>, seen: bool) {
    && (Between(s) && Rested(s, false) && InWindow(insert, INSERT_WINDOW_MS) ==>
          && seen == insert.Some?
          && (seen ==> Fed(t, false))
          && (!seen ==> Between(t)))
    && (Between(s) && Quiet(s) && !Outlook(s.u).bay && InWindow(insert, INSERT_WINDOW_MS) ==>
          && (seen ==> Fed(t, true) && CoreOf(t.u.m) == Outlook(s.u))
          && (!seen ==> Quiet(t) && Outlook(t.u) == Outlook(s.u)))
    && (Rested(s, false) && s.u.m.position !in s.u.m.occupied ==> Tracks(s.u, t.u))
    && (Rested(s, false) ==> Onward(s.u, t.u) && Reaching(t.u) <= Reaching(s.u))
  }

  lemma AwaitNobody(s: Sim, t: Sim, seen: bool)
    requires Good(s.u) ==> Ages(s.u, t.u)
    requires Sound(s) ==> !seen
    requires Quiet(s) ==> Quiet(t) && Outlook(t.u) == Outlook(s.u)
    requires s.now <= t.now
    ensures Awaits(s, t, None, seen)
  {
    hide Good, Ages, Quiet, Outlook, Fed, Rested, Sound, TimersBy, Tracks, Onward, Claims, Reaching;
    if Rested(s, false) { RestedGood(s); AgesTracks(s.u, t.u); AgesOnward(s.u, t.u); AgesReaching(s.u, t.u); }
    if Between(s) {
      BetweenSound(s);
      BetweenTame(s);
      AgesKept(s, t);
      KeptBetween(s, t);
    }
  }

  lemma BetweenTame(s: Sim)
    requires Between(s)
    ensures Tame(s.u)
  {
    hide Good, Tame, LastExpiry;
  }

  lemma QuietRested(s: Sim)
    requires Quiet(s) && !Outlook(s.u).bay
    ensures Rested(s, false) && NoHands(s.u) && s.u.busyUntil <= s.now && CoreOf(s.u.m) == Outlook(s.u)
  {
    hide Good, Fresh, Outlook, NoMotion, Load, Tame;
    QuietParts(s);
    QuietGood(s);
  }

  /** A disc fed within the window is seen, whoever else is about. */
  lemma AwaitSomebody(s: Sim, i: Sim, t: Sim, delay: nat, seen: bool)
    requires i == Sim(At(s.u, s.now + delay, DiscArrives), s.now)
    requires Good(i.u) ==> Ages(i.u, t.u)
    requires forall c, e, lone | In(i, c, Awaited(e), lone) :: Notices(i, t, INSERT_WINDOW_MS, c, e, lone, seen)
    ensures Awaits(s, t, Some(delay), seen)
  {
    hide Good, Ages, Quiet, Outlook, Fed, Rested, Between, Tracks, In, LastLook, Onward, Reaching;
    if Rested(s, false) { FeedOnward(s, i, t, delay); }
    LooksPastDeadline(s.now);
    if Rested(s, false) && s.u.m.position !in s.u.m.occupied { FeedTracks(s, i, t, delay); }
    if Between(s) && Rested(s, false) && delay <= INSERT_WINDOW_MS { FeedScheduled(s, s.now + delay, false); }
    if Between(s) && Quiet(s) && !Outlook(s.u).bay && delay <= INSERT_WINDOW_MS {
      QuietRested(s);
      FeedScheduled(s, s.now + delay, true);
    }
  }

  lemma FeedScheduled(s: Sim, e: int, lone: bool)
    requires Between(s) && Rested(s, false) && s.now <= e && (lone ==> NoHands(s.u) && s.u.busyUntil <= s.now)
    ensures In(Sim(At(s.u, e, DiscArrives), s.now), CoreOf(s.u.m), Awaited(e), lone)
  {
    hide Good, Tame, LastExpiry, In, Fresh, NoMotion, Load, NoHands;
    InsertScheduled(s, e, lone);
  }

  lemma FeedTracks(s: Sim, i: Sim, t: Sim, delay: nat)
    requires Rested(s, false) && s.u.m.position !in s.u.m.occupied
             && i == Sim(At(s.u, s.now + delay, DiscArrives), s.now)
    requires Good(i.u) ==> Ages(i.u, t.u)
    ensures Tracks(s.u, t.u)
  {
    hide Ages, Good, Load, NoMotion, Fresh, Accounted;
    RestedGood(s);
    FeedGood(s.u, s.now + delay);
    GoodQueue(s.u);
    InsertAccounted(s.u, s.now + delay);
    AgesTracks(i.u, t.u);
    TracksTransitive(s.u, i.u, t.u);
  }

  lemma FeedOnward(s: Sim, i: Sim, t: Sim, delay: nat)
    requires Rested(s, false) && i == Sim(At(s.u, s.now + delay, DiscArrives), s.now)
    requires Good(i.u) ==> Ages(i.u, t.u)
    ensures Onward(s.u, t.u) && Reaching(t.u) <= Reaching(s.u)
  {
    hide Ages, Good, Load, NoMotion, Fresh, Onward, Reaching, At;
    RestedGood(s);
    AtReaching(s.u, s.now + delay, DiscArrives);
    FeedGood(s.u, s.now + delay);
    GoodQueue(s.u);
    AtOnward(s.u, s.now + delay, DiscArrives);
    AgesOnward(i.u, t.u);
    AgesReaching(i.u, t.u);
    OnwardTransitive(s.u, i.u, t.u);
  }

  lemma RestedGood(s: Sim)
    requires Rested(s, false)
    ensures Good(s.u) && Load(s.u) == 0 && NoMotion(s.u)
  {
    hide Good, Load, NoMotion, Fresh;
  }

  /** What waiting for a take comes to, with a hand reaching out now, later or never. */
  ghost predicate Presents(s: Sim, t: Sim, take: Option<nat>, gone: bool) {
    && (Between(s) ==> Between(t))
    && (Good(s.u) ==> Tracks(s.u, t.u) && Onward(s.u, t.u) && Reaching(t.u) <= Reaching(s.u) + HandsOf(take))
    && (Quiet(s) && Outlook(s.u).bay && InWindow(take, TAKE_WINDOW_MS) ==>
          && gone == take.Some?
          && (gone ==> Prompt(t) && Outlook(t.u) == Outlook(s.u).(bay := false) && t.u.m.ackTimeout)
          && (!gone ==> Quiet(t) && Outlook(t.u) == Outlook(s.u)))
  }

  lemma PresentToNobody(s: Sim, t: Sim, gone: bool)
    requires Good(s.u) ==> Ages(s.u, t.u)
    requires Quiet(s) && Outlook(s.u).bay ==> !gone && Quiet(t) && Outlook(t.u) == Outlook(s.u)
    requires s.now <= t.now
    ensures Presents(s, t, None, gone)
  {
    hide Good, Ages, Quiet, Outlook, Sound, TimersBy, Tracks, Onward, Claims, Reaching;
    if Good(s.u) { AgesTracks(s.u, t.u); AgesOnward(s.u, t.u); AgesReaching(s.u, t.u); }
    if Between(s) {
      BetweenSound(s);
      BetweenTame(s);
      AgesKept(s, t);
      KeptBetween(s, t);
    }
  }

  lemma PresentToSomebody(s: Sim, i: Sim, t: Sim, delay: nat, gone: bool)
    requires i == Sim(At(s.u, s.now + delay, Taken), s.now) && s.now <= t.now
    requires Good(i.u) ==> Ages(i.u, t.u)
    requires forall c, e | Reach(i.u, c, e) && i.u.busyUntil <= i.now && c.position <= 100 ::
               Misses(i, t, TAKE_WINDOW_MS, c, e, gone)
    ensures Presents(s, t, Some(delay), gone)
  {
    hide Good, Ages, Quiet, Outlook, Between, Tracks, LastLook, Reach, Prompt, Onward, Reaching;
    LooksPastDeadline(s.now);
    if Good(s.u) { TakeTracks(s, i, t, delay); }
    if Between(s) { BetweenSound(s); TakeBetween(s, i, t, delay); }
    if Quiet(s) && Outlook(s.u).bay && delay <= TAKE_WINDOW_MS {
      TakeScheduled(s, s.now + delay);
      QuietPosition(s);
    }
  }

  lemma QuietPosition(s: Sim)
    requires Quiet(s)
    ensures Outlook(s.u).position <= 100
  {
    hide Good, Outlook;
  }

  lemma TakeTracks(s: Sim, i: Sim, t: Sim, delay: nat)
    requires Good(s.u) && i == Sim(At(s.u, s.now + delay, Taken), s.now) && (Good(i.u) ==> Ages(i.u, t.u))
    ensures Tracks(s.u, t.u) && Good(i.u) && Ages(i.u, t.u) && Onward(s.u, t.u) && Reaching(t.u) <= Reaching(s.u) + 1
  {
    hide Good, Ages, Accounted, Enqueue, Onward, Reaching;
    TakeAnytime(s.u, s.now + delay);
    AtReaching(s.u, s.now + delay, Taken);
    AgesReaching(i.u, t.u);
    AgesTracks(i.u, t.u);
    AgesOnward(i.u, t.u);
    GoodQueue(s.u);
    AtOnward(s.u, s.now + delay, Taken);
    OnwardTransitive(s.u, i.u, t.u);
    TracksTransitive(s.u, i.u, t.u);
  }

  /** What is scheduled that neither turns the carousel nor fills a slot changes nothing of where it is bound. */
  lemma AtOnward(u: Unit, when: int, what: Happening)
    requires Queued(u) && (what.Taken? || what.DiscArrives?)
    ensures Onward(u, At(u, when, what))
  {
    hide Enqueue, Foresee, Tally;
    EnqueueMembers(u.events, Event(when, u.seqno + 1, what));
    EnqueueTally(u.events, Event(when, u.seqno + 1, what));
    EnqueuePosition(CoreOf(u.m), u.events, Event(when, u.seqno + 1, what));
  }

  /** A hand at the bay brings no disc in, and starts no timer. */
  lemma TakeBetween(s: Sim, i: Sim, t: Sim, delay: nat)
    requires Between(s) && i == Sim(At(s.u, s.now + delay, Taken), s.now) && (Good(i.u) ==> Ages(i.u, t.u))
    requires s.now <= t.now
    ensures Between(t)
  {
    hide Good, Ages, Tracks, Enqueue, Tame, LastExpiry;
    TakeAnytime(s.u, s.now + delay);
    AgesKept(i, t);
    KeptBetween(i, t);
  }

  // -- going home ----------------------------------------------------------

  /** Parking touches no disc, whether or not the carousel gets home. */
  ghost predicate Parks(s: Sim, t: Sim) {
    && (Sound(s) ==> Kept(s, t))
    && (Prompt(s) ==> Quiet(t) && Same(Outlook(s.u), Outlook(t.u)) && Outlook(t.u).bay == Outlook(s.u).bay)
  }

  lemma HomeParks(s: Sim, t: Sim, r: Outcome<()>)
    requires Moves(s, t, MoveArgs(0, false), r) && !r.Lost?
    ensures Parks(s, t)
  {
    hide Quiet, Outlook, Prompt, Sound, Kept, Rested, OnlyBlips;
    if Prompt(s) { SameQuiet(s, t); }
  }

  lemma QuietStill(t: Sim)
    requires Quiet(t) && Between(t)
    ensures Still(t)
  {
    hide Between, Prompt;
    QuietGood(t);
  }

  lemma StillSound(s: Sim)
    requires Still(s)
    ensures Sound(s) && Between(s) && Prompt(s)
  {
    hide Prompt, Good, Tame, TimersBy;
  }

  /** Where a job that parks leaves the carousel: home, but for a disc in its bay or blips at every try of a command. */
  ghost predicate HomeFrom(s: Sim, t: Sim) {
    var d := Outlook(t.u);
    (d.position == HOME && d.homed) || d.bay || Unlucky(s, t)
  }

  /** And so it does if what it set out from can be relied on. */
  ghost predicate EndsHome(s: Sim, t: Sim, reliable: bool) { Still(s) && reliable ==> HomeFrom(s, t) }

  lemma ParkedHome(s: Sim, x: Sim, t: Sim, r: Outcome<()>)
    requires Tracks(s.u, x.u) && Prompt(x) && Moves(x, t, MoveArgs(0, false), r) && !r.Lost?
    ensures HomeFrom(s, t)
  {
    hide Quiet, Outlook, Prompt, Sound, Kept, Accounted, OnlyBlips, Unlucky;
    UnluckySince(s, x, t);
  }

  lemma StaysHome(s: Sim, x: Sim, t: Sim)
    requires HomeFrom(s, x) && Outlook(t.u) == Outlook(x.u) && Tracks(x.u, t.u)
    ensures HomeFrom(s, t)
  {
    hide Outlook, Accounted, Unlucky;
    UnluckyStill(s, x, t);
  }

  /** No disc is left in the bay that was not there before, unless blips took every try of a command. */
  ghost predicate BaySpared(s: Sim, t: Sim) { Outlook(t.u).bay ==> Outlook(s.u).bay || Unlucky(s, t) }

  lemma StaysSpared(s: Sim, x: Sim, t: Sim)
    requires BaySpared(s, x) && Outlook(t.u).bay == Outlook(x.u).bay && Tracks(x.u, t.u)
    ensures BaySpared(s, t)
  {
    hide Outlook, Accounted, Unlucky;
    UnluckyStill(s, x, t);
  }

  lemma SparedSince(s: Sim, x: Sim, t: Sim)
    requires Tracks(s.u, x.u) && (Outlook(t.u).bay ==> Unlucky(x, t))
    ensures BaySpared(s, t)
  {
    hide Outlook, Accounted, Unlucky;
    UnluckySince(s, x, t);
  }

  /** Whatever has become of the discs, parking keeps it. */
  lemma ParkAfter(s: Sim, x: Sim, t: Sim)
    requires Parks(x, t) && x.now <= t.now
    ensures Between(x) ==> Between(t)
    ensures Still(x) && Tracks(s.u, x.u) ==>
              && Still(t) && Tracks(s.u, t.u) && Tracks(x.u, t.u)
              && Same(Outlook(x.u), Outlook(t.u)) && Outlook(t.u).bay == Outlook(x.u).bay
  {
    hide Quiet, Outlook, Prompt, Sound, Kept, Between, Tracks;
    if Between(x) { BetweenSound(x); KeptBetween(x, t); }
    if Still(x) && Tracks(s.u, x.u) {
      QuietStill(t);
      TracksTransitive(s.u, x.u, t.u);
    }
  }

  lemma ParkSecures(s: Sim, t: Sim)
    requires Parks(s, t) && s.now <= t.now
    ensures Secures(s, t, {})
  {
    hide Quiet, Outlook, Prompt, Sound, Kept, Secures, Same;
    KeptSecures(s, t);
  }

  /**
   Why a job of a unit left to itself was not done: there was a disc in the bay, or
   blips took every try of a command.
   */
  ghost predicate Excused(s: Sim, t: Sim) { Still(s) ==> Outlook(s.u).bay || Unlucky(s, t) }

  lemma LoadExcused(s: Sim, g: Sim)
    ensures (Still(s) ==> Unlucky(s, g)) ==> Excused(s, g)
  {
    hide Still, Outlook, Unlucky;
  }

  lemma MoveExcused(s: Sim, t: Sim, args: Args, r: Outcome<()>)
    requires Moves(s, t, args, r) && r.Failed?
    ensures Excused(s, t)
  {
    hide Quiet, Outlook, Prompt, Sound, Kept, Rested, OnlyBlips, Between, MoveOutcome, HomedCore;
  }

  /** A job that has not moved any disc. */
  ghost predicate Harmless(s: Sim, t: Sim) {
    && Secures(s, t, {})
    && (Still(s) ==> Still(t) && Tracks(s.u, t.u) && Same(Outlook(s.u), Outlook(t.u)) && BaySpared(s, t))
  }

  lemma HarmlessSelf(s: Sim)
    ensures Harmless(s, s)
  {
    hide Between, Prompt, Tracks, Outlook, Secures;
    SelfTracks(s.u);
    SelfSecures(s);
  }

  lemma SelfTracks(u: Unit)
    ensures Tracks(u, u)
  {
  }

  lemma HomeHarmless(s: Sim, t: Sim, r: Outcome<()>)
    requires Moves(s, t, MoveArgs(0, false), r) && !r.Lost? && s.now <= t.now
    ensures Harmless(s, t)
  {
    hide Between, Tracks, Outlook, Parks, Moves, Prompt, Secures;
    HomeParks(s, t, r);
    ParkSecures(s, t);
    SelfTracks(s.u);
    ParkAfter(s, s, t);
  }

  // -- fetching a disc -----------------------------------------------------

  /** How an eject leaves the discs: one fewer in the slots if it was taken; otherwise as they were, or in the bay. */
  ghost predicate Ejects(s: Sim, t: Sim, slot: int, taken: bool, timely: bool) {
    && Secures(s, t, {slot}) && (taken ==> Vacated(s, t, slot))
    && (Still(s) && timely ==>
          && Still(t) && Tracks(s.u, t.u) && BaySpared(s, t)
          && if taken then
               && !Outlook(s.u).bay && slot in Outlook(s.u).occupied
               && Outlook(t.u).occupied == Outlook(s.u).occupied - {slot} && !Outlook(t.u).bay
             else
               || Same(Outlook(s.u), Outlook(t.u))
               || (!Outlook(s.u).bay && slot in Outlook(s.u).occupied
                   && Outlook(t.u).occupied == Outlook(s.u).occupied - {slot}
                   && Outlook(t.u).bay && Outlook(t.u).position == slot))
  }

  /** The move of an eject is done. */
  ghost predicate Fetched(s: Sim, m: Sim, slot: Byte) {
    && Secures(s, m, {}) && (Between(s) ==> AtRest(m) && m.u.m.position == slot)
    && (Still(s) ==>
          && Quiet(m) && Tracks(s.u, m.u) && !Outlook(s.u).bay
          && Outlook(m.u) == MoveOutcome(Outlook(s.u), MoveArgs(slot, true)))
  }

  /** And a disc came out. */
  ghost predicate Presented(s: Sim, p: Sim, slot: int, timely: bool) {
    && Secures(s, p, {}) && Vacated(s, p, slot) && (Between(s) ==> Outlook(p.u).position == slot)
    && (Still(s) && timely ==>
          && Quiet(p) && Between(p) && Tracks(s.u, p.u)
          && slot in Outlook(s.u).occupied && !Outlook(s.u).bay
          && Outlook(p.u).occupied == Outlook(s.u).occupied - {slot}
          && Outlook(p.u).bay && Outlook(p.u).position == slot)
  }

  lemma EjectMoved(s: Sim, m: Sim, slot: Byte, timely: bool, r: Outcome<()>)
    requires Moves(s, m, MoveArgs(slot, true), r) && !r.Lost? && s.now <= m.now
    ensures !r.Ok? ==> Ejects(s, m, slot, false, timely) && Excused(s, m)
    ensures r.Ok? ==> Fetched(s, m, slot)
  {
    hide Quiet, Outlook, Unlucky, Prompt, Sound, Kept, AtRest, OnlyBlips, Between, Tracks, MoveOutcome, Secures;
    KeptSecures(s, m);
    SecuresMore(s, m, slot);
    if Between(s) { BetweenSound(s); KeptBetween(s, m); }
    if Still(s) {
      SameQuiet(s, m);
      QuietStill(m);
    }
  }

  lemma FetchedBrings(s: Sim, m: Sim, p: Sim, slot: Byte)
    requires Fetched(s, m, slot) && Brings(s, s, m, 0) && (Sound(m) ==> Kept(m, p))
    ensures Brings(s, s, p, 0)
  {
    hide Secures, Between, Brings, Sound, Kept, AtRest, Quiet, Outlook;
    SecuresSound(s, m, {});
    KeptBrings(s, m, p);
    BringsAfter(s, s, m, p, 0, 0);
  }

  /** A job that presents a disc is one the unit is ready for throughout. */
  lemma PresentedSound(s: Sim, p: Sim, slot: int, timely: bool)
    requires Presented(s, p, slot, timely)
    ensures Between(s) ==> Sound(p)
  {
    hide Secures, Between, Sound, Vacated, Still, Quiet, Outlook, Tracks;
    SecuresSound(s, p, {});
  }

  lemma AddsSound(s: Sim, p: Sim, slot: int, loaded: bool)
    requires Adds(s, p, slot, loaded)
    ensures Between(s) ==> Sound(p)
  {
    hide Between, Sound, Still, Outlook, Tracks, BaySpared, Same, SecuresFree;
    if Between(s) { BetweenSound(p); }
  }

  lemma SecuresMore(s: Sim, t: Sim, slot: int)
    requires Secures(s, t, {})
    ensures Secures(s, t, {slot})
  {
    hide Between, Tracks, Claimed;
  }

  /** A disc seen in the bay of a unit at rest has left the slot behind the mouth. */
  lemma SeenOut(m: Sim)
    requires AtRest(m) && !Shows(Sample(m), ST_DISC_IN_BAY, 0) && Fitting(m.u)
    ensures !Claimed(Poll(m).u, m.u.m.position)
    ensures Outlook(Poll(m).u).position == m.u.m.position
  {
    hide Good, Fresh, Poll, Found, StatusWord, Ages, Outlook, Claimed, Moving, Accounted;
    var f := Found(m);
    FoundPasses(m);
    PollPasses(m);
    AgesCalm(m.u, f.u);
    AgesOnward(m.u, f.u);
    AgesOnward(f.u, Poll(m).u);
    NoMotionArrived(m.u);
    NoMotionArrived(f.u);
    MasksDecode(f.u, f.now);
    SampleIs(m);
    BayFree(m.u, f.u);
  }

  lemma BayFree(u: Unit, f: Unit)
    requires Accounted(u, f) && Fitting(u) && NoMotion(f) && f.m.discInBay
    ensures !Claimed(f, f.m.position)
  {
    hide Tally, Discs;
    if Claimed(f, f.m.position) {
      var e :| e in f.events && Fills(f.m, e.what, f.m.position);
      TallyCounts(f.events, e);
    }
  }

  lemma EjectLooked(s: Sim, m: Sim, p: Sim, slot: Byte, timely: bool)
    requires Fetched(s, m, slot) && p == Poll(m) && (Sound(m) ==> Kept(m, p)) && m.now <= p.now
    ensures if Shows(Sample(m), ST_DISC_IN_BAY, 0) then Ejects(s, p, slot, false, timely)
            else Presented(s, p, slot, timely)
    ensures Still(s) ==> (Shows(Sample(m), ST_DISC_IN_BAY, 0) <==> slot !in Outlook(s.u).occupied)
  {
    hide Quiet, Outlook, Prompt, Sound, Kept, Between, Poll, Sample, Shows, OnlyBlips, AtRest, Claimed, Secures,
         Accounted, Drops, Fitting;
    KeptSecures(m, p);
    SecuresStill(s, m, p, {});
    SecuresMore(s, p, slot);
    if Between(s) {
      SecuresParts(s, m, {});
      RestsOn(m);
      if !Shows(Sample(m), ST_DISC_IN_BAY, 0) && Fitting(s.u) { FittingStill(s.u, m.u); SeenOut(m); }
      BetweenSound(m);
      KeptBetween(m, p);
    }
    if Still(s) {
      QuietSample(m);
      PollSame(m);
      QuietStill(p);
      TracksTransitive(s.u, m.u, p.u);
    }
  }

  lemma EjectWaited(s: Sim, p: Sim, w: Sim, slot: Byte, timely: bool, take: Option<nat>, gone: bool)
    requires Presented(s, p, slot, timely) && Presents(p, w, take, gone) && (timely ==> InWindow(take, TAKE_WINDOW_MS))
    ensures if gone then Ejects(s, w, slot, true, timely) else Presented(s, w, slot, timely)
    ensures Still(s) && timely ==> gone == take.Some?
  {
    hide Unlucky, Quiet, Outlook, Prompt, Between, Tracks, Good, Fresh, NoMotion, Calm, Secures, Vacated, Claimed;
    PresentsSecures(p, w, take, gone);
    SecuresStill(s, p, w, {});
    SecuresMore(s, w, slot);
    SecuresMore(s, p, slot);
    VacatedStill(s, p, w, slot);
    if Between(s) { SecuresParts(s, p, {}); BetweenSound(p); }
    if Still(s) && timely {
      QuietGood(p);
      TracksTransitive(s.u, p.u, w.u);
      assert gone == take.Some?;
      if gone {
        assert !Outlook(w.u).bay && Outlook(w.u).occupied == Outlook(s.u).occupied - {slot};
        assert BaySpared(s, w);
      }
    }
  }

  lemma SecuresParts(s: Sim, t: Sim, more: set<int>)
    requires Secures(s, t, more) && Between(s)
    ensures Between(t) && Tracks(s.u, t.u) && Claims(s.u, t.u, more)
  {
    hide Between, Tracks, Claims;
  }

  lemma FittingStill(u: Unit, v: Unit)
    requires Fitting(u) && Tracks(u, v)
    ensures Fitting(v)
  {
    hide Fitting, Discs, Drops;
  }

  lemma RestsOn(m: Sim)
    requires AtRest(m)
    ensures Outlook(Poll(m).u).position == m.u.m.position
  {
    hide Good, Fresh, Poll, Ages, Outlook, Claimed, Moving;
    PollPasses(m);
    AgesOnward(m.u, Poll(m).u);
    NoMotionArrived(m.u);
  }

  lemma PresentsSecures(s: Sim, t: Sim, take: Option<nat>, gone: bool)
    requires Presents(s, t, take, gone)
    ensures Secures(s, t, {})
  {
    hide Between, Tracks, Claimed, Good, Quiet, Outlook, Prompt;
    if Between(s) { BetweenSound(s); }
  }

  lemma RetractSecures(s: Sim, w: Sim, b: Sim, slot: int)
    requires Secures(s, w, {}) && (Between(s) ==> Outlook(w.u).position == slot)
    requires (Sound(w) ==> Minded(w, b)) && (Good(w.u) ==> Survives(w.u, b.u, CMD_RETRACT)) && w.now <= b.now
    ensures Secures(s, b, {slot})
  {
    hide Between, Tracks, Claims, Survives, Good, Minded, Outlook;
    if Between(s) {
      BetweenSound(w);
      MindedBetween(w, b);
      SurvivesAccounted(w.u, b.u, CMD_RETRACT);
      TracksTransitive(s.u, w.u, b.u);
      ClaimsTransitive(s.u, w.u, b.u, {}, {slot});
      var none: set<int> := {};
      assert none + {slot} == {slot};
    }
  }

  lemma EjectPutBack(s: Sim, w: Sim, b: Sim, slot: Byte, timely: bool, r: Outcome<bool>)
    requires Presented(s, w, slot, timely) && (Quiet(w) ==> Retracts(w, b, r)) && (Sound(w) ==> Minded(w, b))
    requires Good(w.u) ==> Survives(w.u, b.u, CMD_RETRACT)
    requires !r.Lost? && w.now <= b.now
    ensures Ejects(s, b, slot, false, timely) && (r.Failed? ==> EndsHome(s, b, timely)) && Brings(s, w, b, 0)
  {
    hide Unlucky, Quiet, Outlook, Prompt, Sound, Minded, Between, Tracks, PutBack, Secures, Vacated, Survives, Good,
         Brings;
    PresentedSound(s, w, slot, timely);
    MindedBrings(s, w, b);
    RetractSecures(s, w, b, slot);
    if Between(s) { SecuresParts(s, w, {}); BetweenSound(w); MindedBetween(w, b); }
    if Still(s) && timely {
      PutBackClears(Outlook(w.u));
      SparedSince(s, w, b);
      assert Outlook(s.u).occupied - {slot} + {slot} == Outlook(s.u).occupied;
      QuietStill(b);
      TracksTransitive(s.u, w.u, b.u);
    }
  }

  lemma EjectParked(s: Sim, x: Sim, t: Sim, slot: int, taken: bool, timely: bool, r: Outcome<()>)
    requires Ejects(s, x, slot, taken, timely) && Moves(x, t, MoveArgs(0, false), r) && !r.Lost? && x.now <= t.now
    ensures Ejects(s, t, slot, taken, timely) && EndsHome(s, t, timely) && Brings(s, x, t, 0)
  {
    hide Quiet, Outlook, Prompt, Between, Tracks, Moves, Parks, HomeFrom, Secures, Vacated, Sound, Brings;
    SecuresSound(s, x, {slot});
    MovesBrings(s, x, t, MoveArgs(0, false), r);
    HomeParks(x, t, r);
    ParkSecures(x, t);
    SecuresStill(s, x, t, {slot});
    if taken { VacatedStill(s, x, t, slot); }
    ParkAfter(s, x, t);
    if Still(s) && timely { ParkedHome(s, x, t, r); StaysSpared(s, x, t); }
  }

  // -- loading a disc ------------------------------------------------------

  /** How a load leaves the discs. */
  ghost predicate Adds(s: Sim, t: Sim, slot: int, loaded: bool) {
    && (Between(s) ==> Between(t))
    && (0 <= slot < 256 ==> SecuresFree(s, t, slot, {slot}))
    && (Still(s) && slot !in Outlook(s.u).occupied ==>
          && Still(t) && Tracks(s.u, t.u) && BaySpared(s, t)
          && if loaded then
               !Outlook(s.u).bay && Outlook(t.u).occupied == Outlook(s.u).occupied + {slot} && !Outlook(t.u).bay
             else Same(Outlook(s.u), Outlook(t.u)))
  }

  /** The prompt: a disc is fed so long after it, or never. */
  function Prompted(s: Sim, insert: Option<nat>): Sim {
    if insert.Some? then Sim(At(s.u, s.now + insert.value, DiscArrives), s.now) else s
  }

  /** The wait for the insertion. */
  function InsertRun(s: Sim, insert: Option<nat>): Watch {
    WaitRun(Prompted(s, insert), ST_DISC_WAITING, ST_DISC_WAITING, s.now + INSERT_WINDOW_MS)
  }

  /** The slot has been turned to the mouth and the disc waited for; `seen` or not. */
  ghost predicate Invited(s: Sim, w: Sim, slot: int, insert: Option<nat>, seen: bool) {
    && 0 <= slot <= 100
    && MoveRun(s, MoveArgs(slot, false)).r.Ok?
    && InsertRun(MoveRun(s, MoveArgs(slot, false)).s, insert) == Watch(w, seen)
  }

  /**
   A load begun at `s` slips: the disc is seen, its accept is acknowledged and the
   disc in its slot or about to be, but the job gives up waiting for the end of it.
   */
  ghost predicate LoadSlips(s: Sim, slot: int, insert: Option<nat>) {
    && 0 <= slot <= 100
    && var m := MoveRun(s, MoveArgs(slot, false));
       var w := InsertRun(m.s, insert);
       m.r.Ok? && w.ok && Forsaken(w.s, slot)
  }

  ghost predicate Forsaken(w: Sim, slot: Byte) {
    var g := IngestRun(w);
    g.r == Failed(TimedOut) && Claimed(g.s.u, slot)
  }

  lemma MoveReadies(s: Sim, slot: Byte)
    requires Between(s) && MoveRun(s, MoveArgs(slot, false)).r.Ok?
    ensures var m := MoveRun(s, MoveArgs(slot, false)).s;
            Between(m) && Rested(m, false) && Reaching(m.u) <= Reaching(s.u)
  {
    hide Between, Kept, MoveRun, Rested, Reaching, Sound, Load, Tracks, Claims;
    BetweenSound(s);
    MoveKeeps(s, slot);
    var m := MoveRun(s, MoveArgs(slot, false)).s;
    KeptBetween(s, m);
    KeptBrings(s, s, m);
  }

  lemma AwaitedFed(i: Sim, c: Core, e: int)
    requires In(i, c, Awaited(e), false)
    ensures var w := WaitRun(i, ST_DISC_WAITING, ST_DISC_WAITING, i.now + INSERT_WINDOW_MS);
            Reaching(w.s.u) <= Reaching(i.u) && (w.ok ==> Fed(w.s, false))
  {
    hide WaitRun, Fed, In, Reaching, LastLook;
    InBusy(i, c, Awaited(e), false);
    InsertNoticed(i, INSERT_WINDOW_MS, c, e, false);
    WaitReaching(i, ST_DISC_WAITING, ST_DISC_WAITING, i.now + INSERT_WINDOW_MS);
  }

  lemma PromptedAwaits(m: Sim, delay: nat)
    requires Between(m) && Rested(m, false)
    ensures var i := Prompted(m, Some(delay));
            In(i, CoreOf(m.u.m), Awaited(m.now + delay), false) && Reaching(i.u) == Reaching(m.u) && i.now == m.now
  {
    hide Between, In, Rested, Reaching, At;
    FeedScheduled(m, m.now + delay, false);
    AtReaching(m.u, m.now + delay, DiscArrives);
  }

  /** A disc seen was fed, whoever else is about. */
  lemma InsertFed(m: Sim, insert: Option<nat>)
    requires Between(m) && Rested(m, false) && InsertRun(m, insert).ok
    ensures Fed(InsertRun(m, insert).s, false) && Reaching(InsertRun(m, insert).s.u) <= Reaching(m.u)
  {
    hide Between, WaitRun, Fed, In, Rested, Reaching, Sound, At;
    if insert.None? {
      BetweenSound(m);
      NobodyInserts(m, m.now + INSERT_WINDOW_MS);
    } else {
      PromptedAwaits(m, insert.value);
      AwaitedFed(Prompted(m, insert), CoreOf(m.u.m), m.now + insert.value);
    }
  }

  /** No load slips unless more hands than `MOST_HANDS` are yet to reach in when it begins. */
  lemma FewHandsNeverSlip(s: Sim, slot: int, insert: Option<nat>)
    requires Between(s) && LoadSlips(s, slot, insert)
    ensures Reaching(s.u) > MOST_HANDS
  {
    hide Between, MoveRun, WaitRun, RequireRun, InsertRun, Fed, Claimed, Reaching, Sound, TimersBy;
    var m := MoveRun(s, MoveArgs(slot, false)).s;
    MoveReadies(s, slot);
    InsertFed(m, insert);
    AcceptFollows(InsertRun(m, insert).s, false);
  }

  lemma InvitedSlips(s: Sim, w: Sim, slot: int, insert: Option<nat>, seen: bool)
    requires Invited(s, w, slot, insert, seen)
    ensures LoadSlips(s, slot, insert) <==> seen && Forsaken(w, slot)
  {
    hide MoveRun, WaitRun, IngestRun, Claimed, Forsaken, At;
  }

  lemma UninvitedSlips(s: Sim, slot: int, insert: Option<nat>)
    requires 0 <= slot <= 100 ==> !MoveRun(s, MoveArgs(slot, false)).r.Ok?
    ensures !LoadSlips(s, slot, insert)
  {
    hide MoveRun, WaitRun, IngestRun, Claimed, Forsaken, At;
  }

  /** The free slot is behind the mouth. */
  ghost predicate Opened(s: Sim, m: Sim, slot: Byte) {
    && Secures(s, m, {}) && Brings(s, s, m, 0)
    && (Between(s) ==> Between(m) && Rested(m, false) && m.u.m.position == slot)
    && (Still(s) ==>
          && Quiet(m) && Tracks(s.u, m.u)
          && !Outlook(s.u).bay && Outlook(m.u) == Core(Outlook(s.u).occupied, slot, true, false))
  }

  /** A disc has been seen at the aperture. */
  ghost predicate Arriving(s: Sim, w: Sim, slot: Byte) {
    && (Between(s) ==> Fed(w, false) && Outlook(w.u).position == slot) && TracksFree(s, w, slot, {})
    && Brings(s, s, w, 0)
    && (Still(s) && slot !in Outlook(s.u).occupied ==>
          && Fed(w, true) && Tracks(s.u, w.u)
          && !Outlook(s.u).bay && CoreOf(w.u.m) == Core(Outlook(s.u).occupied, slot, true, false))
  }

  /** It is in, its ack timer to run out by `until`. */
  ghost predicate TakenIn(s: Sim, g: Sim, slot: int, until: int) {
    && (Between(s) ==> Sound(g) && TimersBy(g.u, until) && 0 <= g.now)
    && (0 <= slot < 256 ==> TracksFree(s, g, slot, {slot}))
    && (Still(s) && slot !in Outlook(s.u).occupied ==>
          && Quiet(g) && Tracks(s.u, g.u)
          && !Outlook(s.u).bay && Outlook(g.u).occupied == Outlook(s.u).occupied + {slot} && !Outlook(g.u).bay)
  }

  lemma AddMoved(s: Sim, m: Sim, slot: Byte, r: Outcome<()>)
    requires Moves(s, m, MoveArgs(slot, false), r) && !r.Lost? && s.now <= m.now
    ensures !r.Ok? ==> Harmless(s, m) && Excused(s, m) && (Still(s) ==> r.why != TimedOut)
    ensures r.Ok? ==> Opened(s, m, slot)
    ensures Brings(s, s, m, 0)
  {
    hide Quiet, Outlook, Unlucky, Prompt, Sound, Kept, Rested, OnlyBlips, Between, Tracks, Brings;
    SelfSecures(s);
    SecuresSound(s, s, {});
    MovesBrings(s, s, m, MoveArgs(slot, false), r);
    if Between(s) { BetweenSound(s); KeptBetween(s, m); }
    if Still(s) {
      SameQuiet(s, m);
      QuietStill(m);
    }
  }

  lemma HarmlessAdds(s: Sim, t: Sim, slot: int)
    requires Harmless(s, t)
    ensures Adds(s, t, slot, false) && Spurns(s, t, slot)
  {
    hide Prompt, Between, Tracks, Outlook, Secures;
    SecuresMore(s, t, slot);
    if Between(s) { SecuresParts(s, t, {}); }
  }

  lemma AwaitTracks(s: Sim, m: Sim, w: Sim, slot: Byte, insert: Option<nat>, seen: bool)
    requires Opened(s, m, slot) && Awaits(m, w, insert, seen)
    ensures TracksFree(s, w, slot, {}) && (Between(s) ==> Outlook(w.u).position == slot) && Brings(s, s, w, 0)
  {
    hide Quiet, Outlook, Prompt, Between, Tracks, Fed, Good, Fresh, NoMotion, Load, Secures, Claims, Reaching;
    if Between(s) {
      SecuresParts(s, m, {});
      RestedGood(m);
      NoMotionArrived(m.u);
      OnwardClaims(m.u, w.u);
      OnwardPosition(m.u, w.u);
      if !Claimed(s.u, slot) {
        NotHeld(s.u, m.u, slot);
        TracksTransitive(s.u, m.u, w.u);
        ClaimsTransitive(s.u, m.u, w.u, {}, {});
        var none: set<int> := {};
        assert none + none == none;
      }
    }
  }

  lemma OnwardPosition(u: Unit, v: Unit)
    requires Onward(u, v)
    ensures Outlook(v).position == Outlook(u).position
  {
    hide Claimed, Outlook;
  }

  lemma NotHeld(u: Unit, v: Unit, slot: Byte)
    requires Claims(u, v, {}) && !Claimed(u, slot)
    ensures slot !in v.m.occupied
  {
  }

  lemma AddAwaited(s: Sim, m: Sim, w: Sim, slot: Byte, insert: Option<nat>, seen: bool)
    requires Opened(s, m, slot) && Awaits(m, w, insert, seen) && InWindow(insert, INSERT_WINDOW_MS)
    ensures if seen then Arriving(s, w, slot) else Adds(s, w, slot, false) && Spurns(s, w, slot)
    ensures Still(s) ==> seen == insert.Some?
    ensures Brings(s, s, w, 0)
  {
    hide Quiet, Outlook, Prompt, Between, Tracks, Fed, Rested, Secures, SecuresFree, TracksFree, Brings;
    AwaitTracks(s, m, w, slot, insert, seen);
    if !seen {
      TracksFreeSecures(s, w, slot, {});
      SecuresFreeMore(s, w, slot);
    }
    if Still(s) && slot !in Outlook(s.u).occupied {
      QuietRested(m);
      TracksTransitive(s.u, m.u, w.u);
      if !seen { QuietStill(w); }
    }
  }

  lemma AddIngested(s: Sim, w: Sim, g: Sim, slot: Byte, r: Outcome<()>)
    requires Arriving(s, w, slot) && !r.Lost? && slot <= 100 && w.now <= g.now
    requires Fed(w, false) ==> TakesIn(w, g, r)
    requires Fed(w, true) && w.u.m.position <= 100 ==> Loads(w, g, r)
    ensures r.Failed? && Still(s) && slot !in Outlook(s.u).occupied ==> Unlucky(s, g)
    ensures if r.Ok? then TakenIn(s, g, slot, g.now + 9_900) else Adds(s, g, slot, false)
    ensures r.Failed? && (r.why != TimedOut || !Claimed(g.u, slot)) ==> Spurns(s, g, slot)
    ensures r.Failed? && Still(s) && slot !in Outlook(s.u).occupied ==> r.why != TimedOut
    ensures Brings(s, s, g, 0)
  {
    hide Quiet, Outlook, Prompt, Accounted, Fed, LastExpiry, Good, Tame, SecuresFree, TracksFree, Claims, Claimed,
         Reaching;
    if Between(s) { FedTime(w); }
    var none: set<int> := {};
    assert none + none == none && none + {slot as int} == {slot as int};
    var more := if r.Ok? || r.why == TimedOut then {slot as int} else {};
    TracksFreeAfter(s, w, g, slot, {}, more);
    assert none + more == more;
    if r.Failed? {
      TracksFreeSecures(s, g, slot, more);
      if r.why != TimedOut { SecuresFreeMore(s, g, slot); }
      if !Claimed(g.u, slot) { UnclaimedSpurns(s, g, slot); }
    }
    if Still(s) && slot !in Outlook(s.u).occupied {
      TracksTransitive(s.u, w.u, g.u);
      UnluckySince(s, w, g);
    }
  }

  lemma UnclaimedSpurns(s: Sim, t: Sim, slot: Byte)
    requires !Claimed(t.u, slot) && SecuresFree(s, t, slot, {slot})
    ensures SecuresFree(s, t, slot, {})
  {
    hide Between, Tracks, Claimed;
  }

  lemma FedTime(w: Sim)
    requires Fed(w, false)
    ensures 0 <= w.now
  {
    hide Good, Acts, NoHands;
  }

  lemma AddParked(s: Sim, x: Sim, t: Sim, slot: int, r: Outcome<()>)
    requires Adds(s, x, slot, false) && Moves(x, t, MoveArgs(0, false), r) && !r.Lost? && x.now <= t.now
    ensures Adds(s, t, slot, false) && EndsHome(s, t, slot !in Outlook(s.u).occupied) && Brings(s, x, t, 0)
    ensures Spurns(s, x, slot) ==> Spurns(s, t, slot)
  {
    hide Quiet, Outlook, Prompt, Between, Tracks, Moves, Parks, HomeFrom, SecuresFree, Secures, Sound, Brings;
    AddsSound(s, x, slot, false);
    MovesBrings(s, x, t, MoveArgs(0, false), r);
    HomeParks(x, t, r);
    ParkSecures(x, t);
    if 0 <= slot < 256 {
      SecuresFreeStill(s, x, t, slot, {slot});
      if SecuresFree(s, x, slot, {}) { SecuresFreeStill(s, x, t, slot, {}); }
    }
    ParkAfter(s, x, t);
    if Still(s) && slot !in Outlook(s.u).occupied { ParkedHome(s, x, t, r); StaysSpared(s, x, t); }
  }

  lemma TracksFreeStill(s: Sim, x: Sim, t: Sim, slot: Byte)
    requires TracksFree(s, x, slot, {slot}) && (Between(s) ==> Tracks(x.u, t.u) && Claims(x.u, t.u, {}))
    ensures TracksFree(s, t, slot, {slot})
  {
    hide TracksFree, Between, Tracks, Claims;
    TracksFreeAfter(s, x, t, slot, {slot}, {});
    assert {slot as int} + {} == {slot as int};
  }

  lemma TakenInParked(s: Sim, x: Sim, t: Sim, slot: int, until: int, r: Outcome<()>)
    requires TakenIn(s, x, slot, until) && Moves(x, t, MoveArgs(0, false), r) && !r.Lost? && x.now <= t.now
    ensures Between(s) ==> Sound(t)
    ensures TakenIn(s, t, slot, until) && EndsHome(s, t, slot !in Outlook(s.u).occupied) && Brings(s, x, t, 0)
  {
    hide HomeFrom, Quiet, Outlook, Between, Tracks, Moves, Prompt, Kept, Good, Tame, LastExpiry, TracksFree, Claims,
         Brings;
    MovesBrings(s, x, t, MoveArgs(0, false), r);
    HomeParks(x, t, r);
    if Between(s) { KeptTracks(x, t); }
    if 0 <= slot < 256 { TracksFreeStill(s, x, t, slot); }
    if Still(s) && slot !in Outlook(s.u).occupied {
      StillSound(s);
      QuietGood(x);
      TracksTransitive(s.u, x.u, t.u);
      ParkedHome(s, x, t, r);
    }
  }

  /** The watch after a load outlasts the timer its disc started. */
  lemma TakenInWatched(s: Sim, x: Sim, t: Sim, slot: int, until: int)
    requires TakenIn(s, x, slot, until) && (Sound(x) ==> Kept(x, t)) && x.now <= t.now && until <= t.now
    requires Quiet(x) ==> Quiet(t) && Outlook(t.u) == Outlook(x.u)
    requires EndsHome(s, x, slot !in Outlook(s.u).occupied) && (Between(s) ==> Fresh(t.u, t.now))
    ensures Between(s) ==> Unarmed(t.u)
    ensures Adds(s, t, slot, true) && EndsHome(s, t, slot !in Outlook(s.u).occupied) && Brings(s, x, t, 0)
  {
    hide HomeFrom, Quiet, Outlook, Tracks, Prompt, Kept, Good, Tame, LastExpiry, TracksFree, SecuresFree, Claims,
         Brings;
    KeptBrings(s, x, t);
    if Between(s) { KeptTracks(x, t); NoneArmed(t.u.events, t.now); }
    if 0 <= slot < 256 {
      TracksFreeStill(s, x, t, slot);
      TracksFreeSecures(s, t, slot, {slot});
    }
    if Still(s) && slot !in Outlook(s.u).occupied {
      QuietStill(t);
      TracksTransitive(s.u, x.u, t.u);
      StaysHome(s, x, t);
    }
  }

  lemma ParkedThenWatched(s: Sim, g: Sim, x: Sim, t: Sim, slot: int, until: int)
    requires TakenIn(s, x, slot, until) && (Sound(x) ==> Kept(x, t)) && x.now <= t.now && until <= t.now
    requires Quiet(x) ==> Quiet(t) && Outlook(t.u) == Outlook(x.u)
    requires EndsHome(s, x, slot !in Outlook(s.u).occupied) && (Sound(x) ==> Fresh(t.u, t.now)) && Brings(s, g, x, 0)
    ensures Between(s) ==> Unarmed(t.u)
    ensures Adds(s, t, slot, true) && EndsHome(s, t, slot !in Outlook(s.u).occupied) && Brings(s, g, t, 0)
  {
    hide EndsHome, HomeFrom, Quiet, Outlook, Kept, Sound, Fresh, Adds, Brings, Still, TracksFree, TimersBy, Between;
    TakenInWatched(s, x, t, slot, until);
    BringsAfter(s, g, x, t, 0, 0);
  }
}
