/**
 The hardware flows: each drives the unit, reports through its job and keeps the
 catalogue. The hands in front of the unit are parameters: how long after the
 prompt a disc is fed or taken, if at all.
 */
module Flows {
  import opened Wrappers
  import opened Geometry
  import opened Firmware
  import opened FirmwareLaws
  import opened Runs
  import opened Motions
  import opened MoveLaws
  import opened LoadLaws
  import opened FlowLaws
  import opened Simulator
  import opened Host
  import opened Jobs
  import C = Catalogue

  const WATCH_MS := 10_000

  /** The prompt to insert a disc, and what comes of it. */
  method AwaitInsert(ds: DiscStakka, insert: Option<nat>) returns (r: Outcome<bool>)
    requires ds.Linked()
    modifies ds, ds.io, ds.io.carousel, ds.io.clock
    ensures ds.Holds(r.Lost?) && !r.Failed?
    ensures r.Ok? ==> Awaits(old(ds.Now()), ds.Now(), insert, r.value)
    ensures r.Ok? ==> Watch(ds.Now(), r.value) == InsertRun(old(ds.Now()), insert)
  {
    hide WaitRun, Awaits, Good, Ages, Quiet, Outlook, Sound, In, Notices;
    ghost var s := ds.Now();
    if insert.Some? {
      ds.io.carousel.InsertDisc(ds.io.clock.ms + insert.value);
    }
    ghost var i := ds.Now();
    r := ds.WaitForInsert();
    if r.Ok? {
      if insert.Some? {
        AwaitSomebody(s, i, ds.Now(), insert.value, r.value);
      } else {
        AwaitNobody(s, ds.Now(), r.value);
      }
    }
  }

  /** The disc presented, and what comes of it. */
  method AwaitTake(ds: DiscStakka, take: Option<nat>) returns (r: Outcome<bool>)
    requires ds.Linked()
    modifies ds, ds.io, ds.io.carousel, ds.io.clock
    ensures ds.Holds(r.Lost?) && !r.Failed?
    ensures r.Ok? ==> Presents(old(ds.Now()), ds.Now(), take, r.value)
    ensures Wrote(old(ds.io.writes), ds.io.writes, CMD_REQUEST_STATE)
  {
    hide Wrote, Presents, Good, Ages, Quiet, Outlook, Sound, Reach, Misses;
    ghost var s := ds.Now();
    if take.Some? {
      ds.io.carousel.TakeDisc(ds.io.clock.ms + take.value);
    }
    ghost var i := ds.Now();
    r := ds.WaitForTake();
    if r.Ok? {
      if take.Some? {
        PresentToSomebody(s, i, ds.Now(), take.value, r.value);
      } else {
        PresentToNobody(s, ds.Now(), r.value);
      }
    }
  }

  /** Ten seconds of looking at a loaded unit; should it vanish meanwhile, the load still stands. */
  method WatchLoaded(ds: DiscStakka)
    requires ds.Linked()
    modifies ds, ds.io, ds.io.carousel, ds.io.clock
    ensures ds.Stays()
    ensures old(ds.Plugged()) ==> old(ds.Now()).now + 10_000 <= ds.Now().now < old(ds.Now()).now + 10_243
    ensures Sound(old(ds.Now())) ==> Kept(old(ds.Now()), ds.Now())
    ensures old(ds.Plugged()) && Sound(old(ds.Now())) ==> Fresh(ds.Now().u, ds.Now().now)
    ensures old(ds.Plugged()) && Quiet(old(ds.Now())) ==>
              Quiet(ds.Now()) && Outlook(ds.Now().u) == Outlook(old(ds.Now()).u)
  {
    hide Fresh, Good, Ages, Quiet, Outlook, Sound, Kept, Poll, OnlyBlips;
    ghost var s := ds.Now();
    KeptLaws();
    var deadline := ds.io.clock.ms + WATCH_MS;
    while ds.io.clock.ms < deadline
      invariant ds.Stays()
      invariant old(ds.Plugged()) ==> ds.Now().now < s.now + 10_243
      invariant Sound(s) ==> Kept(s, ds.Now())
      invariant Sound(s) && s.now < ds.Now().now ==> Fresh(ds.Now().u, ds.Now().now)
      invariant old(ds.Plugged()) && Quiet(s) ==> Quiet(ds.Now()) && Outlook(ds.Now().u) == Outlook(s.u)
      decreases deadline - ds.io.clock.ms
    {
      ghost var t := ds.Now();
      PollTakes(t);
      if Quiet(t) { PollSame(t); SameQuiet(t, Poll(t)); }
      if Sound(s) { KeptGood(s, t); PollPasses(t); }
      var seen := ds.Status();
      if !seen.Ok? { return; }
    }
  }

  method RunReset(ds: DiscStakka, table: C.Table, job: Job) returns (r: Outcome<()>)
    requires ds.Linked() && table.Valid() && job.Live()
    modifies ds, ds.io, ds.io.carousel, ds.io.clock, table, job
    ensures ds.Stays() && table.Valid() && table.rows == old(table.rows)
    ensures if r.Ok? then job.Ended() && job.phase == DONE else job.Live()
    ensures job.history == old(job.history) + if r.Ok? then [MOVING, DONE] else [MOVING]
    ensures job.disc == old(job.disc) && job.needsDetails == old(job.needsDetails)
    ensures table.journal
         == if r.Ok? then old(table.journal) + [C.Entry(None, None, C.ResetDone)] else old(table.journal)
    ensures old(ds.Plugged()) ==> !r.Lost? && Harmless(old(ds.Now()), ds.Now())
    ensures r.Ok? && old(ds.Plugged()) && Still(old(ds.Now())) ==>
              var d := Outlook(ds.Now().u); !d.bay && d.position == HOME && d.homed
    ensures r.Ok? && old(ds.Plugged()) ==> EndsHome(old(ds.Now()), ds.Now(), true)
    ensures old(ds.Plugged()) && !r.Ok? ==> Excused(old(ds.Now()), ds.Now())
    ensures Brings(old(ds.Now()), old(ds.Now()), ds.Now(), 0)
  {
    hide EndsHome, Harmless, Moves, Outlook, Still, Excused, Brings, Sound, Secures;
    ghost var s := ds.Now();
    SelfSecures(s);
    SecuresSound(s, s, {});
    job.SetPhase(MOVING);
    var reset := ds.Reset();
    MovesBrings(s, s, ds.Now(), MoveArgs(0, false), reset);
    if !reset.Lost? { HomeHarmless(s, ds.Now(), reset); ResetHome(s, ds.Now(), reset); }
    if reset.Failed? { MoveExcused(s, ds.Now(), MoveArgs(0, false), reset); }
    var _ :- reset;
    r := table.LogEvent(C.ResetDone);
    job.Succeed();
  }

  lemma ResetHome(s: Sim, t: Sim, r: Outcome<()>)
    requires Moves(s, t, MoveArgs(0, false), r)
    ensures r.Ok? && Still(s) ==> !Outlook(t.u).bay && Outlook(t.u).position == HOME && Outlook(t.u).homed
    ensures r.Ok? ==> EndsHome(s, t, true)
  {
    hide Outlook, Sound, Prompt, Kept, Rested, SameUpToBlips, Between;
  }

  /** The row of the disc an eject is after, should it have been taken. */
  function TakenOut(rows: C.Rows, id: int): C.Rows
    requires id in rows
  {
    rows[id := rows[id].(status := C.Out)]
  }

  /** Turns to the disc and pushes it out; whether it came. */
  method Fetch(ds: DiscStakka, slot: Byte, ghost timely: bool) returns (r: Outcome<bool>)
    requires ds.Linked() && slot <= 100
    modifies ds, ds.io, ds.io.carousel, ds.io.clock
    ensures ds.Holds(r.Lost?)
    ensures r.Failed? || (r.Ok? && !r.value) ==> Ejects(old(ds.Now()), ds.Now(), slot, false, timely)
    ensures r.Ok? && r.value ==> Presented(old(ds.Now()), ds.Now(), slot, timely)
    ensures r.Failed? ==> Excused(old(ds.Now()), ds.Now())
    ensures r.Ok? && Still(old(ds.Now())) ==> (r.value <==> slot in Outlook(old(ds.Now()).u).occupied)
    ensures Wrote(old(ds.io.writes), ds.io.writes, CMD_SET_POS)
    ensures Brings(old(ds.Now()), old(ds.Now()), ds.Now(), 0)
  {
    hide Wrote, Ejects, Fetched, Presented, Moves, Sound, Kept, Poll, Sample, Shows, Excused, Still, Outlook, Brings,
         Secures;
    ghost var s := ds.Now();
    SelfSecures(s);
    SecuresSound(s, s, {});
    var moved := ds.MoveTo(slot, true);
    ghost var m, written := ds.Now(), ds.io.writes;
    MovesBrings(s, s, m, MoveArgs(slot, true), moved);
    if !moved.Lost? { EjectMoved(s, m, slot, timely, moved); }
    var _ :- moved;
    r := ds.DiscInBay();
    FetchedBrings(s, m, ds.Now(), slot);
    WroteTransitive(old(ds.io.writes), written, ds.io.writes, CMD_SET_POS, CMD_REQUEST_STATE);
    if r.Ok? { EjectLooked(s, m, ds.Now(), slot, timely); }
  }

  /** No move was written after a retract. */
  ghost predicate NoMoveAfterRetract(a: seq<(Byte, Args)>, b: seq<(Byte, Args)>) {
    |a| <= |b| && forall i, j | |a| <= i < j < |b| && b[i].0 == CMD_RETRACT :: b[j].0 != CMD_SET_POS
  }

  /** A disc not taken: journalled as retracted; or as a failure, and then the carousel was not turned with it out. */
  ghost predicate GaveBack(journal: seq<C.Entry>, after: seq<C.Entry>, a: seq<(Byte, Args)>, b: seq<(Byte, Args)>,
                           disc: int, slot: int)
  {
    || after == journal + [C.Entry(Some(disc), Some(slot), C.Retracted)]
    || (after == journal + [C.Entry(Some(disc), Some(slot), C.JobFailed)] && NoMoveAfterRetract(a, b))
  }

  lemma TakenBack(journal: seq<C.Entry>, after: seq<C.Entry>, a: seq<(Byte, Args)>, b: seq<(Byte, Args)>,
                  c: seq<(Byte, Args)>, disc: int, slot: int)
    requires Wrote(a, b, CMD_SET_POS)
    requires after == journal + [C.Entry(Some(disc), Some(slot), C.Retracted)]
          || (after == journal + [C.Entry(Some(disc), Some(slot), C.JobFailed)] && Wrote(b, c, CMD_RETRACT))
    ensures GaveBack(journal, after, a, c, disc, slot)
  {
    if Wrote(b, c, CMD_RETRACT) {
      assert forall i | |a| <= i < |b| :: c[i] == b[i];
      assert forall i | |a| <= i < |b| :: c[i].0 != CMD_RETRACT;
    }
  }

  method RunEject(ds: DiscStakka, table: C.Table, job: Job, discId: int, take: Option<nat>) returns (r: Outcome<()>)
    requires ds.Linked() && table.Valid() && job.Live()
    modifies ds, ds.io, ds.io.carousel, ds.io.clock, table, job
    ensures ds.Stays() && table.Valid()
    ensures if r.Ok? then job.Ended() else job.Live()
    ensures job.phase == DONE ==>
              && discId in old(table.rows) && table.rows == TakenOut(old(table.rows), discId)
              && table.journal
                 == old(table.journal) + [C.Entry(Some(discId), Some(old(table.rows)[discId].slot), C.Ejected)]
              && job.history == old(job.history) + [MOVING, PRESENTED, PARKING, DONE]
    ensures job.phase != DONE ==> table.rows == old(table.rows)
    ensures job.phase == FAILED && discId in old(table.rows) ==>
              var slot := old(table.rows)[discId].slot;
              || (job.history == old(job.history) + [MOVING, PARKING, FAILED]
                 && table.journal == old(table.journal) + [C.Entry(Some(discId), Some(slot), C.JobFailed)])
              || (job.history == old(job.history) + [MOVING, PRESENTED, RETRACTING, FAILED]
                 && GaveBack(old(table.journal), table.journal, old(ds.io.writes), ds.io.writes, discId, slot))
    ensures discId !in old(table.rows) ==>
              && ds.Now() == old(ds.Now()) && job.phase == FAILED && job.history == old(job.history) + [FAILED]
              && table.journal == old(table.journal)
    ensures !r.Ok? ==> table.journal == old(table.journal)
    ensures job.disc == (if r.Ok? && discId in old(table.rows) then Some(discId) else old(job.disc))
            && job.needsDetails == old(job.needsDetails)
    ensures old(ds.Plugged()) && discId in old(table.rows) && Still(old(ds.Now())) && r.Ok? ==>
              (PRESENTED in job.history[|old(job.history)|..]
               <==> old(table.rows)[discId].slot in Outlook(old(ds.Now()).u).occupied)
    ensures old(ds.Plugged()) && discId in old(table.rows) ==>
              !r.Lost? && Ejects(old(ds.Now()), ds.Now(), old(table.rows)[discId].slot, job.phase == DONE,
                                 InWindow(take, TAKE_WINDOW_MS))
    ensures old(ds.Plugged()) && discId in old(table.rows) && r.Ok? ==>
              EndsHome(old(ds.Now()), ds.Now(), InWindow(take, TAKE_WINDOW_MS))
    ensures old(ds.Plugged()) && discId in old(table.rows) && Still(old(ds.Now())) && InWindow(take, TAKE_WINDOW_MS) ==>
              if r.Ok? then
                job.phase == DONE <==> old(table.rows)[discId].slot in Outlook(old(ds.Now()).u).occupied && take.Some?
              else
                Excused(old(ds.Now()), ds.Now())
    ensures old(ds.Plugged()) ==> Brings(old(ds.Now()), old(ds.Now()), ds.Now(), HandsOf(take))
  {
    hide GaveBack, EndsHome, Excused, Still, Ejects, Outlook, Job.Live, Job.Ended, C.UniqueSlots, C.Referential,
         Between,
         Reaching;
    var disc := table.GetDisc(discId);
    if disc.None? {
      job.Fail();
      return Ok(());
    }
    C.SlotInRange(table.rows, discId);
    r := EjectFrom(ds, table, job, discId, disc.value.slot, take);
  }

  /** The disc has a row: it is fetched, and handed over if it came. */
  method EjectFrom(ds: DiscStakka, table: C.Table, job: Job, discId: int, slot: int, take: Option<nat>)
    returns (r: Outcome<()>)
    requires ds.Linked() && table.Valid() && job.Live()
    requires discId in table.rows && slot == table.rows[discId].slot && 0 <= slot <= 100
    modifies ds, ds.io, ds.io.carousel, ds.io.clock, table, job
    ensures ds.Stays() && table.Valid()
    ensures if r.Ok? then job.Ended() else job.Live()
    ensures if job.phase == DONE then
              && table.rows == TakenOut(old(table.rows), discId)
              && table.journal == old(table.journal) + [C.Entry(Some(discId), Some(slot), C.Ejected)]
              && job.history == old(job.history) + [MOVING, PRESENTED, PARKING, DONE]
            else table.rows == old(table.rows)
    ensures job.phase == FAILED ==>
              || (job.history == old(job.history) + [MOVING, PARKING, FAILED]
                 && table.journal == old(table.journal) + [C.Entry(Some(discId), Some(slot), C.JobFailed)])
              || (job.history == old(job.history) + [MOVING, PRESENTED, RETRACTING, FAILED]
                 && GaveBack(old(table.journal), table.journal, old(ds.io.writes), ds.io.writes, discId, slot))
    ensures !r.Ok? ==> table.journal == old(table.journal)
    ensures job.disc == (if r.Ok? then Some(discId) else old(job.disc)) && job.needsDetails == old(job.needsDetails)
    ensures old(ds.Plugged()) && Still(old(ds.Now())) && r.Ok? ==>
              (PRESENTED in job.history[|old(job.history)|..] <==> slot in Outlook(old(ds.Now()).u).occupied)
    ensures old(ds.Plugged()) ==>
              && !r.Lost? && Ejects(old(ds.Now()), ds.Now(), slot, job.phase == DONE, InWindow(take, TAKE_WINDOW_MS))
              && (r.Ok? ==> EndsHome(old(ds.Now()), ds.Now(), InWindow(take, TAKE_WINDOW_MS)))
              && Brings(old(ds.Now()), old(ds.Now()), ds.Now(), HandsOf(take))
    ensures old(ds.Plugged()) && Still(old(ds.Now())) && InWindow(take, TAKE_WINDOW_MS) ==>
              if r.Ok? then job.phase == DONE <==> slot in Outlook(old(ds.Now()).u).occupied && take.Some?
              else Excused(old(ds.Now()), ds.Now())
  {
    hide GaveBack, Wrote, EndsHome, Excused, Still, Ejects, Presented, Presents, Quiet, Outlook, Job.Live, Job.Ended,
         C.UniqueSlots, C.Referential, Between, Reaching;
    ghost var s, timely := ds.Now(), InWindow(take, TAKE_WINDOW_MS);
    job.SetPhase(MOVING);
    var out :- Fetch(ds, slot, timely);
    if !out {
      r := NothingOut(ds, table, job, discId, slot, s, timely);
      return;
    }
    r := Hand(ds, table, job, discId, slot, take, s, timely, old(ds.io.writes));
    job.LiveIsNotEnded();
  }

  /** The disc is out: it is taken, or it goes back. */
  method Hand(ds: DiscStakka, table: C.Table, job: Job, discId: int, slot: int, take: Option<nat>,
              ghost s: Sim, ghost timely: bool, ghost written: seq<(Byte, Args)>)
    returns (r: Outcome<()>)
    requires ds.Linked() && table.Valid() && job.Live()
    requires discId in table.rows && slot == table.rows[discId].slot && 0 <= slot <= 100
    requires Presented(s, ds.Now(), slot, timely) && (timely ==> InWindow(take, TAKE_WINDOW_MS))
    requires Wrote(written, ds.io.writes, CMD_SET_POS)
    modifies ds, ds.io, ds.io.carousel, ds.io.clock, table, job
    ensures ds.Stays() && table.Valid() && !r.Failed?
    ensures if r.Ok? then job.Ended() else job.Live()
    ensures job.phase == DONE ==>
              && table.rows == TakenOut(old(table.rows), discId)
              && table.journal == old(table.journal) + [C.Entry(Some(discId), Some(slot), C.Ejected)]
              && job.history == old(job.history) + [PRESENTED, PARKING, DONE]
    ensures job.phase != DONE ==> table.rows == old(table.rows)
    ensures job.phase == FAILED ==>
              && job.history == old(job.history) + [PRESENTED, RETRACTING, FAILED]
              && GaveBack(old(table.journal), table.journal, written, ds.io.writes, discId, slot)
    ensures !r.Ok? ==> table.journal == old(table.journal) && job.history == old(job.history) + [PRESENTED]
    ensures job.disc == (if r.Ok? then Some(discId) else old(job.disc)) && job.needsDetails == old(job.needsDetails)
    ensures old(ds.Plugged()) ==>
              && r.Ok? && Ejects(s, ds.Now(), slot, job.phase == DONE, timely) && EndsHome(s, ds.Now(), timely)
              && (Still(s) && timely ==> (job.phase == DONE <==> take.Some?))
              && Brings(s, old(ds.Now()), ds.Now(), HandsOf(take))
  {
    hide GaveBack, Wrote, EndsHome, Still, Ejects, Presented, Presents, Job.Live, Job.Ended, C.UniqueSlots,
         C.Referential, Brings, Between, Sound;
    ghost var p, before := ds.Now(), ds.io.writes;
    PresentedSound(s, p, slot, timely);
    job.SetPhase(PRESENTED);
    job.LiveIsNotEnded();
    var gone :- AwaitTake(ds, take);
    ghost var w := ds.Now();
    PresentsBrings(s, p, w, take, gone);
    WroteTransitive(written, before, ds.io.writes, CMD_SET_POS, CMD_REQUEST_STATE);
    EjectWaited(s, p, ds.Now(), slot, timely, take, gone);
    if gone {
      r := TakenAway(ds, table, job, discId, slot, s, timely);
    } else {
      before := ds.io.writes;
      r := TakeBack(ds, table, job, discId, slot, s, timely);
      TakenBack(old(table.journal), table.journal, written, before, ds.io.writes, discId, slot);
    }
    if old(ds.Plugged()) { BringsAfter(s, p, w, ds.Now(), HandsOf(take), 0); }
  }

  /** The slot was empty. */
  method NothingOut(ds: DiscStakka, table: C.Table, job: Job, discId: int, slot: int, ghost s: Sim, ghost timely: bool)
    returns (r: Outcome<()>)
    requires ds.Linked() && table.Valid() && job.Live() && discId in table.rows
    requires Ejects(s, ds.Now(), slot, false, timely)
    modifies ds, ds.io, ds.io.carousel, ds.io.clock, table, job
    ensures ds.Stays() && table.Valid() && table.rows == old(table.rows)
    ensures r.Ok? && job.Ended() && job.phase == FAILED && job.history == old(job.history) + [PARKING, FAILED]
    ensures job.disc == Some(discId) && job.needsDetails == old(job.needsDetails)
    ensures table.journal == old(table.journal) + [C.Entry(Some(discId), Some(slot), C.JobFailed)]
    ensures old(ds.Plugged()) ==> Ejects(s, ds.Now(), slot, false, timely) && EndsHome(s, ds.Now(), timely)
    ensures old(ds.Plugged()) ==> Brings(s, old(ds.Now()), ds.Now(), 0)
  {
    hide EndsHome, Ejects, Moves, Job.Live, Job.Ended, C.UniqueSlots, C.Referential, Brings, Sound, Between;
    ghost var p := ds.Now();
    job.SetPhase(PARKING);
    ghost var parked := ds.Park();
    if !parked.Lost? { EjectParked(s, p, ds.Now(), slot, false, timely, parked); }
    r := table.LogEvent(C.JobFailed, Some(discId), Some(slot));
    job.Fail(Some(discId));
  }

  /** The disc was taken: the catalogue lists it as out, and holds its slot. */
  method TakenAway(ds: DiscStakka, table: C.Table, job: Job, discId: int, slot: int, ghost s: Sim, ghost timely: bool)
    returns (r: Outcome<()>)
    requires ds.Linked() && table.Valid() && job.Live() && discId in table.rows
    requires Ejects(s, ds.Now(), slot, true, timely)
    modifies ds, ds.io, ds.io.carousel, ds.io.clock, table, job
    ensures ds.Stays() && table.Valid() && table.rows == TakenOut(old(table.rows), discId)
    ensures table.journal == old(table.journal) + [C.Entry(Some(discId), Some(old(table.rows)[discId].slot), C.Ejected)]
    ensures r.Ok? && job.Ended() && job.phase == DONE && job.history == old(job.history) + [PARKING, DONE]
    ensures job.disc == Some(discId) && job.needsDetails == old(job.needsDetails)
    ensures old(ds.Plugged()) ==> Ejects(s, ds.Now(), slot, true, timely) && EndsHome(s, ds.Now(), timely)
    ensures old(ds.Plugged()) ==> Brings(s, old(ds.Now()), ds.Now(), 0)
  {
    hide EndsHome, Ejects, Moves, Job.Live, Job.Ended, C.UniqueSlots, C.Referential, C.Slots, C.StoredSlots, Brings,
         Sound, Between;
    ghost var w := ds.Now();
    job.SetPhase(PARKING);
    ghost var parked := ds.Park();
    if !parked.Lost? { EjectParked(s, w, ds.Now(), slot, true, timely, parked); }
    r := table.Mark(discId, C.Out, C.Ejected);
    job.Succeed(Some(discId));
  }

  /** Nobody took it: it goes back, and the carousel stays where it is if it does not. */
  method TakeBack(ds: DiscStakka, table: C.Table, job: Job, discId: int, slot: int, ghost s: Sim, ghost timely: bool)
    returns (r: Outcome<()>)
    requires ds.Linked() && table.Valid() && job.Live() && discId in table.rows && 0 <= slot <= 100
    requires Presented(s, ds.Now(), slot, timely)
    modifies ds, ds.io, ds.io.carousel, ds.io.clock, table, job
    ensures ds.Stays() && table.Valid() && table.rows == old(table.rows)
    ensures r.Ok? && job.Ended() && job.phase == FAILED
    ensures old(ds.Plugged()) ==> Ejects(s, ds.Now(), slot, false, timely) && EndsHome(s, ds.Now(), timely)
    ensures job.history == old(job.history) + [RETRACTING, FAILED]
    ensures job.disc == Some(discId) && job.needsDetails == old(job.needsDetails)
    ensures table.journal == old(table.journal) + [C.Entry(Some(discId), Some(slot), C.Retracted)]
            || (table.journal == old(table.journal) + [C.Entry(Some(discId), Some(slot), C.JobFailed)]
                && Wrote(old(ds.io.writes), ds.io.writes, CMD_RETRACT))
    ensures old(ds.Plugged()) ==> Brings(s, old(ds.Now()), ds.Now(), 0)
  {
    hide Survives, Good, Minded, EndsHome, Wrote, Ejects, Presented, Moves, Retracts, Quiet, Sound, Kept, Job.Live,
         Job.Ended, C.UniqueSlots, C.Referential, C.Slots, C.StoredSlots, Brings, Between, Load;
    ghost var w := ds.Now();
    job.SetPhase(RETRACTING);
    var back := ds.Retract();
    ghost var b := ds.Now();
    if !back.Lost? { EjectPutBack(s, w, b, slot, timely, back); }
    if !back.Ok? {
      r := table.LogEvent(C.JobFailed, Some(discId), Some(slot));
      job.Fail(Some(discId));
      return;
    }
    r := PutAway(ds, table, job, discId, slot, s, timely);
    if old(ds.Plugged()) { BringsAfter(s, w, b, ds.Now(), 0, 0); }
  }

  /** It is back behind the mouth: home, and journalled. */
  method PutAway(ds: DiscStakka, table: C.Table, job: Job, discId: int, slot: int, ghost s: Sim, ghost timely: bool)
    returns (r: Outcome<()>)
    requires ds.Linked() && table.Valid() && job.Live() && discId in table.rows
    requires Ejects(s, ds.Now(), slot, false, timely)
    modifies ds, ds.io, ds.io.carousel, ds.io.clock, table, job
    ensures ds.Stays() && table.Valid() && table.rows == old(table.rows)
    ensures r.Ok? && job.Ended() && job.phase == FAILED && job.history == old(job.history) + [FAILED]
    ensures job.disc == Some(discId) && job.needsDetails == old(job.needsDetails)
    ensures table.journal == old(table.journal) + [C.Entry(Some(discId), Some(slot), C.Retracted)]
    ensures old(ds.Plugged()) ==>
              Ejects(s, ds.Now(), slot, false, timely) && EndsHome(s, ds.Now(), timely)
              && Brings(s, old(ds.Now()), ds.Now(), 0)
  {
    hide EndsHome, Ejects, Moves, Job.Live, Job.Ended, C.UniqueSlots, C.Referential, Brings, Sound, Between;
    ghost var b := ds.Now();
    ghost var parked := ds.Park();
    if !parked.Lost? { EjectParked(s, b, ds.Now(), slot, false, timely, parked); }
    r := table.LogEvent(C.Retracted, Some(discId), Some(slot));
    job.Fail(Some(discId));
  }

  // -- loading a disc ------------------------------------------------------

  /** Whether the catalogue will have the disc: it is known, or its slot is free for a new one. */
  predicate Welcome(rows: C.Rows, slot: int, discId: Option<int>) {
    if discId.Some? then discId.value in rows else SLOT_MIN <= slot <= SLOT_MAX && slot !in C.Slots(rows)
  }

  lemma WelcomeKnown(rows: C.Rows, slot: int, discId: Option<int>)
    requires Welcome(rows, slot, discId)
    ensures discId.Some? ==> discId.value in rows
  {
  }

  predicate NewRow(rows: C.Rows, after: C.Rows, slot: int, id: int) {
    id !in rows && after == rows[id := C.Row(slot, C.InSlot, C.UNTITLED)]
  }

  /** The catalogue with the disc stored: a known one marked, or a new row for the slot. */
  ghost predicate Catalogued(rows: C.Rows, after: C.Rows, slot: int, discId: Option<int>) {
    if discId.Some? then
      discId.value in rows && after == rows[discId.value := rows[discId.value].(status := C.InSlot)]
    else
      exists id: int :: NewRow(rows, after, slot, id)
  }

  /** The row it is kept under, and the one entry about it: a disc returned to its own slot, or one added. */
  ghost predicate Entered(rows: C.Rows, after: C.Rows, journal: seq<C.Entry>, entries: seq<C.Entry>, slot: int,
                          discId: Option<int>, id: int)
  {
    if discId.Some? then
      && id == discId.value && id in rows && after == rows[id := rows[id].(status := C.InSlot)]
      && entries == journal + [C.Entry(Some(id), Some(rows[id].slot), C.Returned)]
    else
      NewRow(rows, after, slot, id) && entries == journal + [C.Entry(Some(id), Some(slot), C.Added)]
  }

  /** The job says which row that is. */
  ghost predicate Reported(job: Job, rows: C.Rows, after: C.Rows, journal: seq<C.Entry>, entries: seq<C.Entry>,
                           slot: int, discId: Option<int>)
    reads job
  {
    job.disc.Some? && Entered(rows, after, journal, entries, slot, discId, job.disc.value)
  }

  /** Turns the slot to the mouth and prompts for a disc; whether one was seen. */
  method Invite(ds: DiscStakka, job: Job, slot: int, insert: Option<nat>) returns (r: Outcome<bool>)
    requires ds.Linked() && job.Live()
    modifies ds, ds.io, ds.io.carousel, ds.io.clock, job
    ensures ds.Stays() && (old(ds.Plugged()) ==> !r.Lost?) && job.Live()
    ensures job.disc == old(job.disc) && job.needsDetails == old(job.needsDetails)
    ensures r.Ok? ==> 0 <= slot <= 100 && job.history == old(job.history) + [MOVING, AWAITING_INSERT]
    ensures r.Failed? ==> Adds(old(ds.Now()), ds.Now(), slot, false) && Spurns(old(ds.Now()), ds.Now(), slot)
    ensures r.Failed? && Still(old(ds.Now())) ==> r.why != TimedOut
    ensures r.Ok? && InWindow(insert, INSERT_WINDOW_MS) ==>
              if r.value then Arriving(old(ds.Now()), ds.Now(), slot)
              else Adds(old(ds.Now()), ds.Now(), slot, false) && Spurns(old(ds.Now()), ds.Now(), slot)
    ensures r.Ok? && InWindow(insert, INSERT_WINDOW_MS) && Still(old(ds.Now())) ==> r.value == insert.Some?
    ensures r.Failed? && 0 <= slot <= 100 ==> Excused(old(ds.Now()), ds.Now())
    ensures r.Failed? || (r.Ok? && InWindow(insert, INSERT_WINDOW_MS)) ==>
              Brings(old(ds.Now()), old(ds.Now()), ds.Now(), 0)
    ensures r.Ok? ==> Invited(old(ds.Now()), ds.Now(), slot, insert, r.value)
    ensures r.Failed? && 0 <= slot <= 100 ==> !MoveRun(old(ds.Now()), MoveArgs(slot, false)).r.Ok?
  {
    hide Spurns, Adds, Arriving, Opened, Harmless, Moves, Awaits, Job.Live, Excused, Still, Between, Reaching, MoveRun,
         InsertRun;
    ghost var s := ds.Now();
    HarmlessSelf(s);
    HarmlessAdds(s, s, slot);
    job.SetPhase(MOVING);
    var moved := ds.MoveTo(slot);
    ghost var m := ds.Now();
    if !moved.Lost? && 0 <= slot <= 100 {
      AddMoved(s, m, slot, moved);
      if moved.Failed? { HarmlessAdds(s, m, slot); }
    }
    var _ :- moved;
    job.SetPhase(AWAITING_INSERT);
    r := AwaitInsert(ds, insert);
    if r.Ok? && InWindow(insert, INSERT_WINDOW_MS) { AddAwaited(s, m, ds.Now(), slot, insert, r.value); }
  }

  /** No disc went in. */
  method NobodyCame(ds: DiscStakka, table: C.Table, job: Job, slot: int, discId: Option<int>, ghost s: Sim)
    returns (r: Outcome<()>)
    requires ds.Linked() && table.Valid() && job.Live()
    modifies ds, ds.io, ds.io.carousel, ds.io.clock, table, job
    ensures ds.Stays() && table.Valid() && table.rows == old(table.rows) && !r.Lost?
    ensures if r.Ok? then job.Ended() && job.phase == FAILED else job.Live()
    ensures job.history == old(job.history) + if r.Ok? then [PARKING, FAILED] else [PARKING]
    ensures job.disc == old(job.disc) && job.needsDetails == old(job.needsDetails)
    ensures old(ds.Plugged()) && Adds(s, old(ds.Now()), slot, false) && Spurns(s, old(ds.Now()), slot) ==>
              Spurns(s, ds.Now(), slot)
    ensures old(ds.Plugged()) && Adds(s, old(ds.Now()), slot, false) ==>
              && Adds(s, ds.Now(), slot, false) && EndsHome(s, ds.Now(), slot !in Outlook(s.u).occupied)
              && Brings(s, old(ds.Now()), ds.Now(), 0)
    ensures table.journal
         == if r.Ok? then old(table.journal) + [C.Entry(discId, Some(slot), C.JobFailed)] else old(table.journal)
    ensures r.Ok? <==> discId.None? || discId.value in old(table.rows)
  {
    hide Spurns, EndsHome, Adds, Moves, Job.Live, Job.Ended, C.UniqueSlots, C.Referential, Brings, Sound, Between;
    ghost var x := ds.Now();
    job.SetPhase(PARKING);
    ghost var parked := ds.Park();
    if !parked.Lost? && Adds(s, x, slot, false) { AddParked(s, x, ds.Now(), slot, parked); }
    r := table.LogEvent(C.JobFailed, discId, Some(slot));
    if r.Ok? { job.Fail(); }
  }

  /** A disc that is in is written down. */
  method Enter(table: C.Table, slot: int, discId: Option<int>) returns (r: Outcome<int>)
    requires table.Valid()
    modifies table
    ensures table.Valid() && !r.Lost?
    ensures if Welcome(old(table.rows), slot, discId) then r.Ok? else !r.Ok?
    ensures if r.Ok? then Catalogued(old(table.rows), table.rows, slot, discId) else table.rows == old(table.rows)
    ensures if r.Ok? then Entered(old(table.rows), table.rows, old(table.journal), table.journal, slot, discId, r.value)
            else table.journal == old(table.journal)
  {
    hide C.UniqueSlots, C.Referential, C.StoredSlots;
    if discId.Some? {
      var _ :- table.Mark(discId.value, C.InSlot, C.Returned);
      r := Ok(discId.value);
    } else {
      r := table.CreateDisc(slot, C.UNTITLED);
      assert r.Ok? ==> NewRow(old(table.rows), table.rows, slot, r.value);
    }
  }

  /** Home, catalogued, and watched until the disc's own timer has run out. */
  method Finish(ds: DiscStakka, table: C.Table, job: Job, slot: int, discId: Option<int>, ghost s: Sim)
    returns (r: Outcome<()>)
    requires ds.Linked() && table.Valid() && job.Live()
    modifies ds, ds.io, ds.io.carousel, ds.io.clock, table, job
    ensures ds.Stays() && table.Valid() && !r.Lost?
    ensures if r.Ok? then job.Ended() && job.phase == DONE else job.Live() && job.phase == PARKING
    ensures if r.Ok? then Reported(job, old(table.rows), table.rows, old(table.journal), table.journal, slot, discId)
            else table.journal == old(table.journal) && job.disc == old(job.disc)
    ensures job.needsDetails == ((r.Ok? && discId.None?) || old(job.needsDetails))
    ensures job.history == old(job.history) + if r.Ok? then [PARKING, DONE] else [PARKING]
    ensures if Welcome(old(table.rows), slot, discId) then r.Ok? else !r.Ok?
    ensures if r.Ok? then Catalogued(old(table.rows), table.rows, slot, discId) else table.rows == old(table.rows)
    ensures old(ds.Plugged()) && TakenIn(s, old(ds.Now()), slot, old(ds.Now()).now + 9_900) && r.Ok? ==>
              && Adds(s, ds.Now(), slot, true) && EndsHome(s, ds.Now(), slot !in Outlook(s.u).occupied)
              && (Between(s) ==> Unarmed(ds.Now().u)) && Brings(s, old(ds.Now()), ds.Now(), 0)
  {
    hide Unarmed, Between, EndsHome, Adds, TakenIn, Job.Live, Job.Ended, C.UniqueSlots, C.Referential, Welcome,
         Catalogued, Entered, Quiet, Outlook, Sound, Kept, Brings, C.Slots, C.StoredSlots, Fresh, Good;
    ghost var g := ds.Now();
    ghost var until := g.now + 9_900;
    job.SetPhase(PARKING);
    BringHome(ds, slot, s, until);
    ghost var x := ds.Now();
    var id :- Enter(table, slot, discId);
    WatchLoaded(ds);
    if old(ds.Plugged()) && TakenIn(s, g, slot, until) { ParkedThenWatched(s, g, x, ds.Now(), slot, until); }
    job.Succeed(Some(id), discId.None?);
    r := Ok(());
  }

  /** Parked, with the disc in. */
  method BringHome(ds: DiscStakka, slot: int, ghost s: Sim, ghost until: int)
    requires ds.Linked()
    modifies ds, ds.io, ds.io.carousel, ds.io.clock
    ensures ds.Stays()
    ensures old(ds.Plugged()) && TakenIn(s, old(ds.Now()), slot, until) ==>
              && TakenIn(s, ds.Now(), slot, until) && EndsHome(s, ds.Now(), slot !in Outlook(s.u).occupied)
              && Brings(s, old(ds.Now()), ds.Now(), 0) && (Between(s) ==> Sound(ds.Now()))
  {
    hide Between, EndsHome, TakenIn, Moves, Quiet, Outlook, Sound, Kept, Brings, Good;
    ghost var g := ds.Now();
    ghost var parked := ds.Park();
    if !parked.Lost? && TakenIn(s, g, slot, until) { TakenInParked(s, g, ds.Now(), slot, until, parked); }
  }

  /**
   Loads a disc into `slot`: one on loan that comes back if `discId` names it, and
   otherwise a new one, given an untitled row once it is in.
   `loaded` is whether the unit was seen to take it in.
   */
  method RunAdd(ds: DiscStakka, table: C.Table, job: Job, slot: int, discId: Option<int>, insert: Option<nat>)
    returns (r: Outcome<()>, ghost loaded: bool)
    requires ds.Linked() && table.Valid() && job.Live()
    modifies ds, ds.io, ds.io.carousel, ds.io.clock, table, job
    ensures ds.Stays() && table.Valid()
    ensures if r.Ok? then job.Ended() else job.Live()
    ensures if job.phase == DONE then loaded && Catalogued(old(table.rows), table.rows, slot, discId)
            else table.rows == old(table.rows)
    ensures job.phase == DONE ==>
              && Reported(job, old(table.rows), table.rows, old(table.journal), table.journal, slot, discId)
              && job.history == old(job.history) + [MOVING, AWAITING_INSERT, INGESTING, PARKING, DONE]
    ensures job.phase == FAILED ==>
              && table.journal == old(table.journal) + [C.Entry(discId, Some(slot), C.JobFailed)]
              && job.history == old(job.history) + [MOVING, AWAITING_INSERT, PARKING, FAILED]
    ensures !r.Ok? ==> table.journal == old(table.journal)
    ensures job.phase != DONE ==> job.disc == old(job.disc)
    ensures job.needsDetails == ((job.phase == DONE && discId.None?) || old(job.needsDetails))
    ensures loaded && Welcome(old(table.rows), slot, discId) ==> job.phase == DONE
    ensures old(ds.Plugged()) && InWindow(insert, INSERT_WINDOW_MS) && (loaded ==> job.phase == DONE) ==>
              !r.Lost? && Adds(old(ds.Now()), ds.Now(), slot, loaded)
              && Brings(old(ds.Now()), old(ds.Now()), ds.Now(), 0)
    ensures old(ds.Plugged()) && InWindow(insert, INSERT_WINDOW_MS) && job.phase == DONE && Between(old(ds.Now())) ==>
              Unarmed(ds.Now().u)
    ensures old(ds.Plugged()) && InWindow(insert, INSERT_WINDOW_MS) && r.Ok? ==>
              EndsHome(old(ds.Now()), ds.Now(), slot !in Outlook(old(ds.Now()).u).occupied)
    ensures old(ds.Plugged()) && InWindow(insert, INSERT_WINDOW_MS) && Still(old(ds.Now()))
            && slot !in Outlook(old(ds.Now()).u).occupied && Welcome(old(table.rows), slot, discId)
            && 0 <= slot <= 100 ==>
              if r.Ok? then job.phase == DONE <==> insert.Some?
              else Excused(old(ds.Now()), ds.Now()) && (loaded || r != Failed(TimedOut))
    ensures old(ds.Plugged()) && LoadSlips(old(ds.Now()), slot, insert) ==>
              && !loaded && r == Failed(TimedOut) && 0 <= slot <= 100 && Claimed(ds.Now().u, slot)
              && job.history == old(job.history) + [MOVING, AWAITING_INSERT, INGESTING]
    ensures old(ds.Plugged()) && InWindow(insert, INSERT_WINDOW_MS) && !loaded ==>
              LoadSlips(old(ds.Now()), slot, insert) || Spurns(old(ds.Now()), ds.Now(), slot)
  {
    hide Unarmed, Between, Spurns, EndsHome, Excused, Still, Outlook, Adds, Arriving, Job.Live, Job.Ended,
         C.UniqueSlots, C.Referential, Welcome, Catalogued, Reported, Reaching, Brings, LoadSlips, Invited, MoveRun,
         IngestRun, Claimed;
    ghost var s := ds.Now();
    loaded := false;
    var seen := Invite(ds, job, slot, insert);
    job.LiveIsNotEnded();
    ghost var w := ds.Now();
    if seen.Failed? { UninvitedSlips(s, slot, insert); }
    if !seen.Ok? { return seen.PropagateFailure(), false; }
    InvitedSlips(s, w, slot, insert, seen.value);
    if !seen.value {
      r := NobodyCame(ds, table, job, slot, discId, s);
      if Welcome(old(table.rows), slot, discId) { WelcomeKnown(old(table.rows), slot, discId); }
      job.LiveIsNotEnded();
      if old(ds.Plugged()) && InWindow(insert, INSERT_WINDOW_MS) { BringsAfter(s, s, w, ds.Now(), 0, 0); }
      return;
    }
    r, loaded := TakeIn(ds, table, job, slot, discId, s);
    job.LiveIsNotEnded();
  }

  /** A disc is at the aperture: it goes in and is catalogued, or it is back out. */
  method TakeIn(ds: DiscStakka, table: C.Table, job: Job, slot: int, discId: Option<int>, ghost s: Sim)
    returns (r: Outcome<()>, ghost loaded: bool)
    requires ds.Linked() && table.Valid() && job.Live() && 0 <= slot <= 100
    modifies ds, ds.io, ds.io.carousel, ds.io.clock, table, job
    ensures ds.Stays() && table.Valid()
    ensures if r.Ok? then job.Ended() && job.phase == DONE else job.Live()
    ensures r.Ok? <==> loaded && Welcome(old(table.rows), slot, discId)
    ensures if r.Ok? then Catalogued(old(table.rows), table.rows, slot, discId) else table.rows == old(table.rows)
    ensures if r.Ok? then
              && Reported(job, old(table.rows), table.rows, old(table.journal), table.journal, slot, discId)
              && job.history == old(job.history) + [INGESTING, PARKING, DONE]
            else
              table.journal == old(table.journal) && job.disc == old(job.disc)
    ensures job.needsDetails == ((r.Ok? && discId.None?) || old(job.needsDetails))
    ensures old(ds.Plugged()) && Arriving(s, old(ds.Now()), slot) && (loaded ==> r.Ok?) ==>
              !r.Lost? && Adds(s, ds.Now(), slot, loaded) && Brings(s, s, ds.Now(), 0)
    ensures old(ds.Plugged()) && Arriving(s, old(ds.Now()), slot) && r.Ok? ==>
              EndsHome(s, ds.Now(), slot !in Outlook(s.u).occupied) && (Between(s) ==> Unarmed(ds.Now().u))
    ensures old(ds.Plugged()) && Arriving(s, old(ds.Now()), slot) && !loaded && slot !in Outlook(s.u).occupied ==>
              Excused(s, ds.Now()) && (Still(s) ==> r != Failed(TimedOut))
    ensures old(ds.Plugged()) ==>
              if loaded then IngestRun(old(ds.Now())).r.Ok? else IngestRun(old(ds.Now())) == Outturn(ds.Now(), r)
    ensures !loaded ==> job.history == old(job.history) + [INGESTING]
    ensures old(ds.Plugged()) && Arriving(s, old(ds.Now()), slot) && !loaded ==>
              Forsaken(old(ds.Now()), slot) || Spurns(s, ds.Now(), slot)
  {
    hide Unarmed, Between, Spurns, EndsHome, Excused, Still, Outlook, Adds, Arriving, TakenIn, Job.Live, Job.Ended,
         C.UniqueSlots, C.Referential, Welcome, Catalogued, Reported, Fed, TakesIn, Loads, IngestRun, Claimed,
         Reaching, Brings;
    ghost var w := ds.Now();
    loaded := false;
    job.SetPhase(INGESTING);
    r := ds.Ingest();
    ghost var g := ds.Now();
    if !r.Lost? && Arriving(s, w, slot) { AddIngested(s, w, g, slot, r); LoadExcused(s, g); }
    job.LiveIsNotEnded();
    if !r.Ok? { return; }
    loaded := true;
    r := Finish(ds, table, job, slot, discId, s);
    if old(ds.Plugged()) && Arriving(s, w, slot) && r.Ok? { BringsAfter(s, s, g, ds.Now(), 0, 0); }
    job.LiveIsNotEnded();
  }
}
