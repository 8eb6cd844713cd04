/**
 Jobs one after another against one unit and one catalogue: what the worker does
 with each, and what is true after all of them.
 */
module Service {
  import opened Wrappers
  import opened Geometry
  import opened Firmware
  import opened FirmwareLaws
  import opened Runs
  import opened Motions
  import opened MoveLaws
  import opened LoadLaws
  import opened FlowLaws
  import Courses
  import opened Simulator
  import opened Host
  import opened Jobs
  import opened Flows
  import C = Catalogue
  import S = Site

  /** What a person asks for, and what their hands do when prompted. */
  datatype Order =
    | Eject(disc: int, take: Option<nat>)
    | Add(slot: int, insert: Option<nat>)
    | Return(disc: int, insert: Option<nat>)
    | Reset
    | ClearBay
    | Tend
    | Probe

  // -- belief and fact -----------------------------------------------------

  /**
   Every disc in a slot is one the catalogue has there, and every disc it has in a
   slot is in it, but for one still in the bay in front of its own slot.
   */
  predicate Agrees(rows: C.Rows, c: Core) {
    && (forall slot | slot in c.occupied :: slot in C.StoredSlots(rows))
    && (forall slot | slot in C.StoredSlots(rows) :: slot in c.occupied || (c.bay && slot == c.position))
  }

  /** The catalogue can be believed: it agrees with a unit left to itself, whose discs all have room. */
  ghost predicate Trusted(rows: C.Rows, s: Sim) {
    Still(s) && Fitting(s.u) && Agrees(rows, Outlook(s.u))
  }

  lemma SameAgrees(rows: C.Rows, c: Core, d: Core)
    requires Agrees(rows, c) && Same(c, d)
    ensures Agrees(rows, d)
  {
  }

  lemma EjectAgrees(rows: C.Rows, s: Sim, t: Sim, id: int, taken: bool)
    requires C.UniqueSlots(rows) && id in rows && Trusted(rows, s) && Ejects(s, t, rows[id].slot, taken, true)
    ensures Trusted(if taken then TakenOut(rows, id) else rows, t) && Discs(t.u) == Discs(s.u)
    ensures BaySpared(s, t) && Drops(s.u.w, t.u.w)
  {
    hide Unlucky, Still, Between, Outlook, C.StoredSlots, C.Slots, C.UniqueSlots, Fitting, Discs;
    var c, d := Outlook(s.u), Outlook(t.u);
    if taken {
      C.MarkedIsMoved(rows, id, C.Out);
    } else if Same(c, d) {
      SameAgrees(rows, c, d);
    }
  }

  lemma AddAgrees(rows: C.Rows, after: C.Rows, s: Sim, t: Sim, slot: int, discId: Option<int>, loaded: bool)
    requires C.UniqueSlots(rows) && Trusted(rows, s) && Adds(s, t, slot, loaded) && slot !in C.StoredSlots(rows)
    requires if loaded then C.StoredSlots(after) == C.StoredSlots(rows) + {slot} else after == rows
    ensures Trusted(after, t) && Discs(t.u) == Discs(s.u)
    ensures BaySpared(s, t) && Drops(s.u.w, t.u.w)
  {
    hide Unlucky, Still, Between, Outlook, C.StoredSlots, C.Slots, C.UniqueSlots, Fitting, Discs;
    if !loaded { SameAgrees(rows, Outlook(s.u), Outlook(t.u)); }
  }

  lemma HarmlessAgrees(rows: C.Rows, s: Sim, t: Sim)
    requires Trusted(rows, s) && Harmless(s, t)
    ensures Trusted(rows, t) && Discs(t.u) == Discs(s.u)
    ensures BaySpared(s, t) && Drops(s.u.w, t.u.w)
  {
    hide Unlucky, Still, Between, Outlook, C.StoredSlots, Fitting, Discs;
    SameAgrees(rows, Outlook(s.u), Outlook(t.u));
  }

  /** What a catalogued disc does to the belief. */
  lemma CataloguedStores(rows: C.Rows, after: C.Rows, slot: int, discId: Option<int>)
    requires C.UniqueSlots(rows) && Welcome(rows, slot, discId) && Catalogued(rows, after, slot, discId)
    requires discId.Some? ==> rows[discId.value].slot == slot
    ensures C.StoredSlots(after) == C.StoredSlots(rows) + {slot}
  {
    hide C.StoredSlots, C.Slots;
    if discId.Some? {
      C.MarkedIsMoved(rows, discId.value, C.InSlot);
    } else {
      var id: int :| NewRow(rows, after, slot, id);
      C.AddedIsStored(rows, id, after[id]);
    }
  }

  // -- one job -------------------------------------------------------------

  /** What the pages let through. */
  predicate Accepted(rows: C.Rows, order: Order) {
    match order
    case Eject(disc, _) => disc in rows && rows[disc].status == C.InSlot
    case Return(disc, _) => disc in rows && rows[disc].status == C.Out
    case Add(slot, _) => SLOT_MIN <= slot <= SLOT_MAX && slot !in C.Slots(rows)
    case _ => true
  }

  /** Whether a job is made of it. */
  predicate IsJob(order: Order) { order.Eject? || order.Add? || order.Return? || order.Reset? }

  /** The page such a job is asked for on. */
  function PageOf(order: Order): S.Visit
    requires IsJob(order)
  {
    match order
    case Eject(disc, _) => S.VisitEject(disc)
    case Add(slot, _) => S.VisitAdd(slot)
    case Return(disc, _) => S.VisitReturn(disc)
    case Reset => S.VisitReset
  }

  /** The pages let through what the jobs can be accepted for, and nothing else. */
  lemma PagesAccept(rows: C.Rows, order: Order)
    requires IsJob(order)
    ensures Accepted(rows, order) <==> S.JobFor(rows, PageOf(order)).Some?
  {
    hide C.Slots;
    match order
    case Eject(_, _) => case Add(_, _) => case Return(_, _) => case Reset =>
  }

  /** What a job leaves of the catalogue: the one write the pages reckon with if it is done, and no change otherwise. */
  ghost predicate Writes(rows: C.Rows, after: C.Rows, order: Order, done: bool) {
    if done then
      && IsJob(order) && S.JobFor(rows, PageOf(order)).Some?
      && var w := S.World(rows, S.JobFor(rows, PageOf(order)));
         S.Visited(w, S.JobWrites, S.World(after, Some(w.job.value.(written := true))))
    else after == rows
  }

  lemma EjectWrites(rows: C.Rows, after: C.Rows, order: Order, done: bool)
    requires Accepted(rows, order) && order.Eject?
    requires after == if done then TakenOut(rows, order.disc) else rows
    ensures Writes(rows, after, order, done)
  {
  }

  lemma AddWrites(rows: C.Rows, after: C.Rows, order: Order, slot: int, discId: Option<int>, done: bool)
    requires Accepted(rows, order)
    requires (order.Add? && slot == order.slot && discId == None)
          || (order.Return? && discId == Some(order.disc) && slot == rows[order.disc].slot)
    requires if done then Catalogued(rows, after, slot, discId) else after == rows
    ensures Writes(rows, after, order, done)
  {
    hide C.Slots;
    if done && order.Add? {
      var id: int :| NewRow(rows, after, slot, id);
      assert S.Created(rows, after, C.Row(slot, C.InSlot, C.UNTITLED));
    }
  }

  lemma ResetWrites(rows: C.Rows, done: bool)
    ensures Writes(rows, rows, Reset, done)
  {
  }

  /** Discs are fed only while a job waits for one. */
  predicate FedWhenAsked(order: Order) {
    (order.Add? || order.Return?) ==> InWindow(order.insert, INSERT_WINDOW_MS)
  }

  /** And taken only while one is presented. */
  predicate Timely(order: Order) {
    FedWhenAsked(order) && (order.Eject? ==> InWindow(order.take, TAKE_WINDOW_MS))
  }

  /**
   What a job keeps: for any takes, that no disc is coming in; for timely ones, the
   belief, the discs and an empty bay.
   */
  ghost predicate Keeps(rows: C.Rows, s: Sim, after: C.Rows, t: Sim, order: Order) {
    && (FedWhenAsked(order) && Between(s) ==> Between(t))
    && (Timely(order) && Trusted(rows, s) ==> Trusted(after, t) && Discs(t.u) == Discs(s.u)
                                                 && BaySpared(s, t) && Drops(s.u.w, t.u.w))
  }

  // -- hands at any time ---------------------------------------------------

  /** One half of the belief: no slot that holds a disc, or is about to, is one the catalogue calls free. */
  ghost predicate Tucked(rows: C.Rows, s: Sim) {
    forall slot | Claimed(s.u, slot) :: slot as int in C.StoredSlots(rows)
  }

  /** How many hands an order sets to reach into the bay. */
  function HandsIn(order: Order): nat {
    match order
    case Eject(_, take) => HandsOf(take)
    case ClearBay => 1
    case _ => 0
  }

  /** A load that slips leaves its slot called free with its disc in it. */
  ghost predicate Slips(rows: C.Rows, s: Sim, order: Order) {
    Accepted(rows, order) && (order.Add? || order.Return?) && LoadSlips(s, SlotOf(rows, order), order.insert)
  }

  /** The slot a load is for. */
  function SlotOf(rows: C.Rows, order: Order): int
    requires Accepted(rows, order) && (order.Add? || order.Return?)
  {
    if order.Add? then order.slot else rows[order.disc].slot
  }

  /**
   What a job keeps with takes at any time whatever: every disc; and that half of
   the belief if and only if it is not a load that slips, which none does unless
   more hands than `MOST_HANDS` are yet to reach in when it begins.
   */
  ghost predicate Retains(rows: C.Rows, s: Sim, after: C.Rows, t: Sim, order: Order) {
    FedWhenAsked(order) && Between(s) ==>
      && Reaching(t.u) <= Reaching(s.u) + HandsIn(order)
      && (Slips(rows, s, order) ==> Reaching(s.u) > MOST_HANDS)
      && (Fitting(s.u) && Tucked(rows, s) ==>
            Fitting(t.u) && Discs(t.u) == Discs(s.u) && (Tucked(after, t) <==> !Slips(rows, s, order)))
  }

  lemma SecuresRetains(rows: C.Rows, s: Sim, after: C.Rows, t: Sim, order: Order, more: set<int>)
    requires Between(s) && Tucked(rows, s) ==> Secures(s, t, more)
    requires FedWhenAsked(order) ==> Brings(s, s, t, HandsIn(order))
    requires forall slot | slot in C.StoredSlots(rows) || slot in more :: slot in C.StoredSlots(after)
    requires FedWhenAsked(order) && Between(s) ==> !Slips(rows, s, order)
    ensures Retains(rows, s, after, t, order)
  {
    hide Between, Claimed, Fitting, Discs, Drops, C.StoredSlots, Reaching, Slips;
  }

  lemma HarmlessRetains(rows: C.Rows, s: Sim, t: Sim, order: Order)
    requires Harmless(s, t) && Brings(s, s, t, HandsIn(order)) && !order.Add? && !order.Return?
    ensures Retains(rows, s, rows, t, order)
  {
    hide Between, Prompt, Secures, Tracks, Outlook, C.StoredSlots, Tucked, Brings;
    SecuresRetains(rows, s, rows, t, order, {});
  }

  lemma EjectRetains(rows: C.Rows, s: Sim, t: Sim, order: Order, done: bool, timely: bool)
    requires C.UniqueSlots(rows) && Accepted(rows, order) && order.Eject?
    requires Ejects(s, t, rows[order.disc].slot, done, timely) && Brings(s, s, t, HandsIn(order))
    ensures Retains(rows, s, if done then TakenOut(rows, order.disc) else rows, t, order)
  {
    hide Between, Prompt, Outlook, C.StoredSlots, C.UniqueSlots, Claimed, Fitting, Discs, Drops, BaySpared, Reaching;
    var slot := rows[order.disc].slot;
    C.StoredIsHeld(rows, order.disc);
    if done {
      C.MarkedIsMoved(rows, order.disc, C.Out);
    } else {
      SecuresRetains(rows, s, rows, t, order, {slot});
    }
  }

  lemma AddRetains(rows: C.Rows, after: C.Rows, s: Sim, t: Sim, order: Order, slot: int, discId: Option<int>,
                   insert: Option<nat>, loaded: bool)
    requires C.UniqueSlots(rows) && Accepted(rows, order)
    requires (order.Add? && slot == order.slot && discId == None && insert == order.insert)
          || (order.Return? && discId == Some(order.disc) && slot == rows[order.disc].slot && insert == order.insert)
    requires if loaded then Catalogued(rows, after, slot, discId) else after == rows
    requires FedWhenAsked(order) ==> Adds(s, t, slot, loaded) && Brings(s, s, t, 0)
    requires LoadSlips(s, slot, insert) ==> !loaded && 0 <= slot < 256 && Claimed(t.u, slot)
    requires FedWhenAsked(order) && !loaded ==> LoadSlips(s, slot, insert) || Spurns(s, t, slot)
    ensures Retains(rows, s, after, t, order)
  {
    hide Between, Prompt, Outlook, C.StoredSlots, C.UniqueSlots, Claimed, Secures, BaySpared, Catalogued, C.Slots,
         Tracks, Fitting, Discs, Reaching, LoadSlips;
    if discId.Some? {
      C.NotStored(rows, discId.value);
      C.SlotInRange(rows, discId.value);
    } else {
      C.FreeIsNotStored(rows, slot);
    }
    if loaded { CataloguedStores(rows, after, slot, discId); }
    if FedWhenAsked(order) && Between(s) {
      if LoadSlips(s, slot, insert) {
        FewHandsNeverSlip(s, slot, insert);
        if Tucked(rows, s) { SlipUntucks(rows, s, t, slot); }
      } else {
        SecuresRetains(rows, s, after, t, order, if loaded then {slot} else {});
      }
    }
  }

  /** The slot of a load that slipped is called free with a disc in it; every other disc is accounted for. */
  lemma SlipUntucks(rows: C.Rows, s: Sim, t: Sim, slot: int)
    requires Between(s) && Tucked(rows, s) && 0 <= slot < 256 && slot !in C.StoredSlots(rows)
    requires SecuresFree(s, t, slot, {slot}) && Claimed(t.u, slot)
    ensures Fitting(s.u) ==> Fitting(t.u) && Discs(t.u) == Discs(s.u)
    ensures !Tucked(rows, t)
  {
    hide Between, Claimed, Fitting, Discs, Drops, C.StoredSlots, Claims;
  }

  lemma NothingRetains(rows: C.Rows, s: Sim, order: Order)
    requires !Accepted(rows, order)
    ensures Retains(rows, s, rows, s, order) && !Slips(rows, s, order)
  {
    hide Between, Fitting, Discs, Tucked, Reaching, LoadSlips;
  }

  lemma SlipsAreLoads(rows: C.Rows, s: Sim, order: Order)
    requires Slips(rows, s, order)
    ensures Accepted(rows, order) && (order.Add? || order.Return?)
  {
    hide LoadSlips;
  }

  // -- whether it is done --------------------------------------------------

  /** Whether the hands do their part. */
  predicate Asked(order: Order) {
    match order
    case Eject(_, take) => take.Some?
    case Add(_, insert) => insert.Some?
    case Return(_, insert) => insert.Some?
    case _ => true
  }

  /**
   A job that can be believed is done only if the hands did their part, and then
   the carousel is home, but for a disc in its bay or blips at every try of a
   command; and if they did, only those two can keep it from being done.
   */
  ghost predicate Delivers(rows: C.Rows, s: Sim, t: Sim, order: Order, done: bool) {
    Timely(order) && Trusted(rows, s) ==>
      (done ==> Asked(order) && HomeFrom(s, t)) && (Asked(order) && !done ==> Excused(s, t))
  }

  lemma EjectDelivers(rows: C.Rows, s: Sim, t: Sim, order: Order, ok: bool, done: bool)
    requires Accepted(rows, order) && order.Eject? && C.UniqueSlots(rows)
    requires done ==> ok && EndsHome(s, t, InWindow(order.take, TAKE_WINDOW_MS))
    requires Still(s) && InWindow(order.take, TAKE_WINDOW_MS) ==>
               if ok then done <==> rows[order.disc].slot in Outlook(s.u).occupied && order.take.Some?
               else Excused(s, t)
    ensures Delivers(rows, s, t, order, done)
  {
    hide Still, Fitting, Outlook, Unlucky, C.StoredSlots, HomeFrom;
    C.NotStored(rows, order.disc);
  }

  lemma AddDelivers(rows: C.Rows, s: Sim, t: Sim, order: Order, slot: int, discId: Option<int>, ok: bool, done: bool)
    requires Accepted(rows, order) && C.UniqueSlots(rows)
    requires (order.Add? && slot == order.slot && discId == None)
          || (order.Return? && discId == Some(order.disc) && slot == rows[order.disc].slot)
    requires done && InWindow(order.insert, INSERT_WINDOW_MS) ==> ok && EndsHome(s, t, slot !in Outlook(s.u).occupied)
    requires InWindow(order.insert, INSERT_WINDOW_MS) && Still(s) && slot !in Outlook(s.u).occupied
             && Welcome(rows, slot, discId) && 0 <= slot <= 100 ==>
               if ok then done <==> order.insert.Some? else Excused(s, t)
    ensures Delivers(rows, s, t, order, done)
  {
    hide Still, Fitting, Outlook, Unlucky, C.StoredSlots, Excused, HomeFrom;
    if discId.Some? { C.NotStored(rows, discId.value); } else { C.FreeIsNotStored(rows, slot); }
  }

  lemma ResetDelivers(rows: C.Rows, s: Sim, t: Sim, done: bool)
    requires if done then EndsHome(s, t, true) else Excused(s, t)
    ensures Delivers(rows, s, t, Reset, done)
  {
    hide Still, Fitting, Agrees, Excused, HomeFrom;
  }

  // -- what is written down ------------------------------------------------

  /** What a job is about: the disc and the slot it was asked for. */
  function DiscOf(order: Order): Option<int> { if order.Eject? || order.Return? then Some(order.disc) else None }

  function PlaceOf(rows: C.Rows, order: Order): Option<int>
    requires Accepted(rows, order)
  {
    match order
    case Eject(disc, _) => Some(rows[disc].slot)
    case Return(disc, _) => Some(rows[disc].slot)
    case Add(slot, _) => Some(slot)
    case _ => None
  }

  /**
   Exactly one entry more, for what the job was about and what became of it; `disc`
   is the row the job names, which for a disc just added is the new one.
   */
  ghost predicate Recorded(rows: C.Rows, after: C.Rows, journal: seq<C.Entry>, entries: seq<C.Entry>, order: Order,
                           done: bool, disc: Option<int>)
  {
    match order
    case Eject(id, _) =>
      && id in rows
      && var slot := Some(rows[id].slot);
         if done then disc == Some(id) && entries == journal + [C.Entry(Some(id), slot, C.Ejected)]
         else
           || entries == journal + [C.Entry(Some(id), slot, C.JobFailed)]
           || (disc == Some(id) && entries == journal + [C.Entry(Some(id), slot, C.Retracted)])
    case Return(id, _) =>
      && id in rows && (done ==> disc == Some(id))
      && entries == journal + [C.Entry(Some(id), Some(rows[id].slot), if done then C.Returned else C.JobFailed)]
    case Add(slot, _) =>
      if done then
        disc.Some? && NewRow(rows, after, slot, disc.value) && entries == journal + [C.Entry(disc, Some(slot), C.Added)]
      else
        disc.None? && entries == journal + [C.Entry(None, Some(slot), C.JobFailed)]
    case Reset => disc.None? && entries == journal + [C.Entry(None, None, if done then C.ResetDone else C.JobFailed)]
    case _ => entries == journal
  }

  /** What is written of a job that raised: a failure, unless its disc is no longer there to be named. */
  function Blamed(rows: C.Rows, disc: Option<int>, slot: Option<int>): seq<C.Entry> {
    if disc.None? || disc.value in rows then [C.Entry(disc, slot, C.JobFailed)] else []
  }

  lemma LoggedBlamed(rows: C.Rows, journal: seq<C.Entry>, entries: seq<C.Entry>, disc: Option<int>, slot: Option<int>)
    requires entries
          == if disc.None? || disc.value in rows then journal + [C.Entry(disc, slot, C.JobFailed)] else journal
    ensures entries == journal + Blamed(rows, disc, slot)
  {
  }

  /** For a job as the pages make them, that is the one entry there is. */
  lemma BlamedRecorded(rows: C.Rows, journal: seq<C.Entry>, order: Order, disc: Option<int>)
    requires Accepted(rows, order) && IsJob(order) && disc == None
    ensures Recorded(rows, rows, journal, journal + Blamed(rows, DiscOf(order), PlaceOf(rows, order)), order, false,
                     disc)
  {
    hide C.Slots;
  }

  lemma EjectRecorded(rows: C.Rows, after: C.Rows, journal: seq<C.Entry>, entries: seq<C.Entry>, order: Order,
                      done: bool, a: seq<(Byte, Args)>, b: seq<(Byte, Args)>)
    requires order.Eject? && order.disc in rows
    requires var slot := rows[order.disc].slot;
             if done then entries == journal + [C.Entry(Some(order.disc), Some(slot), C.Ejected)]
             else
               || entries == journal + [C.Entry(Some(order.disc), Some(slot), C.JobFailed)]
               || GaveBack(journal, entries, a, b, order.disc, slot)
    ensures Recorded(rows, after, journal, entries, order, done, Some(order.disc))
  {
    hide NoMoveAfterRetract;
  }

  lemma LoadRecorded(job: Job, rows: C.Rows, after: C.Rows, journal: seq<C.Entry>, entries: seq<C.Entry>, order: Order,
                     slot: int, discId: Option<int>)
    requires (order.Add? && slot == order.slot && discId == None)
          || (order.Return? && discId == Some(order.disc) && discId.value in rows && slot == rows[discId.value].slot)
    requires if job.phase == DONE then Reported(job, rows, after, journal, entries, slot, discId)
             else job.disc.None? && entries == journal + [C.Entry(discId, Some(slot), C.JobFailed)]
    ensures Recorded(rows, after, journal, entries, order, job.phase == DONE, job.disc)
  {
  }

  lemma ResetRecorded(rows: C.Rows, journal: seq<C.Entry>, entries: seq<C.Entry>)
    requires entries == journal + [C.Entry(None, None, C.ResetDone)]
    ensures Recorded(rows, rows, journal, entries, Reset, true, None)
  {
  }

  method Perform(ds: DiscStakka, table: C.Table, job: Job, order: Order)
    returns (r: Outcome<()>)
    requires ds.Linked() && table.Valid() && job.Live() && Accepted(table.rows, order) && IsJob(order)
    modifies ds, ds.io, ds.io.carousel, ds.io.clock, table, job
    ensures ds.Stays() && table.Valid()
    ensures if r.Ok? then job.Ended() else job.Live()
    ensures Writes(old(table.rows), table.rows, order, job.phase == DONE)
    ensures old(ds.Plugged()) ==>
              && Keeps(old(table.rows), old(ds.Now()), table.rows, ds.Now(), order)
              && Delivers(old(table.rows), old(ds.Now()), ds.Now(), order, job.phase == DONE)
              && Retains(old(table.rows), old(ds.Now()), table.rows, ds.Now(), order)
    ensures old(ds.Plugged()) && Slips(old(table.rows), old(ds.Now()), order) ==>
              r == Failed(TimedOut) && job.history == old(job.history) + [MOVING, AWAITING_INSERT, INGESTING]
    ensures r.Ok? && old(job.disc) == None ==>
              Recorded(old(table.rows), table.rows, old(table.journal), table.journal, order, job.phase == DONE,
                       job.disc)
    ensures !r.Ok? ==> table.journal == old(table.journal) && job.disc == old(job.disc)
    ensures job.needsDetails == ((order.Add? && job.phase == DONE) || old(job.needsDetails))
  {
    hide Recorded, Reported, GaveBack, Retains, Spurns, Writes, EndsHome, Delivers, Excused, Still, Ejects, Adds,
         Harmless, Keeps, Trusted, Between,
         C.UniqueSlots, C.Referential, C.Slots, C.StoredSlots, Job.Live, Job.Ended, Catalogued, Reaching, Brings,
         LoadSlips, Claimed;
    ghost var rows, journal, s := table.rows, table.journal, ds.Now();
    match order
    case Eject(disc, take) =>
      r := RunEject(ds, table, job, disc, take);
      job.LiveIsNotEnded();
      EjectWrites(rows, table.rows, order, job.phase == DONE);
      if r.Ok? {
        EjectRecorded(rows, table.rows, journal, table.journal, order, job.phase == DONE, old(ds.io.writes),
                      ds.io.writes);
      }
      EjectKeeps(rows, s, ds.Now(), order, job.phase == DONE);
      if old(ds.Plugged()) {
        EjectDelivers(rows, s, ds.Now(), order, r.Ok?, job.phase == DONE);
        EjectRetains(rows, s, ds.Now(), order, job.phase == DONE, InWindow(take, TAKE_WINDOW_MS));
      }
    case Add(slot, insert) =>
      ghost var loaded;
      r, loaded := RunAdd(ds, table, job, slot, None, insert);
      job.LiveIsNotEnded();
      AddWrites(rows, table.rows, order, slot, None, job.phase == DONE);
      if r.Ok? && old(job.disc) == None {
        LoadRecorded(job, rows, table.rows, journal, table.journal, order, slot, None);
      }
      if old(ds.Plugged()) {
        AddKeeps(rows, s, table.rows, ds.Now(), order, slot, None, loaded);
        AddDelivers(rows, s, ds.Now(), order, slot, None, r.Ok?, job.phase == DONE);
        AddRetains(rows, table.rows, s, ds.Now(), order, slot, None, insert, loaded);
      }
    case Return(disc, insert) =>
      ghost var loaded;
      r, loaded := RunAdd(ds, table, job, table.rows[disc].slot, Some(disc), insert);
      job.LiveIsNotEnded();
      AddWrites(rows, table.rows, order, rows[disc].slot, Some(disc), job.phase == DONE);
      if r.Ok? && old(job.disc) == None {
        LoadRecorded(job, rows, table.rows, journal, table.journal, order, rows[disc].slot, Some(disc));
      }
      if old(ds.Plugged()) {
        AddKeeps(rows, s, table.rows, ds.Now(), order, rows[disc].slot, Some(disc), loaded);
        AddDelivers(rows, s, ds.Now(), order, rows[disc].slot, Some(disc), r.Ok?, job.phase == DONE);
        AddRetains(rows, table.rows, s, ds.Now(), order, rows[disc].slot, Some(disc), insert, loaded);
      }
    case Reset =>
      r := RunReset(ds, table, job);
      job.LiveIsNotEnded();
      ResetWrites(rows, job.phase == DONE);
      if r.Ok? && old(job.disc) == None { ResetRecorded(rows, journal, table.journal); }
      ResetKeeps(rows, s, ds.Now(), order);
      if old(ds.Plugged()) {
        ResetDelivers(rows, s, ds.Now(), job.phase == DONE);
        HarmlessRetains(rows, s, ds.Now(), order);
      }
  }

  lemma EjectKeeps(rows: C.Rows, s: Sim, t: Sim, order: Order, done: bool)
    requires C.UniqueSlots(rows) && Accepted(rows, order) && order.Eject?
    ensures Ejects(s, t, rows[order.disc].slot, done, InWindow(order.take, TAKE_WINDOW_MS)) ==>
              Keeps(rows, s, if done then TakenOut(rows, order.disc) else rows, t, order)
  {
    hide Unlucky, Between, Still, C.UniqueSlots, Trusted;
    if Ejects(s, t, rows[order.disc].slot, done, InWindow(order.take, TAKE_WINDOW_MS)) {
      EjectBetween(s, t, rows[order.disc].slot, done, InWindow(order.take, TAKE_WINDOW_MS));
      if Timely(order) && Trusted(rows, s) { EjectAgrees(rows, s, t, order.disc, done); }
    }
  }

  lemma EjectBetween(s: Sim, t: Sim, slot: int, done: bool, timely: bool)
    requires Ejects(s, t, slot, done, timely)
    ensures Between(s) ==> Between(t)
  {
    hide Between, Still, Outlook;
  }

  lemma AddKeeps(rows: C.Rows, s: Sim, after: C.Rows, t: Sim, order: Order, slot: int, discId: Option<int>,
                 loaded: bool)
    requires C.UniqueSlots(rows) && Accepted(rows, order)
    requires (order.Add? && slot == order.slot && discId == None)
          || (order.Return? && discId == Some(order.disc) && slot == rows[order.disc].slot)
    requires if loaded then Catalogued(rows, after, slot, discId) else after == rows
    requires InWindow(order.insert, INSERT_WINDOW_MS) ==> Adds(s, t, slot, loaded)
    ensures Keeps(rows, s, after, t, order)
  {
    hide Unlucky, Between, Still, C.UniqueSlots, Trusted, Outlook, Catalogued, C.Slots, C.StoredSlots;
    if FedWhenAsked(order) {
      if Trusted(rows, s) {
        if discId.Some? { C.NotStored(rows, discId.value); } else { C.FreeIsNotStored(rows, slot); }
        if loaded { CataloguedStores(rows, after, slot, discId); }
        AddAgrees(rows, after, s, t, slot, discId, loaded);
      }
    }
  }

  lemma ResetKeeps(rows: C.Rows, s: Sim, t: Sim, order: Order)
    ensures Harmless(s, t) ==> Keeps(rows, s, rows, t, order)
  {
    hide Unlucky, Between, Still, Trusted, Outlook;
    if Harmless(s, t) && Trusted(rows, s) { HarmlessAgrees(rows, s, t); }
  }

  /**
   The worker's side of a job: the unit opened, the runner run, and whatever it
   raised turned into the job's failure. Every job ends, once, and is written down
   once: by its runner, or for it if that raised. One whose unit could not be opened
   has nothing to journal that in.
   */
  method RunOwned(ds: DiscStakka, table: C.Table, job: Job, order: Order)
    returns (ghost began: bool, ghost raised: bool)
    requires ds.Linked() && table.Valid() && job.Live() && Accepted(table.rows, order) && IsJob(order)
    modifies ds, ds.io, ds.io.carousel, ds.io.clock, table, job
    ensures ds.Stays() && table.Valid() && job.Ended()
    ensures Writes(old(table.rows), table.rows, order, job.phase == DONE)
    ensures old(ds.Plugged()) ==>
              && began
              && Keeps(old(table.rows), old(ds.Now()), table.rows, ds.Now(), order)
              && Delivers(old(table.rows), old(ds.Now()), ds.Now(), order, job.phase == DONE)
              && Retains(old(table.rows), old(ds.Now()), table.rows, ds.Now(), order)
    ensures old(ds.Plugged()) && Slips(old(table.rows), old(ds.Now()), order) ==>
              job.phase == FAILED && job.history == old(job.history) + [MOVING, AWAITING_INSERT, INGESTING, FAILED]
    ensures !began ==>
              && table.journal == old(table.journal) && job.disc == old(job.disc)
              && job.phase == FAILED && job.history == old(job.history) + [FAILED]
    ensures began && raised ==>
              && table.journal == old(table.journal) + Blamed(table.rows, job.discId, job.slot)
              && job.phase == FAILED && job.disc == old(job.disc)
    ensures began && !raised && old(job.disc) == None ==>
              Recorded(old(table.rows), table.rows, old(table.journal), table.journal, order, job.phase == DONE,
                       job.disc)
    ensures job.needsDetails == ((order.Add? && job.phase == DONE) || old(job.needsDetails))
  {
    hide Recorded, Blamed, Retains, Trusted, Timely, Writes, Delivers, Keeps, C.UniqueSlots, C.Referential, C.Slots,
         Job.Live, Job.Ended,
         Slips;
    var connected := ds.Open();
    began, raised := connected.Ok?, false;
    if !connected.Ok? {
      NothingWritten(table.rows, order);
      job.Fail();
      return;
    }
    var r := Perform(ds, table, job, order);
    job.LiveIsNotEnded();
    if !r.Ok? {
      raised := true;
      ghost var journal := table.journal;
      var _ := table.LogEvent(C.JobFailed, job.discId, job.slot);
      LoggedBlamed(table.rows, journal, table.journal, job.discId, job.slot);
      job.Fail();
    }
  }

  lemma NothingWritten(rows: C.Rows, order: Order)
    ensures Writes(rows, rows, order, false)
  {
  }

  // -- a disc stuck in the bay ---------------------------------------------

  /** A disc marked as taken out by hand, and written down as that. */
  ghost predicate Corrected(rows: C.Rows, after: C.Rows, journal: seq<C.Entry>, entries: seq<C.Entry>) {
    exists id: int ::
      && id in rows && rows[id].status == C.InSlot && after == TakenOut(rows, id)
      && entries == journal + [C.Entry(Some(id), Some(rows[id].slot), C.Manual)]
  }

  /**
   What the messages of a failed job ask for: the disc taken from the bay once the
   unit has stopped, and marked as taken out if the catalogue has it behind the mouth.
   */
  method ClearOut(ds: DiscStakka, table: C.Table)
    requires ds.Linked() && table.Valid()
    modifies ds, ds.io, ds.io.carousel, ds.io.clock, table
    ensures ds.Stays() && table.Valid()
    ensures old(ds.Plugged()) ==> Keeps(old(table.rows), old(ds.Now()), table.rows, ds.Now(), ClearBay)
    ensures old(ds.Plugged()) ==> Retains(old(table.rows), old(ds.Now()), table.rows, ds.Now(), ClearBay)
    ensures old(ds.Plugged()) && Trusted(old(table.rows), old(ds.Now())) ==> !Outlook(ds.Now().u).bay
    ensures Corrected(old(table.rows), table.rows, old(table.journal), table.journal)
            || (table.rows == old(table.rows) && table.journal == old(table.journal))
  {
    hide Retains, Keeps, C.UniqueSlots, C.Referential, C.Slots, C.StoredSlots, Waited, Sound, Kept, Presents, Poll,
         Sample, Shows, WaitRun, Load, AtRest, Good, Ages, Quiet, Outlook, Trusted, Brings;
    ghost var rows, s := table.rows, ds.Now();
    var idle := ds.WaitIdle();
    if !idle.Ok? { return; }
    ghost var w := ds.Now();
    if !idle.value {
      NeverStill(rows, s, w);
      return;
    }
    var out := ds.DiscInBay();
    if !out.Ok? { return; }
    ghost var p := ds.Now();
    WaitedForBay(rows, s, w, p);
    WaitedSecures(s, w, p);
    if !out.value { BringsMore(s, s, p, 0, 1); SecuresRetains(rows, s, rows, p, ClearBay, {}); }
    if !out.value { return; }
    var position := ds.io.carousel.position;
    var gone := AwaitTake(ds, Some(0));
    if !gone.Ok? { return; }
    ghost var t := ds.Now();
    var found := table.GetBySlot(position);
    if found.Some? && table.rows[found.value].status == C.InSlot {
      var _ := table.Mark(found.value, C.Out, C.Manual);
    }
    TakenFromBay(rows, s, p, t, gone.value, found, table.rows);
    TakenRetains(rows, s, p, t, gone.value, found, table.rows);
  }

  /** The unit has stopped where it was, and its bay has been looked into. */
  ghost predicate Waited(rows: C.Rows, s: Sim, p: Sim, out: bool) {
    && (Between(s) ==> Between(p))
    && (Trusted(rows, s) ==> Quiet(p) && Trusted(rows, p) && Tracks(s.u, p.u) && Outlook(p.u).bay == out)
  }

  lemma StayTrusted(rows: C.Rows, s: Sim, t: Sim)
    requires Trusted(rows, s) && Between(t) && Prompt(t) && Tracks(s.u, t.u) && Outlook(t.u) == Outlook(s.u)
    ensures Trusted(rows, t)
  {
    hide Between, Prompt, Outlook, Fitting, Discs;
  }

  lemma TracksKeeps(rows: C.Rows, s: Sim, t: Sim)
    requires Tracks(s.u, t.u) && Trusted(rows, s)
    ensures Fitting(t.u) && Discs(t.u) == Discs(s.u) && Drops(s.u.w, t.u.w)
  {
    hide Still, Outlook, Fitting, Discs;
  }

  /** A unit that never stops is not one left to itself; and then nobody reaches in. */
  lemma NeverStill(rows: C.Rows, s: Sim, w: Sim)
    requires (Sound(s) ==> Kept(s, w)) && Watch(w, false) == IdleRun(s, SETTLE_WAIT_MS) && s.now <= w.now
    ensures Keeps(rows, s, rows, w, ClearBay) && Retains(rows, s, rows, w, ClearBay)
    ensures !Trusted(rows, s)
  {
    hide Between, Prompt, Outlook, Fitting, Discs, WaitRun, Kept, Sound, Agrees, Tracks, Tucked, Retains, Claims,
         Reaching;
    KeptSecures(s, w);
    BetweenBrings(s, w);
    SecuresRetains(rows, s, rows, w, ClearBay, {});
    if Between(s) { SecuresParts(s, w, {}); }
    if Still(s) { SettleSame(s); }
  }

  lemma BetweenBrings(s: Sim, t: Sim)
    requires Sound(s) ==> Kept(s, t)
    ensures Brings(s, s, t, 0)
  {
    hide Between, Sound, Kept, Brings;
    if Between(s) { BetweenSound(s); KeptBrings(s, s, t); } else { NotBetween(s, t); }
  }

  lemma NotBetween(s: Sim, t: Sim)
    requires !Between(s)
    ensures Brings(s, s, t, 0)
  {
    hide Between;
  }

  /** Looked into at rest: a bay seen full has its disc out of the slot behind it. */
  ghost predicate Looked(s: Sim, p: Sim, out: bool) {
    && Secures(s, p, {}) && Brings(s, s, p, 0)
    && (Between(s) && Fitting(s.u) && out ==> !Claimed(p.u, p.u.m.position))
  }

  lemma WaitedSecures(s: Sim, w: Sim, p: Sim)
    requires (Sound(s) ==> Kept(s, w) && AtRest(w)) && p == Poll(w) && (Sound(w) ==> Kept(w, p))
             && s.now <= w.now <= p.now
    ensures Looked(s, p, !Shows(Sample(w), ST_DISC_IN_BAY, 0))
  {
    hide Between, Fitting, Poll, Sample, Shows, Kept, Sound, Tracks, Claimed, Outlook, Secures, AtRest, Brings;
    BetweenBrings(s, w);
    KeptSecures(s, w);
    SecuresSound(s, w, {});
    KeptBrings(s, w, p);
    BringsAfter(s, s, w, p, 0, 0);
    KeptSecures(w, p);
    SecuresStill(s, w, p, {});
    if Between(s) && Fitting(s.u) && !Shows(Sample(w), ST_DISC_IN_BAY, 0) {
      BetweenSound(s);
      SecuresParts(s, w, {});
      FittingStill(s.u, w.u);
      SeenOut(w);
      RestsWhere(w);
    }
  }

  lemma RestsWhere(w: Sim)
    requires AtRest(w)
    ensures Poll(w).u.m.position == Outlook(Poll(w).u).position
  {
    hide Good, Fresh, Poll, Ages, Outlook, Claimed, Moving;
    PollPasses(w);
    AgesCalm(w.u, Poll(w).u);
    NoMotionArrived(Poll(w).u);
  }

  lemma TakenRetains(rows: C.Rows, s: Sim, p: Sim, t: Sim, gone: bool, found: Option<int>, after: C.Rows)
    requires C.UniqueSlots(rows) && Looked(s, p, true) && Presents(p, t, Some(0), gone)
    requires found.Some? <==> p.u.m.position in C.Slots(rows)
    requires found.Some? ==> found.value in rows && rows[found.value].slot == p.u.m.position
    requires after == if found.Some? && rows[found.value].status == C.InSlot then TakenOut(rows, found.value) else rows
    ensures Retains(rows, s, after, t, ClearBay)
  {
    hide Between, Prompt, Outlook, Fitting, Discs, Quiet, Good, C.UniqueSlots, C.Slots, C.StoredSlots, Claimed, Drops,
         Accounted, Reaching, Sound, Secures;
    PresentsSecures(p, t, Some(0), gone);
    SecuresStill(s, p, t, {});
    SecuresSound(s, p, {});
    PresentsBrings(s, p, t, Some(0), gone);
    BringsAfter(s, s, p, t, 0, 1);
    if after == rows {
      SecuresRetains(rows, s, rows, t, ClearBay, {});
    } else {
      C.MarkedIsMoved(rows, found.value, C.Out);
      if Between(s) { SecuresParts(s, p, {}); SecuresParts(s, t, {}); SecuresParts(p, t, {}); }
      if Between(s) && Fitting(s.u) { FittingStill(s.u, t.u); TracksDiscs(s.u, t.u); }
    }
  }

  lemma TracksDiscs(u: Unit, v: Unit)
    requires Tracks(u, v) && Fitting(u)
    ensures Fitting(v) && Discs(v) == Discs(u)
  {
    hide Fitting, Discs, Drops;
  }

  lemma WaitedForBay(rows: C.Rows, s: Sim, w: Sim, p: Sim)
    requires Sound(s) ==> Kept(s, w)
    requires Watch(w, true) == IdleRun(s, SETTLE_WAIT_MS)
    requires p == Poll(w) && (Sound(w) ==> Kept(w, p)) && s.now <= w.now <= p.now
    ensures Waited(rows, s, p, !Shows(Sample(w), ST_DISC_IN_BAY, 0))
    ensures Shows(Sample(w), ST_DISC_IN_BAY, 0) ==> Keeps(rows, s, rows, p, ClearBay)
    ensures Trusted(rows, s) && Shows(Sample(w), ST_DISC_IN_BAY, 0) ==> !Outlook(p.u).bay
  {
    hide Unlucky, Between, Prompt, Outlook, Fitting, Discs, Quiet, Poll, WaitRun, Sample, Shows, Kept, Sound,
         Accounted, Tracks, Drops, Agrees, OnlyBlips;
    if Between(s) {
      BetweenSound(s);
      KeptBetween(s, w);
      BetweenSound(w);
      KeptBetween(w, p);
    }
    if Trusted(rows, s) {
      StillSound(s);
      SettleSame(s);
      PollSame(w);
      SameQuiet(s, w);
      QuietSample(w);
      QuietGood(p);
      KeptTracks(s, w);
      KeptTracks(w, p);
      TracksTransitive(s.u, w.u, p.u);
      StayTrusted(rows, s, p);
      TracksKeeps(rows, s, p);
    }
  }

  lemma BayRoom(p: Sim)
    requires Quiet(p) && Outlook(p.u).bay && Fitting(p.u)
    ensures p.u.m.position == Outlook(p.u).position && p.u.m.position !in Outlook(p.u).occupied
    ensures Good(p.u)
  {
    hide Good, Fresh, NoMotion, Outlook, Tally;
  }

  lemma ClearedAgrees(rows: C.Rows, after: C.Rows, c: Core, found: Option<int>)
    requires C.UniqueSlots(rows) && Agrees(rows, c) && c.position !in c.occupied
    requires found.Some? <==> c.position in C.Slots(rows)
    requires found.Some? ==> found.value in rows && rows[found.value].slot == c.position
    requires after == if found.Some? && rows[found.value].status == C.InSlot then TakenOut(rows, found.value) else rows
    ensures Agrees(after, c.(bay := false))
  {
    hide C.UniqueSlots, C.Slots, C.StoredSlots;
    if found.Some? {
      C.NotStored(rows, found.value);
      C.MarkedIsMoved(rows, found.value, C.Out);
    } else {
      C.FreeIsNotStored(rows, c.position);
    }
  }

  lemma TakenFromBay(rows: C.Rows, s: Sim, p: Sim, t: Sim, gone: bool, found: Option<int>, after: C.Rows)
    requires C.UniqueSlots(rows) && Waited(rows, s, p, true) && Presents(p, t, Some(0), gone)
    requires found.Some? <==> p.u.m.position in C.Slots(rows)
    requires found.Some? ==> found.value in rows && rows[found.value].slot == p.u.m.position
    requires after == if found.Some? && rows[found.value].status == C.InSlot then TakenOut(rows, found.value) else rows
    ensures Keeps(rows, s, after, t, ClearBay)
    ensures Trusted(rows, s) ==> !Outlook(t.u).bay
  {
    hide Tracks, Drops, Unlucky, Between, Prompt, Outlook, Fitting, Discs, Quiet, Good, C.UniqueSlots, C.Slots,
         C.StoredSlots, Agrees;
    if Trusted(rows, s) {
      BayRoom(p);
      TracksTransitive(s.u, p.u, t.u);
      TracksKeeps(rows, s, p);
      TracksKeeps(rows, s, t);
      ClearedAgrees(rows, after, Outlook(p.u), found);
    }
  }

  // -- between jobs --------------------------------------------------------

  lemma TalkedHarmless(s: Sim, t: Sim)
    requires Talked(s, t) && s.now <= t.now
    ensures Harmless(s, t)
  {
    hide Unlucky, Good, Ages, Quiet, Outlook, Prompt, Kept, OnlyBlips, Accounted;
    if Between(s) { KeptBetween(s, t); }
  }

  lemma TalkedBrings(s: Sim, t: Sim, n: nat)
    requires Talked(s, t)
    ensures Brings(s, s, t, n)
  {
    hide Between, Good, Ages, Quiet, Outlook, Prompt, Reaching, OnlyBlips, Sound;
    if Between(s) { BetweenSound(s); TalkedReaching(s, t); }
  }

  lemma TalkedReaching(s: Sim, t: Sim)
    requires Talked(s, t) && Good(s.u)
    ensures Reaching(t.u) <= Reaching(s.u)
  {
    hide Good, Ages, Quiet, Outlook, Prompt, Reaching, OnlyBlips;
    AgesReaching(s.u, t.u);
  }

  lemma TalkedKeeps(rows: C.Rows, s: Sim, t: Sim, order: Order)
    requires Talked(s, t) && s.now <= t.now && (order.Tend? || order.Probe?)
    ensures Keeps(rows, s, rows, t, order) && Retains(rows, s, rows, t, order)
  {
    hide Talked, Keeps, Retains, Harmless, Brings;
    TalkedHarmless(s, t);
    TalkedBrings(s, t, HandsIn(order));
    HarmlessRetains(rows, s, t, order);
    ResetKeeps(rows, s, t, order);
  }

  /** One pass of the keeper: a unit on the bus that does not answer is opened. */
  method TendUnit(ds: DiscStakka, ghost rows: C.Rows)
    requires ds.Linked()
    modifies ds, ds.io, ds.io.carousel, ds.io.clock
    ensures ds.Stays()
    ensures old(ds.Plugged()) ==> Keeps(rows, old(ds.Now()), rows, ds.Now(), Tend)
    ensures old(ds.Plugged()) ==> Retains(rows, old(ds.Now()), rows, ds.Now(), Tend)
    ensures old(ds.io.present) && ds.io.unplugAt.None? && old(ds.io.failOpens) < 3 ==> ds.Plugged()
  {
    hide Talked, Retains, Keeps;
    ghost var s := ds.Now();
    var alive := false;
    if ds.isOpen { alive := ds.Alive(); }
    if !alive && ds.io.present {
      var _ := ds.Open();
    }
    if old(ds.Plugged()) { TalkedKeeps(rows, s, ds.Now(), Tend); }
  }

  /** The diagnostics page: the status and, unless that would clear an error worth seeing, the position. */
  method ProbeUnit(ds: DiscStakka, ghost rows: C.Rows) returns (r: Outcome<bv16>, position: Option<bv8>)
    requires ds.Linked()
    modifies ds, ds.io, ds.io.carousel, ds.io.clock
    ensures ds.Stays()
    ensures old(ds.Plugged()) ==> Keeps(rows, old(ds.Now()), rows, ds.Now(), Probe)
    ensures old(ds.Plugged()) ==> Retains(rows, old(ds.Now()), rows, ds.Now(), Probe)
    ensures old(ds.Plugged()) && r.Ok? ==> r.value == Sample(old(ds.Now()))
    ensures old(ds.Plugged()) && Shows(Sample(old(ds.Now())), ST_ACK_TIMEOUT, ST_ACK_TIMEOUT) ==>
              r.Ok? && Wrote(old(ds.io.writes), ds.io.writes, CMD_REQUEST_STATE)
    ensures r.Ok? ==> (position.None? <==> Shows(r.value, ST_ACK_TIMEOUT, ST_ACK_TIMEOUT))
    ensures r.Ok? && position.Some? ==> Tells(old(ds.io.clock.ms), ds.Now(), position.value)
  {
    hide Wrote, Talked, Retains, Keeps, Poll, Sound, Kept, Sample, Tells;
    ghost var s := ds.Now();
    position := None;
    var found := ds.Open();
    if !found.Ok? { return found.PropagateFailure(), None; }
    ghost var o := ds.Now();
    r := ds.Status();
    if !r.Ok? { return; }
    ghost var p := ds.Now();
    PolledTalked(o, p);
    TimeoutShows(r.value);
    if Shows(r.value, ST_ACK_TIMEOUT, 0) {
      var told := ds.Position();
      if !told.Lost? { TalkedTransitive(o, p, ds.Now()); }
      if told.Ok? {
        TellsSince(s.now, p.now, ds.Now(), told.value);
        position := Some(told.value);
      } else { r := told.PropagateFailure(); }
    }
    if old(ds.Plugged()) { TalkedKeeps(rows, s, ds.Now(), Probe); }
  }

  lemma TimeoutShows(word: bv16)
    ensures Shows(word, ST_ACK_TIMEOUT, ST_ACK_TIMEOUT) <==> !Shows(word, ST_ACK_TIMEOUT, 0)
  {
  }

  lemma PolledTalked(o: Sim, p: Sim)
    requires p == Poll(o)
    ensures Talked(o, p)
  {
    hide Talked, CommandRun;
    CommandTalked(o, CMD_REQUEST_STATE, NO_ARGS);
  }

  // -- any number of jobs --------------------------------------------------

  /** A request as the pages handle it: a job for it if it is let through, and the worker runs it. */
  method Serve(ds: DiscStakka, table: C.Table, id: string, order: Order)
    returns (job: Option<Job>)
    requires ds.Linked() && table.Valid()
    modifies ds, ds.io, ds.io.carousel, ds.io.clock, table
    ensures ds.Stays() && table.Valid()
    ensures job.Some? <==> Accepted(old(table.rows), order) && IsJob(order)
    ensures job.Some? ==> fresh(job.value) && job.value.Ended() && job.value.id == id
    ensures !Accepted(old(table.rows), order) ==> ds.Now() == old(ds.Now()) && table.rows == old(table.rows)
    ensures job.Some? ==> Writes(old(table.rows), table.rows, order, job.value.phase == DONE)
    ensures old(ds.Plugged()) ==>
              && Keeps(old(table.rows), old(ds.Now()), table.rows, ds.Now(), order)
              && Retains(old(table.rows), old(ds.Now()), table.rows, ds.Now(), order)
    ensures old(ds.Plugged()) && Slips(old(table.rows), old(ds.Now()), order) ==> job.Some? && job.value.phase == FAILED
    ensures old(ds.Plugged()) && job.Some? ==>
              Delivers(old(table.rows), old(ds.Now()), ds.Now(), order, job.value.phase == DONE)
    ensures job.Some? ==>
              && job.value.discId == DiscOf(order) && job.value.slot == PlaceOf(old(table.rows), order)
              && job.value.needsDetails == (order.Add? && job.value.phase == DONE)
              && (Recorded(old(table.rows), table.rows, old(table.journal), table.journal, order,
                           job.value.phase == DONE, job.value.disc)
                  || (!old(ds.Plugged()) && job.value.phase == FAILED && table.journal == old(table.journal)))
    ensures job.None? || old(ds.Plugged()) ==>
              Journals(old(table.rows), table.rows, old(table.journal), table.journal, order,
                       if job.Some? then Some(job.value.phase == DONE) else None)
  {
    hide Recorded, Corrected, Retains, Trusted, Timely, Writes, Delivers, Keeps, C.UniqueSlots, C.Referential,
         C.Slots, Job.Live, Job.Ended,
         Slips;
    NothingKeeps(table.rows, ds.Now(), order);
    if !Accepted(table.rows, order) {
      NothingRetains(table.rows, ds.Now(), order);
      return None;
    }
    if Slips(table.rows, ds.Now(), order) { SlipsAreLoads(table.rows, ds.Now(), order); }
    if !IsJob(order) {
      match order {
        case ClearBay => ClearOut(ds, table);
        case Tend => TendUnit(ds, table.rows);
        case Probe => var _, _ := ProbeUnit(ds, table.rows);
      }
      return None;
    }
    var accepted := new Job(id, DiscOf(order), PlaceOf(table.rows, order));
    ghost var rows, journal := table.rows, table.journal;
    ghost var began, raised := RunOwned(ds, table, accepted, order);
    if began && raised {
      BlamedRecorded(rows, journal, order, accepted.disc);
      NotDone(rows, table.rows, order);
    }
    job := Some(accepted);
  }

  lemma NotDone(rows: C.Rows, after: C.Rows, order: Order)
    requires Writes(rows, after, order, false)
    ensures after == rows
  {
  }

  lemma NothingKeeps(rows: C.Rows, s: Sim, order: Order)
    ensures Keeps(rows, s, rows, s, order)
  {
  }

  /** What one request adds to the journal: one entry for a job, and for a bay cleared out at most one. */
  ghost predicate Journals(rows: C.Rows, after: C.Rows, journal: seq<C.Entry>, entries: seq<C.Entry>, order: Order,
                           done: Option<bool>)
  {
    if done.Some? then exists disc :: Recorded(rows, after, journal, entries, order, done.value, disc)
    else entries == journal || (order.ClearBay? && Corrected(rows, after, journal, entries))
  }

  /** The catalogue and the unit between two requests. */
  datatype Moment = Moment(rows: C.Rows, journal: seq<C.Entry>, s: Sim)

  /** What one request comes to, and whether a job of it was done. */
  ghost predicate Served(m: Moment, order: Order, after: Moment, done: Option<bool>) {
    && (done.Some? <==> Accepted(m.rows, order) && IsJob(order))
    && Keeps(m.rows, m.s, after.rows, after.s, order)
    && Retains(m.rows, m.s, after.rows, after.s, order)
    && (Slips(m.rows, m.s, order) ==> done == Some(false))
    && Journals(m.rows, after.rows, m.journal, after.journal, order, done)
    && (done.Some? ==>
       Writes(m.rows, after.rows, order, done.value) && Delivers(m.rows, m.s, after.s, order, done.value))
  }

  ghost predicate Day(moments: seq<Moment>, orders: seq<Order>, done: seq<Option<bool>>) {
    && |moments| == |orders| + 1 && |done| == |orders|
    && forall k | 0 <= k < |orders| :: Served(moments[k], orders[k], moments[k + 1], done[k])
  }

  /** Whether the request is a load that slips, as the moment it is made at decides. */
  ghost predicate Slipped(moments: seq<Moment>, orders: seq<Order>, k: nat)
    requires k < |orders| < |moments|
  {
    Slips(moments[k].rows, moments[k].s, orders[k])
  }

  /**
   If discs are fed only when asked for, the unit never once turns with one in its
   bay, whenever hands take theirs.
   */
  lemma {:induction false} DaySafe(moments: seq<Moment>, orders: seq<Order>, done: seq<Option<bool>>, k: nat)
    requires Day(moments, orders, done) && k <= |orders| && Between(moments[0].s)
    requires forall i | 0 <= i < |orders| :: FedWhenAsked(orders[i])
    ensures Between(moments[k].s) && NeverTurnedLoaded(moments[k].s.u.w.log)
  {
    hide Retains, Between, Trusted, Accepted, Delivers, Discs, Timely, FedWhenAsked, NeverTurnedLoaded;
    if k > 0 {
      DaySafe(moments, orders, done, k - 1);
      assert Served(moments[k - 1], orders[k - 1], moments[k], done[k - 1]);
    }
    BetweenNeverTurned(moments[k].s);
  }

  /**
   If they are taken only when presented too, the catalogue can be believed
   throughout, and no disc is unaccounted for.
   */
  lemma {:induction false} DayBelieved(moments: seq<Moment>, orders: seq<Order>, done: seq<Option<bool>>, k: nat)
    requires Day(moments, orders, done) && k <= |orders| && Trusted(moments[0].rows, moments[0].s)
    requires forall i | 0 <= i < |orders| :: Timely(orders[i])
    ensures Trusted(moments[k].rows, moments[k].s) && Discs(moments[k].s.u) == Discs(moments[0].s.u)
  {
    hide Retains, Between, Trusted, Accepted, Delivers, Discs, Timely, FedWhenAsked;
    if k > 0 {
      DayBelieved(moments, orders, done, k - 1);
      assert Served(moments[k - 1], orders[k - 1], moments[k], done[k - 1]);
    }
  }

  /**
   With takes at any time whatever, no disc is ever unaccounted for and, so long as
   no load slips, no slot that holds one is called free.
   */
  lemma {:induction false} DayRetains(moments: seq<Moment>, orders: seq<Order>, done: seq<Option<bool>>, k: nat)
    requires Day(moments, orders, done) && k <= |orders|
    requires Between(moments[0].s) && Fitting(moments[0].s.u) && Tucked(moments[0].rows, moments[0].s)
    requires forall i | 0 <= i < |orders| :: FedWhenAsked(orders[i])
    requires forall i | 0 <= i < k :: !Slipped(moments, orders, i)
    ensures Between(moments[k].s) && Fitting(moments[k].s.u) && Tucked(moments[k].rows, moments[k].s)
    ensures Discs(moments[k].s.u) == Discs(moments[0].s.u)
  {
    hide Between, Trusted, Accepted, Delivers, Discs, Timely, FedWhenAsked, Tucked, Fitting, Writes, Reaching, Slips;
    if k > 0 {
      DayRetains(moments, orders, done, k - 1);
      assert !Slipped(moments, orders, k - 1);
      assert Served(moments[k - 1], orders[k - 1], moments[k], done[k - 1]);
    }
  }

  /**
   And only so long: no slot that holds a disc is called free up to a moment if and
   only if no load slips before it.
   */
  lemma {:induction false} DayExactly(moments: seq<Moment>, orders: seq<Order>, done: seq<Option<bool>>, k: nat)
    requires Day(moments, orders, done) && k <= |orders|
    requires Between(moments[0].s) && Fitting(moments[0].s.u) && Tucked(moments[0].rows, moments[0].s)
    requires forall i | 0 <= i < |orders| :: FedWhenAsked(orders[i])
    ensures (forall i | 0 <= i <= k :: Tucked(moments[i].rows, moments[i].s))
       <==> (forall i | 0 <= i < k :: !Slipped(moments, orders, i))
  {
    hide Between, Trusted, Accepted, Delivers, Discs, Timely, FedWhenAsked, Tucked, Fitting, Writes, Reaching, Slips,
         Keeps;
    if k > 0 {
      DayExactly(moments, orders, done, k - 1);
      var slipped := Slipped(moments, orders, k - 1);
      if forall i | 0 <= i < k - 1 :: !Slipped(moments, orders, i) {
        DayRetains(moments, orders, done, k - 1);
        assert Served(moments[k - 1], orders[k - 1], moments[k], done[k - 1]);
      }
    }
  }

  // -- how many hands that takes -------------------------------------------

  /** How many hands the first `k` requests set to reach in. */
  function HandsBy(orders: seq<Order>, k: nat): nat
    requires k <= |orders|
  {
    if k == 0 then 0 else HandsBy(orders, k - 1) + HandsIn(orders[k - 1])
  }

  /** No load can find more hands about than it can bear, even if none has reached in by then. */
  predicate FewHands(pending: nat, orders: seq<Order>) {
    forall k | 0 <= k < |orders| && (orders[k].Add? || orders[k].Return?) :: pending + HandsBy(orders, k) <= MOST_HANDS
  }

  lemma {:induction false} DayHands(moments: seq<Moment>, orders: seq<Order>, done: seq<Option<bool>>, k: nat)
    requires Day(moments, orders, done) && k <= |orders| && Between(moments[0].s)
    requires forall i | 0 <= i < |orders| :: FedWhenAsked(orders[i])
    ensures Reaching(moments[k].s.u) <= Reaching(moments[0].s.u) + HandsBy(orders, k)
  {
    hide Between, Keeps, Trusted, Accepted, Delivers, Discs, FedWhenAsked, Tucked, Fitting, Writes, Reaching, Slips,
         HandsIn;
    if k > 0 {
      DaySafe(moments, orders, done, k - 1);
      DayHands(moments, orders, done, k - 1);
      assert Served(moments[k - 1], orders[k - 1], moments[k], done[k - 1]);
    }
  }

  /** A load that finds no more hands about than `MOST_HANDS` does not slip. */
  lemma FewHandsHold(moments: seq<Moment>, orders: seq<Order>, done: seq<Option<bool>>, k: nat)
    requires Day(moments, orders, done) && k < |orders| && Between(moments[0].s)
    requires forall i | 0 <= i < |orders| :: FedWhenAsked(orders[i])
    requires orders[k].Add? || orders[k].Return? ==> Reaching(moments[k].s.u) <= MOST_HANDS
    ensures !Slipped(moments, orders, k)
  {
    hide Between, Keeps, Trusted, Delivers, Discs, FedWhenAsked, Tucked, Fitting, Writes, Reaching, Slips;
    if Slipped(moments, orders, k) { SlipsAreLoads(moments[k].rows, moments[k].s, orders[k]); }
    DaySafe(moments, orders, done, k);
    assert Served(moments[k], orders[k], moments[k + 1], done[k]);
  }

  /**
   So with takes at any time whatever, if at no load more than `MOST_HANDS` of
   them can be still to come, no slot that holds a disc is ever called free.
   */
  lemma DayTucked(moments: seq<Moment>, orders: seq<Order>, done: seq<Option<bool>>, k: nat)
    requires Day(moments, orders, done) && k <= |orders|
    requires Between(moments[0].s) && Fitting(moments[0].s.u) && Tucked(moments[0].rows, moments[0].s)
    requires forall i | 0 <= i < |orders| :: FedWhenAsked(orders[i])
    requires FewHands(Reaching(moments[0].s.u), orders)
    ensures Tucked(moments[k].rows, moments[k].s) && Discs(moments[k].s.u) == Discs(moments[0].s.u)
  {
    hide Day, Between, Discs, FedWhenAsked, Tucked, Fitting, Reaching, HandsBy;
    DayLengths(moments, orders, done);
    forall i | 0 <= i < k ensures !Slipped(moments, orders, i) {
      DayHands(moments, orders, done, i);
      FewHandsHold(moments, orders, done, i);
    }
    DayRetains(moments, orders, done, k);
  }

  lemma DayLengths(moments: seq<Moment>, orders: seq<Order>, done: seq<Option<bool>>)
    requires Day(moments, orders, done)
    ensures |moments| == |orders| + 1 && |done| == |orders|
  {
    hide Served;
  }

  /** How many of the first `k` requests were jobs. */
  function JobsBy(done: seq<Option<bool>>, k: nat): nat
    requires k <= |done|
  {
    if k == 0 then 0 else JobsBy(done, k - 1) + if done[k - 1].Some? then 1 else 0
  }

  /** And how many had the bay cleared out. */
  function ClearsBy(orders: seq<Order>, k: nat): nat
    requires k <= |orders|
  {
    if k == 0 then 0 else ClearsBy(orders, k - 1) + if orders[k - 1].ClearBay? then 1 else 0
  }

  lemma JournalGrows(rows: C.Rows, after: C.Rows, journal: seq<C.Entry>, entries: seq<C.Entry>, order: Order,
                     done: Option<bool>)
    requires Journals(rows, after, journal, entries, order, done) && (done.Some? ==> IsJob(order))
    ensures journal <= entries
    ensures var n := |entries| - |journal|;
            if done.Some? then n == 1 else n == 0 || (n == 1 && order.ClearBay?)
  {
  }

  /**
   Nothing the journal says is ever lost by serving requests, and every job that was let
   through adds one entry, with one more at most for each time the bay is cleared out.
   */
  lemma {:induction false} DayJournal(moments: seq<Moment>, orders: seq<Order>, done: seq<Option<bool>>, k: nat)
    requires Day(moments, orders, done) && k <= |orders|
    ensures moments[0].journal <= moments[k].journal
    ensures JobsBy(done, k) <= |moments[k].journal| - |moments[0].journal| <= JobsBy(done, k) + ClearsBy(orders, k)
  {
    hide Journals, Keeps, Retains, Trusted, Accepted, Delivers, Writes, Slips;
    if k > 0 {
      DayJournal(moments, orders, done, k - 1);
      var m, n := moments[k - 1], moments[k];
      assert Served(m, orders[k - 1], n, done[k - 1]);
      JournalGrows(m.rows, n.rows, m.journal, n.journal, orders[k - 1], done[k - 1]);
    }
  }

  lemma {:induction false} DayDrops(moments: seq<Moment>, orders: seq<Order>, done: seq<Option<bool>>, i: nat, k: nat)
    requires Day(moments, orders, done) && i <= k <= |orders| && Trusted(moments[0].rows, moments[0].s)
    requires forall j | 0 <= j < |orders| :: Timely(orders[j])
    ensures Drops(moments[i].s.u.w, moments[k].s.u.w)
    decreases k
  {
    hide Retains, Between, Trusted, Accepted, Delivers, Discs, Timely, FedWhenAsked, BaySpared;
    if i < k {
      DayDrops(moments, orders, done, i, k - 1);
      DayBelieved(moments, orders, done, k - 1);
      assert Served(moments[k - 1], orders[k - 1], moments[k], done[k - 1]);
    }
  }

  /** On a day on which no command loses all three of its tries, a bay that was empty is empty after every request. */
  lemma {:induction false} LuckyBay(moments: seq<Moment>, orders: seq<Order>, done: seq<Option<bool>>, k: nat)
    requires Day(moments, orders, done) && k <= |orders| && Trusted(moments[0].rows, moments[0].s)
    requires forall j | 0 <= j < |orders| :: Timely(orders[j])
    requires !Unlucky(moments[0].s, moments[|orders|].s) && !Outlook(moments[0].s.u).bay
    ensures !Outlook(moments[k].s.u).bay
    ensures k < |orders| ==> !Unlucky(moments[k].s, moments[k + 1].s)
  {
    hide Retains, Between, Trusted, Accepted, Delivers, Discs, Timely, FedWhenAsked, Outlook, Unlucky, Drops;
    if k < |orders| {
      DayDrops(moments, orders, done, 0, k);
      DayDrops(moments, orders, done, k + 1, |orders|);
      UnluckySince(moments[0].s, moments[k].s, moments[k + 1].s);
      UnluckyStill(moments[0].s, moments[k + 1].s, moments[|orders|].s);
    }
    if k > 0 {
      LuckyBay(moments, orders, done, k - 1);
      DayBelieved(moments, orders, done, k - 1);
      assert Served(moments[k - 1], orders[k - 1], moments[k], done[k - 1]);
    }
  }

  /**
   And on such a day, blips or no blips, every job let through is done exactly if
   the hands do their part, and leaves the carousel home with an empty bay.
   */
  lemma DayDelivers(moments: seq<Moment>, orders: seq<Order>, done: seq<Option<bool>>, k: nat)
    requires Day(moments, orders, done) && k < |orders| && Trusted(moments[0].rows, moments[0].s)
    requires forall j | 0 <= j < |orders| :: Timely(orders[j])
    requires !Unlucky(moments[0].s, moments[|orders|].s) && !Outlook(moments[0].s.u).bay
    requires Accepted(moments[k].rows, orders[k]) && IsJob(orders[k])
    ensures done[k] == Some(Asked(orders[k]))
    ensures Asked(orders[k]) ==>
              var d := Outlook(moments[k + 1].s.u); d.position == HOME && d.homed && !d.bay
  {
    hide Retains, Still, Fitting, Agrees, Accepted, Keeps, Discs, Timely, Outlook, Unlucky;
    DayBelieved(moments, orders, done, k);
    LuckyBay(moments, orders, done, k);
    LuckyBay(moments, orders, done, k + 1);
    assert Served(moments[k], orders[k], moments[k + 1], done[k]);
  }

  /** Any script of requests, one after another; `moments` is the day they make. */
  method ServeAll(ds: DiscStakka, table: C.Table, ids: seq<string>, orders: seq<Order>)
    returns (done: seq<Option<bool>>, ghost moments: seq<Moment>)
    requires ds.Plugged() && table.Valid() && |ids| == |orders|
    modifies ds, ds.io, ds.io.carousel, ds.io.clock, table
    ensures ds.Plugged() && table.Valid()
    ensures Day(moments, orders, done)
    ensures moments[0] == Moment(old(table.rows), old(table.journal), old(ds.Now()))
              && moments[|orders|] == Moment(table.rows, table.journal, ds.Now())
    ensures Between(old(ds.Now())) && Fitting(old(ds.Now()).u) && Tucked(old(table.rows), old(ds.Now()))
            && (forall i | 0 <= i < |orders| :: FedWhenAsked(orders[i]))
            && FewHands(Reaching(old(ds.Now()).u), orders) ==>
              Tucked(table.rows, ds.Now()) && Discs(ds.Now().u) == Discs(old(ds.Now()).u)
    ensures Between(old(ds.Now())) && (forall i | 0 <= i < |orders| :: FedWhenAsked(orders[i])) ==>
              Between(ds.Now()) && NeverTurnedLoaded(ds.Now().u.w.log)
    ensures Trusted(old(table.rows), old(ds.Now())) && (forall i | 0 <= i < |orders| :: Timely(orders[i])) ==>
              Trusted(table.rows, ds.Now()) && Discs(ds.Now().u) == Discs(old(ds.Now()).u)
  {
    hide Served, Tucked, Fitting, Trusted, Between, Discs, C.UniqueSlots, C.Referential, Timely, FedWhenAsked,
         NeverTurnedLoaded, FewHands, Reaching;
    done, moments := [], [Moment(table.rows, table.journal, ds.Now())];
    for k := 0 to |orders|
      invariant ds.Plugged() && table.Valid() && ds.io.unplugAt == old(ds.io.unplugAt)
      invariant Day(moments, orders[..k], done)
      invariant moments[0] == Moment(old(table.rows), old(table.journal), old(ds.Now()))
                && moments[k] == Moment(table.rows, table.journal, ds.Now())
    {
      ghost var rows, journal, s := table.rows, table.journal, ds.Now();
      var job := Serve(ds, table, ids[k], orders[k]);
      done := done + [if job.None? then None else Some(job.value.phase == DONE)];
      moments := moments + [Moment(table.rows, table.journal, ds.Now())];
      JobServed(Moment(rows, journal, s), orders[k], Moment(table.rows, table.journal, ds.Now()), done[k]);
    }
    assert orders[..|orders|] == orders;
    if Between(moments[0].s) && (forall i | 0 <= i < |orders| :: FedWhenAsked(orders[i])) {
      DaySafe(moments, orders, done, |orders|);
    }
    if Between(moments[0].s) && Fitting(moments[0].s.u) && Tucked(moments[0].rows, moments[0].s)
       && (forall i | 0 <= i < |orders| :: FedWhenAsked(orders[i])) && FewHands(Reaching(moments[0].s.u), orders) {
      DayTucked(moments, orders, done, |orders|);
    }
    if Trusted(moments[0].rows, moments[0].s) && (forall i | 0 <= i < |orders| :: Timely(orders[i])) {
      DayBelieved(moments, orders, done, |orders|);
    }
  }

  lemma JobServed(m: Moment, order: Order, after: Moment, done: Option<bool>)
    requires done.Some? <==> Accepted(m.rows, order) && IsJob(order)
    requires Keeps(m.rows, m.s, after.rows, after.s, order) && Retains(m.rows, m.s, after.rows, after.s, order)
    requires Slips(m.rows, m.s, order) ==> done == Some(false)
    requires done.Some? ==>
               Writes(m.rows, after.rows, order, done.value) && Delivers(m.rows, m.s, after.s, order, done.value)
    requires Journals(m.rows, after.rows, m.journal, after.journal, order, done)
    ensures Served(m, order, after, done)
  {
    hide Journals, Keeps, Retains, Writes, Trusted, Timely, Delivers, Accepted, Slips;
  }

  lemma BetweenNeverTurned(s: Sim)
    requires Between(s)
    ensures NeverTurnedLoaded(s.u.w.log)
  {
    hide Tally;
  }

  // -- from the beginning --------------------------------------------------

  /** A unit just switched on is left to itself, its discs have room and it is in no hurry. */
  lemma NewUnitStill(m: Machine, w: Wire, now: int)
    requires !m.discWaiting && !m.newDiscAck && !m.discInBay && m.position <= 100 && w.log == [] && 0 <= now
    ensures var s := Sim(Unit(m, 0, true, [], 0, w), now);
            Still(s) && Fitting(s.u) && Outlook(s.u) == CoreOf(m) && Courses.Bounded(s.u, now)
  {
    hide Good, Tame, Outlook, Fitting, LastExpiry;
    var u := Unit(m, 0, true, [], 0, w);
    NewUnitGood(m, w);
    assert LastExpiry(u.events) == 0 by { NoTimers(); }
  }

  lemma NoTimers()
    ensures LastExpiry([]) == 0
  {
  }

  lemma NewUnitGood(m: Machine, w: Wire)
    requires !m.discWaiting && !m.newDiscAck && !m.discInBay && w.log == []
    ensures var u := Unit(m, 0, true, [], 0, w);
            Good(u) && Calm(u) && Fitting(u) && Outlook(u) == CoreOf(m)
  {
    hide Tally, Foresee, Sorted;
    NothingPending(CoreOf(m));
  }

  lemma NothingPending(c: Core)
    ensures Tally([]) == Census(0, 0, 0, 0, 0, 0, 0, 0) && Foresee(c, []) == c && Sorted([])
  {
  }

  /**
   A new unit with discs in some of its slots, wired up and opened: known by its
   serial, and believed by any catalogue that lists those discs and no others as stored.
   */
  method Commission(occupied: set<Byte>, serial: bv32, blips: bool, luck: seq<bool>, start: nat)
    returns (ds: DiscStakka)
    ensures fresh(ds) && fresh(ds.io) && fresh(ds.io.carousel) && fresh(ds.io.clock)
    ensures ds.Plugged() && ds.serial == Some(serial)
    ensures forall rows | C.StoredSlots(rows) == occupied :: Trusted(rows, ds.Now()) && Tucked(rows, ds.Now())
  {
    hide Talked, Prompt, Between, Outlook, Fitting, Tucked;
    var clock := new Clock(start);
    var carousel := new Carousel(clock, occupied, serial, 0, blips, luck);
    var io := new SimulatedTransport(clock, carousel, true, None);
    ds := new DiscStakka(io);
    ghost var s := ds.Now();
    NewUnitStill(s.u.m, s.u.w, start);
    var r := ds.Open();
    TalkedTrusted(s, ds.Now(), occupied);
  }

  lemma NewAgrees(rows: C.Rows, s: Sim)
    requires Outlook(s.u).occupied == C.StoredSlots(rows)
    ensures Agrees(rows, Outlook(s.u))
  {
    hide C.StoredSlots, Outlook;
  }

  lemma HarmlessTucked(rows: C.Rows, s: Sim, t: Sim)
    requires Harmless(s, t) && Between(s) && s.u.events == [] && s.u.m.occupied == C.StoredSlots(rows)
    ensures Tucked(rows, t)
  {
    hide Between, Prompt, Tracks, Outlook, C.StoredSlots;
    forall slot | Claimed(t.u, slot) ensures slot as int in C.StoredSlots(rows) {
      assert Claimed(s.u, slot);
    }
  }

  lemma TalkedTrusted(s: Sim, t: Sim, occupied: set<Byte>)
    requires Talked(s, t) && s.now <= t.now && Still(s) && Fitting(s.u) && Outlook(s.u).occupied == occupied
    requires s.u.events == [] && s.u.m.occupied == occupied
    ensures forall rows | C.StoredSlots(rows) == occupied :: Trusted(rows, t) && Tucked(rows, t)
  {
    hide Unlucky, Talked, Prompt, Between, Fitting, Outlook, Harmless, C.StoredSlots, Agrees;
    TalkedHarmless(s, t);
    forall rows | C.StoredSlots(rows) == occupied ensures Trusted(rows, t) && Tucked(rows, t) {
      NewAgrees(rows, s);
      HarmlessAgrees(rows, s, t);
      HarmlessTucked(rows, s, t);
    }
  }
}
