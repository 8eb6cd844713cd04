/**
 The pages, as atomic requests landing anywhere in a running job. Whatever is
 asked for meanwhile, the job's own last write to the catalogue succeeds.
 */
module Site {
  import opened Wrappers
  import opened Geometry
  import C = Catalogue

  datatype Kind = Ejecting | Returning | Adding | Resetting

  /** The job in progress: what it is about, and whether it has written the catalogue yet. */
  datatype Running = Running(kind: Kind, disc: Option<int>, slot: Option<int>, written: bool)

  /** What a request is answered with. */
  datatype Answer = NotFound | Declined | Bounced | Started | Saved

  /** What the job is still to write can be written. */
  predicate Lands(rows: C.Rows, job: Running) {
    match job.kind
    case Ejecting =>
      && job.disc.Some? && job.disc.value in rows && job.slot == Some(rows[job.disc.value].slot)
      && rows[job.disc.value].status == C.InSlot
    case Returning =>
      && job.disc.Some? && job.disc.value in rows && job.slot == Some(rows[job.disc.value].slot)
      && rows[job.disc.value].status == C.Out
    case Adding => job.slot.Some? && SLOT_MIN <= job.slot.value <= SLOT_MAX && job.slot.value !in C.Slots(rows)
    case Resetting => true
  }

  predicate Concerns(job: Option<Running>, disc: Option<int>, slot: Option<int>) {
    job.Some? && ((disc.Some? && job.value.disc == disc) || (slot.Some? && job.value.slot == slot))
  }

  predicate Safe(rows: C.Rows, job: Option<Running>) {
    job.Some? && !job.value.written ==> Lands(rows, job.value)
  }

  // -- what guarded writes leave alone -------------------------------------

  lemma MarkStaysSafe(rows: C.Rows, job: Option<Running>, id: int, status: C.Status)
    requires C.UniqueSlots(rows) && Safe(rows, job) && id in rows && !Concerns(job, Some(id), Some(rows[id].slot))
    ensures Safe(rows[id := rows[id].(status := status)], job)
  {
    C.MarkedIsMoved(rows, id, status);
  }

  lemma DeleteStaysSafe(rows: C.Rows, job: Option<Running>, id: int)
    requires Safe(rows, job) && id in rows && !Concerns(job, Some(id), Some(rows[id].slot))
    ensures Safe(rows - {id}, job)
  {
  }

  lemma CreateStaysSafe(rows: C.Rows, job: Option<Running>, id: int, row: C.Row)
    requires Safe(rows, job) && id !in rows && !Concerns(job, None, Some(row.slot))
    ensures Safe(rows[id := row], job)
  {
    var after := rows[id := row];
    forall slot | slot in C.Slots(after) ensures slot in C.Slots(rows) || slot == row.slot {
      var k :| k in after && after[k].slot == slot;
      if k != id { assert rows[k].slot == slot; }
    }
  }

  // -- what each request comes to ------------------------------------------

  datatype Visit =
    | VisitEject(disc: int)
    | VisitReturn(disc: int)
    | VisitAdd(slot: int)
    | VisitReset
    | VisitDelete(disc: int, confirmed: bool)
    | VisitManual(slot: int, title: string)
    | VisitCorrect(disc: int, status: C.Status)
    | JobWrites
    | JobEnds

  /** The catalogue and the job in progress. */
  datatype World = World(rows: C.Rows, job: Option<Running>)

  ghost predicate Consistent(w: World) { C.UniqueSlots(w.rows) && Safe(w.rows, w.job) }

  function Marked(rows: C.Rows, id: int, status: C.Status): C.Rows
    requires id in rows
  {
    rows[id := rows[id].(status := status)]
  }

  ghost predicate Created(rows: C.Rows, after: C.Rows, row: C.Row) {
    exists id: int :: id !in rows && after == rows[id := row]
  }

  /** The job a request asks for, if the catalogue allows it. */
  function JobFor(rows: C.Rows, visit: Visit): (next: Option<Running>)
    ensures next.Some? ==> !next.value.written && Lands(rows, next.value)
  {
    match visit
    case VisitEject(disc) =>
      if disc in rows && rows[disc].status == C.InSlot then
        Some(Running(Ejecting, Some(disc), Some(rows[disc].slot), false))
      else None
    case VisitReturn(disc) =>
      if disc in rows && rows[disc].status == C.Out then
        Some(Running(Returning, Some(disc), Some(rows[disc].slot), false))
      else None
    case VisitAdd(slot) =>
      if SLOT_MIN <= slot <= SLOT_MAX && slot !in C.Slots(rows) then Some(Running(Adding, None, Some(slot), false))
      else None
    case VisitReset => Some(Running(Resetting, None, None, false))
    case _ => None
  }

  /** A write still to come from the job in progress. */
  predicate Pending(w: World) { w.job.Some? && !w.job.value.written }

  /** Whether the catalogue takes the job's write. */
  predicate Writable(rows: C.Rows, job: Running) {
    match job.kind
    case Adding => job.slot.Some? && SLOT_MIN <= job.slot.value <= SLOT_MAX && job.slot.value !in C.Slots(rows)
    case Resetting => true
    case _ => job.disc.Some? && job.disc.value in rows
  }

  /** The job's own write, if the catalogue takes it. */
  ghost predicate Wrote(rows: C.Rows, job: Running, after: C.Rows) {
    if !Writable(rows, job) then after == rows else
      match job.kind
      case Ejecting => after == Marked(rows, job.disc.value, C.Out)
      case Returning => after == Marked(rows, job.disc.value, C.InSlot)
      case Adding => Created(rows, after, C.Row(job.slot.value, C.InSlot, C.UNTITLED))
      case Resetting => after == rows
  }

  /** One request, or one step of the job in progress. */
  ghost predicate Visited(w: World, visit: Visit, v: World) {
    match visit
    case VisitDelete(disc, confirmed) =>
      && v.job == w.job
      && v.rows == if disc in w.rows && confirmed && !Concerns(w.job, Some(disc), Some(w.rows[disc].slot))
                   then w.rows - {disc} else w.rows
    case VisitManual(slot, title) =>
      && v.job == w.job
      && if SLOT_MIN <= slot <= SLOT_MAX && title != "" && slot !in C.Slots(w.rows)
            && !Concerns(w.job, None, Some(slot))
         then Created(w.rows, v.rows, C.Row(slot, C.InSlot, title)) else v.rows == w.rows
    case VisitCorrect(disc, status) =>
      && v.job == w.job
      && v.rows == if disc in w.rows && !Concerns(w.job, Some(disc), Some(w.rows[disc].slot))
                   then Marked(w.rows, disc, status) else w.rows
    case JobWrites =>
      if Pending(w) then Wrote(w.rows, w.job.value, v.rows) && v.job == Some(w.job.value.(written := true)) else v == w
    case JobEnds => v == w.(job := None)
    case _ => v.rows == w.rows && v.job == if w.job.None? then JobFor(w.rows, visit) else w.job
  }

  /** Whatever is asked for, the job in progress can still write what it will, and no slot is given twice. */
  lemma VisitedStaysConsistent(w: World, visit: Visit, v: World)
    requires Consistent(w) && Visited(w, visit, v)
    ensures Consistent(v)
  {
    hide C.UniqueSlots, C.Slots, C.StoredSlots, Lands;
    match visit
    case VisitDelete(disc, confirmed) =>
      if v.rows != w.rows { DeleteStaysSafe(w.rows, w.job, disc); DeletedIsUnique(w.rows, disc); }
    case VisitManual(slot, title) =>
      if v.rows != w.rows { CreatedStaysSafe(w, v.rows, C.Row(slot, C.InSlot, title)); }
    case VisitCorrect(disc, status) =>
      if v.rows != w.rows { MarkStaysSafe(w.rows, w.job, disc, status); C.MarkedIsMoved(w.rows, disc, status); }
    case JobWrites => if Pending(w) { WroteIsUnique(w.rows, w.job.value, v.rows); }
    case _ =>
  }

  lemma DeletedIsUnique(rows: C.Rows, id: int)
    requires C.UniqueSlots(rows)
    ensures C.UniqueSlots(rows - {id})
  {
  }

  lemma CreatedStaysSafe(w: World, after: C.Rows, row: C.Row)
    requires Consistent(w) && Created(w.rows, after, row) && !Concerns(w.job, None, Some(row.slot))
    requires row.slot !in C.Slots(w.rows) && SLOT_MIN <= row.slot <= SLOT_MAX && row.status == C.InSlot
    ensures C.UniqueSlots(after) && Safe(after, w.job)
  {
    hide C.UniqueSlots, C.Slots, C.StoredSlots, Safe;
    var id: int :| id !in w.rows && after == w.rows[id := row];
    C.AddedIsStored(w.rows, id, row);
    CreateStaysSafe(w.rows, w.job, id, row);
  }

  lemma WroteIsUnique(rows: C.Rows, job: Running, after: C.Rows)
    requires C.UniqueSlots(rows) && Wrote(rows, job, after)
    ensures C.UniqueSlots(after)
  {
    hide C.UniqueSlots, C.Slots, C.StoredSlots;
    if Writable(rows, job) {
      match job.kind
      case Ejecting => C.MarkedIsMoved(rows, job.disc.value, C.Out);
      case Returning => C.MarkedIsMoved(rows, job.disc.value, C.InSlot);
      case Adding =>
        var row := C.Row(job.slot.value, C.InSlot, C.UNTITLED);
        var id: int :| id !in rows && after == rows[id := row];
        C.AddedIsStored(rows, id, row);
      case Resetting =>
    }
  }

  /** Requests and the steps of the jobs they start, in any order. */
  ghost predicate History(worlds: seq<World>, visits: seq<Visit>) {
    |worlds| == |visits| + 1 && forall k | 0 <= k < |visits| :: Visited(worlds[k], visits[k], worlds[k + 1])
  }

  /** Over any history no write of a job is ever refused, and slots stay unique. */
  lemma {:induction false} NoWriteRefused(worlds: seq<World>, visits: seq<Visit>, k: nat)
    requires History(worlds, visits) && Consistent(worlds[0]) && k <= |visits|
    ensures C.UniqueSlots(worlds[k].rows)
    ensures Pending(worlds[k]) ==>
              Lands(worlds[k].rows, worlds[k].job.value) && Writable(worlds[k].rows, worlds[k].job.value)
    ensures Consistent(worlds[k])
  {
    hide Visited, C.UniqueSlots;
    if k > 0 {
      NoWriteRefused(worlds, visits, k - 1);
      VisitedStaysConsistent(worlds[k - 1], visits[k - 1], worlds[k]);
    }
  }

  // -- what each request writes down ---------------------------------------

  /** A row created, and one entry naming it. */
  ghost predicate CreatedAs(rows: C.Rows, after: C.Rows, journal: seq<C.Entry>, entries: seq<C.Entry>, row: C.Row,
                            kind: C.Kind)
  {
    exists id: int ::
      && id !in rows && after == rows[id := row]
      && entries == journal + [C.Entry(Some(id), Some(row.slot), kind)]
  }

  /** A disc forgotten: its entries lose its name, and one entry more says which slot it had. */
  predicate Forgotten(journal: seq<C.Entry>, entries: seq<C.Entry>, id: int, slot: int) {
    && |entries| == |journal| + 1
    && entries[|journal|] == C.Entry(None, Some(slot), C.Removed)
    && forall i | 0 <= i < |journal| ::
         entries[i] == if journal[i].disc == Some(id) then journal[i].(disc := None) else journal[i]
  }

  /** The one entry of a job that is done. */
  ghost predicate WrittenDown(rows: C.Rows, job: Running, after: C.Rows, journal: seq<C.Entry>, entries: seq<C.Entry>) {
    match job.kind
    case Ejecting => entries == journal + [C.Entry(job.disc, job.slot, C.Ejected)]
    case Returning => entries == journal + [C.Entry(job.disc, job.slot, C.Returned)]
    case Adding =>
      job.slot.Some?
      && CreatedAs(rows, after, journal, entries, C.Row(job.slot.value, C.InSlot, C.UNTITLED), C.Added)
    case Resetting => entries == journal + [C.Entry(None, None, C.ResetDone)]
  }

  class Pages {
    const table: C.Table
    var job: Option<Running>

    predicate Valid()
      reads this, table
    {
      table.Valid() && Safe(table.rows, job)
    }

    ghost function Now(): World
      reads this, table
    {
      World(table.rows, job)
    }

    constructor (table: C.Table)
      requires table.Valid()
      ensures Valid() && this.table == table && job == None
    {
      this.table := table;
      job := None;
    }

    /** One job at a time: a second one is bounced to the first. */
    method Start(next: Running) returns (a: Answer)
      requires Valid() && !next.written && Lands(table.rows, next)
      modifies this
      ensures Valid() && table.rows == old(table.rows)
      ensures a == (if old(job).None? then Started else Bounced)
      ensures job == if old(job).None? then Some(next) else old(job)
    {
      if job.Some? { return Bounced; }
      job := Some(next);
      a := Started;
    }

    method Eject(disc: int) returns (a: Answer)
      requires Valid()
      modifies this
      ensures Valid() && table.rows == old(table.rows)
      ensures a == NotFound <==> disc !in table.rows
      ensures a == Declined <==> disc in table.rows && table.rows[disc].status == C.Out
      ensures a == Started <==> old(job).None? && disc in table.rows && table.rows[disc].status == C.InSlot
      ensures a == Started ==> job == Some(Running(Ejecting, Some(disc), Some(table.rows[disc].slot), false))
      ensures a != Started ==> job == old(job)
    {
      var row := table.GetDisc(disc);
      if row.None? { return NotFound; }
      if row.value.status == C.Out { return Declined; }
      a := Start(Running(Ejecting, Some(disc), Some(row.value.slot), false));
    }

    method Return(disc: int) returns (a: Answer)
      requires Valid()
      modifies this
      ensures Valid() && table.rows == old(table.rows)
      ensures a == NotFound <==> disc !in table.rows
      ensures a == Declined <==> disc in table.rows && table.rows[disc].status == C.InSlot
      ensures a == Started <==> old(job).None? && disc in table.rows && table.rows[disc].status == C.Out
      ensures a == Started ==> job == Some(Running(Returning, Some(disc), Some(table.rows[disc].slot), false))
      ensures a != Started ==> job == old(job)
    {
      var row := table.GetDisc(disc);
      if row.None? { return NotFound; }
      if row.value.status != C.Out { return Declined; }
      a := Start(Running(Returning, Some(disc), Some(row.value.slot), false));
    }

    method Add(slot: int) returns (a: Answer)
      requires Valid()
      modifies this
      ensures Valid() && table.rows == old(table.rows)
      ensures a == Declined <==> !(SLOT_MIN <= slot <= SLOT_MAX) || slot in C.Slots(table.rows)
      ensures a == Started <==> old(job).None? && a != Declined
      ensures a == Started ==> job == Some(Running(Adding, None, Some(slot), false))
      ensures a != Started ==> job == old(job)
    {
      if !(SLOT_MIN <= slot <= SLOT_MAX) { return Declined; }
      var taken := table.GetBySlot(slot);
      if taken.Some? { return Declined; }
      a := Start(Running(Adding, None, Some(slot), false));
    }

    method Reset() returns (a: Answer)
      requires Valid()
      modifies this
      ensures Valid() && table.rows == old(table.rows)
      ensures a == (if old(job).None? then Started else Bounced)
      ensures job == if a == Started then Some(Running(Resetting, None, None, false)) else old(job)
    {
      a := Start(Running(Resetting, None, None, false));
    }

    /** Forgets a disc, unless the unit is working on it or it was not confirmed. */
    method Delete(disc: int, confirmed: bool) returns (a: Answer)
      requires Valid()
      modifies table
      ensures Valid() && job == old(job)
      ensures a == NotFound <==> disc !in old(table.rows)
      ensures a == Bounced <==> disc in old(table.rows) && Concerns(job, Some(disc), Some(old(table.rows)[disc].slot))
      ensures table.rows == if a == Saved then old(table.rows) - {disc} else old(table.rows)
      ensures a == Saved <==> a != NotFound && a != Bounced && confirmed
      ensures if a == Saved then Forgotten(old(table.journal), table.journal, disc, old(table.rows)[disc].slot)
              else table.journal == old(table.journal)
    {
      var row := table.GetDisc(disc);
      if row.None? { return NotFound; }
      if Concerns(job, Some(disc), Some(row.value.slot)) { return Bounced; }
      if !confirmed { return Declined; }
      DeleteStaysSafe(table.rows, job, disc);
      var _ := table.DeleteDisc(disc);
      a := Saved;
    }

    /** Records a disc put in by hand, unless its slot is spoken for or being worked on. */
    method RecordManually(slot: int, title: string) returns (a: Answer)
      requires Valid()
      modifies table
      ensures Valid() && job == old(job)
      ensures a == Declined ==> table.rows == old(table.rows)
      ensures a == Declined <==> !(SLOT_MIN <= slot <= SLOT_MAX) || title == "" || slot in C.Slots(old(table.rows))
                                 || Concerns(job, None, Some(slot))
      ensures a == Declined || a == Saved
      ensures a == Saved ==>
                && Created(old(table.rows), table.rows, C.Row(slot, C.InSlot, title))
                && C.StoredSlots(table.rows) == C.StoredSlots(old(table.rows)) + {slot}
      ensures if a == Saved then
                CreatedAs(old(table.rows), table.rows, old(table.journal), table.journal, C.Row(slot, C.InSlot, title),
                          C.Manual)
              else
                table.journal == old(table.journal)
    {
      if !(SLOT_MIN <= slot <= SLOT_MAX) || title == "" { return Declined; }
      var taken := table.GetBySlot(slot);
      if taken.Some? || Concerns(job, None, Some(slot)) { return Declined; }
      ghost var rows := table.rows;
      var made := table.CreateDisc(slot, title, C.Manual);
      CreateStaysSafe(rows, job, made.value, C.Row(slot, C.InSlot, title));
      a := Saved;
    }

    /** Says where a disc really is, unless the unit is working on it. */
    method Correct(disc: int, status: C.Status) returns (a: Answer)
      requires Valid()
      modifies table
      ensures Valid() && job == old(job)
      ensures a == NotFound <==> disc !in old(table.rows)
      ensures a == Bounced <==> disc in old(table.rows) && Concerns(job, Some(disc), Some(old(table.rows)[disc].slot))
      ensures table.rows == if a == Saved then Marked(old(table.rows), disc, status) else old(table.rows)
      ensures a == Declined <==> a != NotFound && a != Bounced && old(table.rows)[disc].status == status
      ensures a == Saved <==> a != NotFound && a != Bounced && a != Declined
      ensures table.journal
           == if a == Saved then old(table.journal) + [C.Entry(Some(disc), Some(old(table.rows)[disc].slot), C.Manual)]
              else old(table.journal)
    {
      var row := table.GetDisc(disc);
      if row.None? { return NotFound; }
      if Concerns(job, Some(disc), Some(row.value.slot)) { return Bounced; }
      if row.value.status == status { return Declined; }
      MarkStaysSafe(table.rows, job, disc, status);
      var _ := table.Mark(disc, status, C.Manual);
      a := Saved;
    }

    // -- the job's side ----------------------------------------------------

    /** The running job's last write, if it comes to that: it is never refused. */
    method Write() returns (r: Outcome<()>)
      requires Valid()
      modifies this, table
      ensures Valid() && r.Ok?
      ensures Visited(old(Now()), JobWrites, Now())
      ensures if old(Pending(Now())) then
                WrittenDown(old(table.rows), old(job).value, table.rows, old(table.journal), table.journal)
              else
                table.journal == old(table.journal)
    {
      r := Ok(());
      if job.None? || job.value.written { return; }
      match job.value.kind {
        case Ejecting => r := table.Mark(job.value.disc.value, C.Out, C.Ejected);
        case Returning => r := table.Mark(job.value.disc.value, C.InSlot, C.Returned);
        case Adding =>
          var made := table.CreateDisc(job.value.slot.value, C.UNTITLED);
          if !made.Ok? { r := Failed(Refused); }
        case Resetting => r := table.LogEvent(C.ResetDone);
      }
      job := Some(job.value.(written := true));
    }

    method End()
      requires Valid()
      modifies this
      ensures Valid() && job == None && table.rows == old(table.rows)
    {
      job := None;
    }
  }

  // -- any interleaving ----------------------------------------------------

  method Visiting(pages: Pages, visit: Visit) returns (landed: bool)
    requires pages.Valid()
    modifies pages, pages.table
    ensures pages.Valid() && landed && Visited(old(pages.Now()), visit, pages.Now())
  {
    hide C.UniqueSlots, C.Referential, C.Slots, C.StoredSlots, Wrote, Safe, Created;
    landed := true;
    match visit {
      case VisitEject(disc) => var _ := pages.Eject(disc);
      case VisitReturn(disc) => var _ := pages.Return(disc);
      case VisitAdd(slot) => var _ := pages.Add(slot);
      case VisitReset => var _ := pages.Reset();
      case VisitDelete(disc, confirmed) => var _ := pages.Delete(disc, confirmed);
      case VisitManual(slot, title) => var _ := pages.RecordManually(slot, title);
      case VisitCorrect(disc, status) => var _ := pages.Correct(disc, status);
      case JobWrites =>
        var r := pages.Write();
        landed := r.Ok?;
      case JobEnds => pages.End();
    }
  }

  /**
   Every request and every step of a job answered in turn; `worlds` is the history
   they make, and every write lands.
   */
  method Serve(pages: Pages, visits: seq<Visit>) returns (landed: bool, ghost worlds: seq<World>)
    requires pages.Valid()
    modifies pages, pages.table
    ensures pages.Valid() && landed
    ensures History(worlds, visits) && worlds[0] == old(pages.Now()) && worlds[|visits|] == pages.Now()
  {
    hide Visited;
    landed, worlds := true, [pages.Now()];
    for k := 0 to |visits|
      invariant pages.Valid() && landed
      invariant History(worlds, visits[..k]) && worlds[0] == old(pages.Now()) && worlds[k] == pages.Now()
    {
      landed := Visiting(pages, visits[k]);
      worlds := worlds + [pages.Now()];
    }
    assert visits[..|visits|] == visits;
  }
}
