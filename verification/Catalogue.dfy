/**
 The disc catalogue: one table of discs keyed by id, each with a slot of its own,
 and a journal that may name only discs the table holds.
 */
module Catalogue {
  import opened Wrappers
  import opened Geometry

  /** What a disc just loaded is called until it is given a name. */
  const UNTITLED := "Untitled disc"

  datatype Status = InSlot | Out

  datatype Row = Row(slot: int, status: Status, title: string)

  datatype Kind = Added | Ejected | Returned | Retracted | ResetDone | Manual | Removed | JobFailed

  datatype Entry = Entry(disc: Option<int>, slot: Option<int>, kind: Kind)

  type Rows = map<int, Row>

  function Slots(rows: Rows): set<int> { set id | id in rows :: rows[id].slot }

  /** The slots the catalogue says hold a disc. */
  function StoredSlots(rows: Rows): set<int> { set id | id in rows && rows[id].status == InSlot :: rows[id].slot }

  predicate UniqueSlots(rows: Rows) {
    && (forall id | id in rows :: SLOT_MIN <= rows[id].slot <= SLOT_MAX)
    && (forall id, other | id in rows && other in rows && id != other :: rows[id].slot != rows[other].slot)
  }

  /** Every entry names a disc there is, or none. */
  predicate Referential(rows: Rows, journal: seq<Entry>) {
    forall e | e in journal && e.disc.Some? :: e.disc.value in rows
  }

  // -- what each write does to the belief ----------------------------------

  lemma AddedIsStored(rows: Rows, id: int, row: Row)
    requires UniqueSlots(rows) && id !in rows && row.status == InSlot
    requires SLOT_MIN <= row.slot <= SLOT_MAX && row.slot !in Slots(rows)
    ensures UniqueSlots(rows[id := row]) && StoredSlots(rows[id := row]) == StoredSlots(rows) + {row.slot}
  {
    var after := rows[id := row];
    forall other | other in rows ensures rows[other].slot != row.slot { assert rows[other].slot in Slots(rows); }
    forall slot ensures slot in StoredSlots(after) <==> slot in StoredSlots(rows) + {row.slot} {
      if slot == row.slot { assert id in after; }
      if slot in StoredSlots(rows) {
        var other :| other in rows && rows[other].status == InSlot && rows[other].slot == slot;
        assert other in after;
      }
    }
  }

  lemma MarkedIsMoved(rows: Rows, id: int, status: Status)
    requires UniqueSlots(rows) && id in rows
    ensures var after := rows[id := rows[id].(status := status)];
            && UniqueSlots(after) && Slots(after) == Slots(rows)
            && StoredSlots(after) == if status == InSlot then StoredSlots(rows) + {rows[id].slot}
                                     else StoredSlots(rows) - {rows[id].slot}
  {
    var slot := rows[id].slot;
    var after := rows[id := rows[id].(status := status)];
    forall s ensures s in Slots(after) <==> s in Slots(rows) {
      if s in Slots(rows) { var k :| k in rows && rows[k].slot == s; assert after[k].slot == s; }
      if s in Slots(after) { var k :| k in after && after[k].slot == s; assert rows[k].slot == s; }
    }
    var want := if status == InSlot then StoredSlots(rows) + {slot} else StoredSlots(rows) - {slot};
    forall s ensures s in StoredSlots(after) <==> s in want {
      if s == slot { assert after[id].slot == s; }
      if s in StoredSlots(rows) && s != slot {
        var k :| k in rows && rows[k].status == InSlot && rows[k].slot == s;
        assert k in after && after[k].status == InSlot;
      }
    }
  }

  /** A disc that is out, or that is not there, has no slot that is stored under it. */
  lemma NotStored(rows: Rows, id: int)
    requires UniqueSlots(rows) && id in rows
    ensures rows[id].status == Out ==> rows[id].slot !in StoredSlots(rows)
    ensures rows[id].status == InSlot ==> rows[id].slot in StoredSlots(rows)
  {
  }

  lemma SlotInRange(rows: Rows, id: int)
    requires UniqueSlots(rows) && id in rows
    ensures SLOT_MIN <= rows[id].slot <= SLOT_MAX
  {
  }

  lemma StoredIsHeld(rows: Rows, id: int)
    requires id in rows && rows[id].status == InSlot
    ensures rows[id].slot in StoredSlots(rows)
  {
  }

  lemma FreeIsNotStored(rows: Rows, slot: int)
    ensures slot !in Slots(rows) ==> slot !in StoredSlots(rows)
  {
    if slot in StoredSlots(rows) {
      var id :| id in rows && rows[id].status == InSlot && rows[id].slot == slot;
      assert rows[id].slot in Slots(rows);
    }
  }

  function From(ids: set<int>, id: int): set<int> { set k | k in ids && id <= k }

  lemma FewerAbove(ids: set<int>, id: int, k: int)
    requires k in ids && id <= k
    ensures |From(ids, k + 1)| < |From(ids, id)|
  {
    Smaller(From(ids, k + 1), From(ids, id) - {k});
  }

  lemma Smaller(a: set<int>, b: set<int>)
    requires a <= b
    ensures |a| <= |b|
  {
    assert b == a + (b - a);
  }

  // -- the table -----------------------------------------------------------

  class Table {
    var rows: Rows
    var journal: seq<Entry>

    predicate Valid()
      reads this
    {
      UniqueSlots(rows) && Referential(rows, journal)
    }

    constructor ()
      ensures Valid() && rows == map[] && journal == []
    {
      rows, journal := map[], [];
    }

    // -- reads -------------------------------------------------------------

    function GetDisc(id: int): (r: Option<Row>)
      reads this
      ensures r.Some? <==> id in rows
      ensures r.Some? ==> r.value == rows[id]
    {
      if id in rows then Some(rows[id]) else None
    }

    method GetBySlot(slot: int) returns (r: Option<int>)
      ensures r.Some? <==> slot in Slots(rows)
      ensures r.Some? ==> r.value in rows && rows[r.value].slot == slot
    {
      if id: int :| id in rows && rows[id].slot == slot {
        return Some(id);
      }
      r := None;
    }

    /** The first slot no row holds; none once every one is held. */
    method NextFreeSlot() returns (r: Option<int>)
      ensures r.Some? ==> 1 <= r.value <= 100 && r.value !in Slots(rows)
      ensures forall s | 1 <= s <= 100 && s !in Slots(rows) :: r.Some? && r.value <= s
    {
      for slot := SLOT_MIN to SLOT_MAX + 1
        invariant forall s | SLOT_MIN <= s < slot :: s in Slots(rows)
      {
        if slot !in Slots(rows) { return Some(slot); }
      }
      r := None;
    }

    /** All the slots no row holds, in ascending order. */
    method FreeSlots() returns (free: seq<int>)
      ensures forall s :: s in free <==> 1 <= s <= 100 && s !in Slots(rows)
      ensures forall i, j | 0 <= i < j < |free| :: free[i] < free[j]
    {
      free := [];
      for slot := SLOT_MIN to SLOT_MAX + 1
        invariant forall s :: s in free <==> SLOT_MIN <= s < slot && s !in Slots(rows)
        invariant forall i | 0 <= i < |free| :: free[i] < slot
        invariant forall i, j | 0 <= i < j < |free| :: free[i] < free[j]
      {
        if slot !in Slots(rows) { free := free + [slot]; }
      }
    }

    // -- writes ------------------------------------------------------------

    /** The id the next row gets: one past the highest there is. */
    method NextId() returns (id: int)
      ensures id > 0 && forall k | k in rows :: k < id
    {
      id := 1;
      while exists k: int :: k in rows && id <= k
        invariant id > 0
        decreases |From(rows.Keys, id)|
      {
        var k: int :| k in rows && id <= k;
        FewerAbove(rows.Keys, id, k);
        id := k + 1;
      }
    }

    /** Journals what happened; refused if it names a disc there is not. */
    method LogEvent(kind: Kind, disc: Option<int> := None, slot: Option<int> := None) returns (r: Outcome<()>)
      requires Valid()
      modifies this`journal
      ensures Valid()
      ensures r == if disc.None? || disc.value in rows then Ok(()) else Failed(Refused)
      ensures journal == if r.Ok? then old(journal) + [Entry(disc, slot, kind)] else old(journal)
    {
      if disc.Some? && disc.value !in rows { return Failed(Refused); }
      journal := journal + [Entry(disc, slot, kind)];
      r := Ok(());
    }

    /** Refused, and nothing changed, for a slot that does not exist or is spoken for. */
    method CreateDisc(slot: int, title: string, kind: Kind := Added) returns (r: Outcome<int>)
      requires Valid()
      modifies this
      ensures Valid()
      ensures if 1 <= slot <= 100 && slot !in Slots(old(rows)) then r.Ok? else r == Failed(Refused)
      ensures !r.Ok? ==> rows == old(rows) && journal == old(journal)
      ensures r.Ok? ==>
                && r.value !in old(rows) && rows == old(rows)[r.value := Row(slot, InSlot, title)]
                && StoredSlots(rows) == StoredSlots(old(rows)) + {slot}
                && journal == old(journal) + [Entry(Some(r.value), Some(slot), kind)]
    {
      if !(SLOT_MIN <= slot <= SLOT_MAX) || slot in Slots(rows) { return Failed(Refused); }
      var id := NextId();
      AddedIsStored(rows, id, Row(slot, InSlot, title));
      rows := rows[id := Row(slot, InSlot, title)];
      var logged := LogEvent(kind, Some(id), Some(slot));
      r := if logged.Ok? then Ok(id) else Failed(Refused);
    }

    /** `mark_out` and `mark_stored`: where the disc is now said to be. */
    method Mark(id: int, status: Status, kind: Kind) returns (r: Outcome<()>)
      requires Valid()
      modifies this
      ensures Valid()
      ensures r == if id in old(rows) then Ok(()) else Failed(Refused)
      ensures !r.Ok? ==> rows == old(rows) && journal == old(journal)
      ensures r.Ok? ==>
                && rows == old(rows)[id := old(rows)[id].(status := status)]
                && Slots(rows) == Slots(old(rows))
                && StoredSlots(rows) == (if status == InSlot then StoredSlots(old(rows)) + {old(rows)[id].slot}
                                         else StoredSlots(old(rows)) - {old(rows)[id].slot})
                && journal == old(journal) + [Entry(Some(id), Some(old(rows)[id].slot), kind)]
    {
      if id !in rows { return Failed(Refused); }
      MarkedIsMoved(rows, id, status);
      rows := rows[id := rows[id].(status := status)];
      r := LogEvent(kind, Some(id), Some(rows[id].slot));
    }

    /** Forgets the disc; what the journal says of it stays, without its id. */
    method DeleteDisc(id: int) returns (r: Option<Row>)
      requires Valid()
      modifies this
      ensures Valid()
      ensures r == (if id in old(rows) then Some(old(rows)[id]) else None)
      ensures rows == old(rows) - {id}
      ensures |journal| == |old(journal)| + 1
      ensures journal[|old(journal)|] == Entry(None, if r.Some? then Some(r.value.slot) else None, Removed)
      ensures forall i | 0 <= i < |old(journal)| ::
                journal[i]
                == if old(journal)[i].disc == Some(id) then old(journal)[i].(disc := None) else old(journal)[i]
    {
      r := GetDisc(id);
      rows := rows - {id};
      journal := seq(|journal|, i requires 0 <= i < |journal| reads this =>
                       if journal[i].disc == Some(id) then journal[i].(disc := None) else journal[i]);
      var _ := LogEvent(Removed, None, if r.Some? then Some(r.value.slot) else None);
    }
  }
}
