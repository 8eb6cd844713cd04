/**
 How replies are told apart, on a line of any make: which packet answers a
 command, which answers carry a status, and what a wait can conclude from them.
 */
module Pairing {
  import opened Wrappers
  import opened Firmware
  import opened Runs
  import opened Simulator

  /** The replies whose middle bytes are a status word. */
  predicate CarriesStatus(cmd: Byte) {
    cmd == CMD_REQUEST_STATE || cmd == CMD_SET_POS || cmd == CMD_SET_LED || cmd == CMD_CLEAR_ERR_2
    || cmd == CMD_ACCEPT_DISC
  }

  /** The status a reply tells of, if it is of a kind that tells one. */
  function StatusIn(reply: Option<Packet>): (status: Option<bv16>)
    ensures status.Some? <==> reply.Some? && CarriesStatus(reply.value.cmd)
    ensures status.Some? ==> status.value == Decode(reply.value.payload)
  {
    if reply.Some? && CarriesStatus(reply.value.cmd) then Some(Decode(reply.value.payload)) else None
  }

  /** What is read as a status is one: for every command of that kind, the unit's own word once it was performed. */
  lemma CarriersTell(u: Unit, now: int, cmd: Byte, args: Args)
    requires CarriesStatus(cmd)
    ensures var r := Perform(u, now, cmd, args); r.reply.Some? && Decode(r.reply.value) == StatusWord(r.u, now)
  {
    hide StatusWord, StatusReply, At, SeekMs;
    StatusRoundTrip(Perform(u, now, cmd, args).u, now);
  }

  /**
   And nothing else must be: the replies to a cleared error, to a retract and to
   both version requests would all pass for an idle unit's, whatever the unit is
   doing; so would the replies of all units with such a serial.
   */
  lemma OthersMislead(u: Unit, now: int, cmd: Byte, args: Args, unit: Byte, msgid: Byte)
    requires cmd == CMD_CLEAR_ERR_1 || cmd == CMD_RETRACT || cmd == CMD_VERSION_A || cmd == CMD_VERSION_B
             || (cmd == CMD_GET_SERIAL && u.w.serial & 0x0080_8000 == 0)
    ensures var p := Perform(u, now, cmd, args).reply.value;
            Shows(Decode(p), ST_BUSY, 0) && StatusIn(Some(Packet(unit, msgid, cmd, p))) == None
  {
    hide StatusWord, StatusReply, At, SeekMs;
    if cmd == CMD_GET_SERIAL { SerialMisleads(u.w.serial); }
  }

  lemma SerialMisleads(serial: bv32)
    requires serial & 0x0080_8000 == 0
    ensures Shows(Decode(SerialReply(serial)), ST_BUSY, 0)
  {
  }

  // -- pairing, on a line of any make --------------------------------------

  /** What has been delivered since. */
  function Since(before: seq<Packet>, after: seq<Packet>): (packets: seq<Packet>)
    requires before <= after
  {
    after[|before|..]
  }

  /** The last packet read, and the only one, that carries the number awaited; or none does. */
  predicate Picked(packets: seq<Packet>, msgid: Byte, reply: Option<Packet>) {
    if reply.Some? then
      && packets != [] && packets[|packets| - 1] == reply.value && reply.value.msgid == msgid
      && forall i | 0 <= i < |packets| - 1 :: packets[i].msgid != msgid
    else
      forall i | 0 <= i < |packets| :: packets[i].msgid != msgid
  }

  /** One command's packets: the one whose number it went on from, and those read for the reply. */
  predicate Paired(packets: seq<Packet>, reply: Option<Packet>) {
    packets != [] && Picked(packets[1..], (packets[0].msgid + 1) % 256, reply)
  }

  lemma PickedNext(before: seq<Packet>, read: seq<Packet>, reply: Packet, msgid: Byte)
    requires before <= read && Picked(Since(before, read), msgid, None)
    ensures Picked(Since(before, read + [reply]), msgid, if reply.msgid == msgid then Some(reply) else None)
  {
    assert Since(before, read + [reply]) == Since(before, read) + [reply];
  }

  lemma SeedPicked(before: seq<Packet>, read: seq<Packet>, after: seq<Packet>, seed: Packet, reply: Option<Packet>)
    requires read == before + [seed] && read <= after && Picked(Since(read, after), (seed.msgid + 1) % 256, reply)
    ensures before <= after && Paired(Since(before, after), reply)
  {
    assert Since(before, after) == [seed] + Since(read, after);
    assert Since(before, after)[1..] == Since(read, after);
  }

  lemma ReadsLater(s: Sim, t: Sim)
    requires exists n: nat :: t == Reads(s, n)
    ensures s.now <= t.now
  {
    hide RunDue;
    var n: nat :| t == Reads(s, n);
    ReadsLonger(s, n);
  }

  lemma {:induction false} ReadsLonger(s: Sim, n: nat)
    ensures s.now <= Reads(s, n).now
  {
    hide RunDue;
    if n > 0 { ReadsLonger(s, n - 1); }
  }

  // -- waiting, on a line of any make --------------------------------------

  /** One command of a wait: what was read for it, and the reply found in that. */
  datatype Exchanged = Exchanged(packets: seq<Packet>, reply: Option<Packet>)

  function Delivered(es: seq<Exchanged>): seq<Packet> {
    if es == [] then [] else Delivered(es[..|es| - 1]) + es[|es| - 1].packets
  }

  lemma DeliveredMore(es: seq<Exchanged>, e: Exchanged)
    ensures Delivered(es + [e]) == Delivered(es) + e.packets
  {
    assert (es + [e])[..|es|] == es;
  }

  /** A reply that shows the status wanted. */
  predicate Told(reply: Option<Packet>, mask: bv16, want: bv16) {
    StatusIn(reply).Some? && Shows(StatusIn(reply).value, mask, want)
  }

  /**
   A wait: commands one after another, the last of which it ended with, and none
   before it told of the status wanted.
   */
  ghost predicate Waited(es: seq<Exchanged>, mask: bv16, want: bv16) {
    && (forall e | e in es :: Paired(e.packets, e.reply))
    && forall i | 0 <= i < |es| - 1 :: !Told(es[i].reply, mask, want)
  }

  /** What a wait made of the packets delivered to it. */
  ghost predicate Judged(packets: seq<Packet>, mask: bv16, want: bv16, ok: bool) {
    exists es: seq<Exchanged> ::
      Delivered(es) == packets && es != [] && Waited(es, mask, want) && Told(es[|es| - 1].reply, mask, want) == ok
  }

  /**
   On a line of any make a wait succeeds if and only if some reply it got to its
   own requests is of a kind that carries a status, and that status is the one
   wanted. No other packet counts, whatever it would pass for.
   */
  lemma JudgedSound(packets: seq<Packet>, mask: bv16, want: bv16, ok: bool) returns (es: seq<Exchanged>)
    requires Judged(packets, mask, want, ok)
    ensures Delivered(es) == packets && forall e | e in es :: Paired(e.packets, e.reply)
    ensures ok <==> exists e :: e in es && e.reply.Some? && CarriesStatus(e.reply.value.cmd)
                                && Shows(Decode(e.reply.value.payload), mask, want)
  {
    hide Decode, Shows, Paired, CarriesStatus;
    es :| Delivered(es) == packets && es != [] && Waited(es, mask, want) && Told(es[|es| - 1].reply, mask, want) == ok;
    assert es[|es| - 1] in es;
  }

  /** So a success is owed to a packet that was delivered within the wait. */
  lemma JudgedByPacket(packets: seq<Packet>, mask: bv16, want: bv16)
    requires Judged(packets, mask, want, true)
    ensures exists p :: p in packets && CarriesStatus(p.cmd) && Shows(Decode(p.payload), mask, want)
  {
    hide Decode, Shows, CarriesStatus;
    var es: seq<Exchanged> :| Delivered(es) == packets && es != [] && Waited(es, mask, want)
      && Told(es[|es| - 1].reply, mask, want);
    var e := es[|es| - 1];
    assert e in es && e.reply.value in e.packets[1..];
    assert e.reply.value in Delivered(es);
  }

  /** A wait not over yet. */
  ghost predicate Unmoved(es: seq<Exchanged>, mask: bv16, want: bv16) {
    Waited(es, mask, want) && (es != [] ==> !Told(es[|es| - 1].reply, mask, want))
  }

  lemma NothingWaited(before: seq<Packet>, mask: bv16, want: bv16)
    ensures Delivered([]) == Since(before, before) && Unmoved([], mask, want)
  {
  }

  lemma OneMoreExchange(before: seq<Packet>, read: seq<Packet>, after: seq<Packet>,
                        es: seq<Exchanged>, e: Exchanged, mask: bv16, want: bv16)
    requires before <= read <= after && Delivered(es) == Since(before, read) && Unmoved(es, mask, want)
    requires e.packets == Since(read, after) && Paired(e.packets, e.reply)
    ensures Delivered(es + [e]) == Since(before, after) && before <= after
    ensures Judged(Since(before, after), mask, want, Told(e.reply, mask, want))
    ensures !Told(e.reply, mask, want) ==> Unmoved(es + [e], mask, want)
  {
    hide Told, Paired;
    DeliveredMore(es, e);
    assert Since(before, after) == Since(before, read) + Since(read, after);
    var more := es + [e];
    assert more[|more| - 1] == e && forall i | 0 <= i < |es| :: more[i] == es[i];
    assert Waited(more, mask, want);
  }
}
