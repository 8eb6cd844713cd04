/**
 The reasoning behind `move_to` and its kin: what the checks in front of a move
 establish, and what a move then comes to.
 */
module MoveLaws {
  import opened Wrappers
  import opened Firmware
  import opened FirmwareLaws
  import opened CommandLaws
  import opened Runs
  import opened Motions
  import opened Sensors

  function MoveArgs(slot: Byte, eject: bool): Args { Args(slot, if eject then 1 else 0, 0, 0, 0) }

  // -- moves, as functions of the state they start in ----------------------

  /** How an operation on a unit that stays there turns out. */
  datatype Outturn = Outturn(s: Sim, r: Outcome<()>)

  /** What comes before every move. */
  function ClearRun(s: Sim): Outturn {
    var w := IdleRun(s, SETTLE_WAIT_MS);
    if !w.ok then Outturn(w.s, Failed(StillBusy))
    else Outturn(Poll(w.s), if Shows(Sample(w.s), ST_DISC_IN_BAY, 0) then Ok(()) else Failed(DiscInTheBay))
  }

  function TurnRun(s: Sim, args: Args): Outturn {
    var e := RequireRun(s, CMD_SET_POS, args, TRIES);
    if e.reply.None? then Outturn(e.s, Failed(NotAcknowledged))
    else
      var w := IdleRun(e.s, SETTLE_WAIT_MS);
      Outturn(w.s, if w.ok then Ok(()) else Failed(TimedOut))
  }

  /** Sent home to find out where it is. */
  function HomingRun(s: Sim): Outturn {
    var w := IdleRun(s, SETTLE_WAIT_MS);
    if !w.ok then Outturn(w.s, Failed(StillBusy))
    else
      var t := TurnRun(w.s, MoveArgs(0, false));
      if !t.r.Ok? then t
      else Outturn(Poll(t.s), if Shows(Sample(t.s), ST_HOMED, 0) then Failed(DidNotHome) else Ok(()))
  }

  function HomeRun(s: Sim): Outturn {
    if !Shows(Sample(s), ST_HOMED, 0) then Outturn(Poll(s), Ok(())) else HomingRun(Poll(s))
  }

  /** Wherever it starts and whoever is about: a unit passed as homed said so when it was last asked. */
  lemma HomedSaysSo(s: Sim) returns (t: Sim)
    ensures HomeRun(s).r.Ok? ==> HomeRun(s).s == Poll(t) && Shows(Sample(t), ST_HOMED, ST_HOMED)
  {
    hide WaitRun, TurnRun, Poll, Sample, Shows;
    t := s;
    HomedOrNot(Sample(s));
    if Shows(Sample(s), ST_HOMED, 0) {
      t := TurnRun(IdleRun(Poll(s), SETTLE_WAIT_MS).s, MoveArgs(0, false)).s;
      HomedOrNot(Sample(t));
    }
  }

  lemma HomedOrNot(word: bv16)
    ensures Shows(word, ST_HOMED, ST_HOMED) <==> !Shows(word, ST_HOMED, 0)
  {
  }

  function MoveRun(s: Sim, args: Args): Outturn {
    var c := ClearRun(s);
    if !c.r.Ok? then c
    else if args.x1 == 0 then TurnRun(c.s, args)
    else
      var h := HomeRun(c.s);
      if !h.r.Ok? then h else TurnRun(h.s, args)
  }

  // -- the bay check -------------------------------------------------------

  /** With nothing moving and no disc coming, an empty bay means nothing is or will be at the mouth. */
  lemma BayClear(s: Sim)
    requires Good(s.u) && NoMotion(s.u) && Tame(s.u) && Shows(Sample(s), ST_DISC_IN_BAY, 0)
    ensures Load(Poll(s).u) == 0
  {
    hide Good, Poll, Found, StatusWord, Tally, Moving, Ages, Fresh;
    var f := Found(s);
    FoundPasses(s);
    AgesCalm(s.u, f.u);
    MasksDecode(f.u, f.now);
    SampleIs(s);
    EmptyMouth(f.u);
    PollPasses(s);
    AgesCalm(f.u, Poll(s).u);
  }

  lemma QuietSample(s: Sim)
    requires Quiet(s)
    ensures Shows(Sample(s), ST_DISC_IN_BAY, 0) <==> !Outlook(s.u).bay
    ensures Shows(Sample(s), ST_HOMED, 0) <==> !Outlook(s.u).homed
  {
    hide Good, Found, StatusWord, Outlook, Prompt, Fresh, NoMotion;
    var f := Found(s);
    FoundQuiet(s);
    MasksDecode(f.u, f.now);
    SampleIs(s);
  }

  // -- what a move comes to ------------------------------------------------

  /** A core with its position made known by homing, if it was not. */
  function HomedCore(c: Core): Core { if c.homed then c else Core(c.occupied, 0, true, c.bay) }

  ghost predicate SameUpToBlips(s: Sim, t: Sim) {
    Quiet(t) && OnlyBlips(s.u.w, t.u.w)
  }

  /** A unit that will perform the move, if it hears it. */
  ghost predicate Turnable(s: Sim, args: Args) {
    Quiet(s) && !Outlook(s.u).bay && args.x1 <= 100 && (args.x1 != 0 ==> Outlook(s.u).homed)
  }

  /** One `0x04` seen through, from a quiet, empty-bayed unit: it is where it was sent, or no try was heard. */
  ghost predicate Turns(s: Sim, t: Sim, args: Args, r: Outcome<()>) {
    r.Lost? ||
    (SameUpToBlips(s, t)
     && (r.Ok? ==> Outlook(t.u) == MoveOutcome(Outlook(s.u), args) && !t.u.m.ackTimeout)
     && (r.Failed? ==>
           && r.why == NotAcknowledged && Outlook(t.u) == Outlook(s.u) && Unlucky(s, t)
           && t.u.m.ackTimeout == s.u.m.ackTimeout))
  }

  /** Homing, from a quiet unit with an empty bay: it is homed, or every try was lost to a blip. */
  ghost predicate HomesTo(s: Sim, t: Sim, r: Outcome<()>) {
    r.Lost? ||
    (SameUpToBlips(s, t)
     && (t.u.m.ackTimeout <==> s.u.m.ackTimeout && (r.Ok? ==> Outlook(s.u).homed))
     && (r.Ok? ==> Outlook(t.u) == HomedCore(Outlook(s.u)))
     && (r.Failed? ==> r.why == NotAcknowledged && Outlook(t.u) == Outlook(s.u) && Unlucky(s, t)))
  }

  /**
   A move, from a calm unit: it is quiet at the slot asked for, homed, its error
   cleared, the disc out exactly if asked for and there; or it was refused for
   the disc in the bay; or every try was lost to a blip. It never times out, and
   never latches an error.
   */
  ghost predicate MovesTo(s: Sim, t: Sim, args: Args, r: Outcome<()>) {
    var c := Outlook(s.u);
    r.Lost? ||
    (SameUpToBlips(s, t) && (t.u.m.ackTimeout ==> s.u.m.ackTimeout && !r.Ok?)
     && (r.Ok? ==> !c.bay && Outlook(t.u) == MoveOutcome(c, args))
     && (r.Failed? ==>
           || (r.why == DiscInTheBay && c.bay && Outlook(t.u) == c)
           || (r.why == NotAcknowledged && !c.bay && Unlucky(s, t)
              && (Outlook(t.u) == c || Outlook(t.u) == HomedCore(c)))))
  }

  /** At rest, and with nothing at the mouth if nothing was asked for. */
  ghost predicate Rested(t: Sim, eject: bool) { AtRest(t) && (!eject ==> Load(t.u) == 0) }

  /** What `move_to` comes to: for any hands about, and for none. */
  ghost predicate Moves(s: Sim, t: Sim, args: Args, r: Outcome<()>) {
    && (Sound(s) ==> Kept(s, t) && (r.Ok? ==> Rested(t, args.x2 != 0) && t.u.m.position == args.x1))
    && (Prompt(s) ==> MovesTo(s, t, args, r))
  }

  /** Waited for and looked at: a calm unit is quiet where it was heading, and refused if its bay is full. */
  ghost predicate Clears(s: Sim, t: Sim, r: Outcome<()>) {
    r.Lost? ||
    (SameUpToBlips(s, t) && Outlook(t.u) == Outlook(s.u) && t.u.m.ackTimeout == s.u.m.ackTimeout
     && (r.Ok? ==> !Outlook(s.u).bay)
     && (r.Failed? ==> r.why == DiscInTheBay && Outlook(s.u).bay))
  }

  lemma HomedOutcome(c: Core, args: Args)
    requires !c.bay
    ensures MoveOutcome(HomedCore(c), args) == MoveOutcome(c, args)
    ensures HomedCore(HomedCore(c)) == HomedCore(c) && HomedCore(c).homed && !HomedCore(c).bay
  {
  }

  /** An acknowledged move ends in a successful wait. */
  lemma MoveEnds(s: Sim, args: Args)
    requires Quiet(s) && !Outlook(s.u).bay && args.x1 <= 100
    requires args.x1 != 0 ==> Outlook(s.u).homed
    requires RequireRun(s, CMD_SET_POS, args, TRIES).reply.Some?
    ensures var w := IdleRun(RequireRun(s, CMD_SET_POS, args, TRIES).s, SETTLE_WAIT_MS);
            w.ok && SameUpToBlips(s, w.s) && Outlook(w.s.u) == MoveOutcome(Outlook(s.u), args) && !w.s.u.m.ackTimeout
  {
    hide Quiet, Idles, RequireRun, Outlook, MoveOutcome, Prompt, Fresh, WaitRun, OnlyBlips;
    QuietParts(s);
    QuietBay(s);
    RequireDrops(s, CMD_SET_POS, args, TRIES);
    RequireMoved(s, args);
    var t := RequireRun(s, CMD_SET_POS, args, TRIES).s;
    WaitQuiet(t, SETTLE_WAIT_MS);
    var w := IdleRun(t, SETTLE_WAIT_MS).s;
    IdlesParts(t, w);
    OnlyBlipsTransitive(s.u.w, t.u.w, w.u.w);
  }

  /** A quiet unit says whether it is homed, and one that is needs nothing more. */
  lemma AskedIfHomed(s: Sim)
    requires Quiet(s)
    ensures if Shows(Sample(s), ST_HOMED, 0) then !Outlook(s.u).homed else HomesTo(s, Poll(s), Ok(()))
    ensures Quiet(Poll(s)) && Outlook(Poll(s).u) == Outlook(s.u)
    ensures forall t :: HomesTo(s, t, Lost)
  {
    hide Quiet, Outlook, Poll, OnlyBlips, Sample, Shows;
    QuietSample(s);
    PollSame(s);
  }

  lemma SameUpToBlipsTransitive(s: Sim, t: Sim, r: Sim)
    requires SameUpToBlips(s, t) && SameUpToBlips(t, r)
    ensures SameUpToBlips(s, r)
  {
    hide Quiet, OnlyBlips;
    OnlyBlipsTransitive(s.u.w, t.u.w, r.u.w);
  }

  /** A calm unit waited for, then asked about its bay. */
  lemma ClearRuns(s: Sim, w: Sim, idle: bool)
    requires Watch(w, idle) == IdleRun(s, SETTLE_WAIT_MS)
    ensures ClearRun(s)
         == if !idle then Outturn(w, Failed(StillBusy))
            else Outturn(Poll(w), if Shows(Sample(w), ST_DISC_IN_BAY, 0) then Ok(()) else Failed(DiscInTheBay))
  {
    hide WaitRun, Poll, Sample, Shows;
  }

  /** A calm unit is refused only for a disc in its bay, and has stopped where it was heading either way. */
  lemma ClearClears(s: Sim)
    requires Prompt(s)
    ensures Clears(s, ClearRun(s).s, ClearRun(s).r)
  {
    hide Prompt, WaitRun, Poll, Sample, Shows, SameUpToBlips, Outlook, Quiet;
    SettledAndAsked(s);
  }

  lemma SettledAndAsked(s: Sim)
    requires Prompt(s)
    ensures var w := IdleRun(s, SETTLE_WAIT_MS);
            && w.ok && SameUpToBlips(s, w.s)
            && (Shows(Sample(w.s), ST_DISC_IN_BAY, 0) <==> !Outlook(s.u).bay)
            && SameUpToBlips(s, Poll(w.s)) && Quiet(Poll(w.s)) && Outlook(Poll(w.s).u) == Outlook(s.u)
            && Poll(w.s).u.m.ackTimeout == s.u.m.ackTimeout
  {
    hide Quiet, Outlook, Poll, WaitRun, OnlyBlips, Sample, Shows, Prompt;
    var w := IdleRun(s, SETTLE_WAIT_MS).s;
    SettleSame(s);
    QuietSample(w);
    PollSame(w);
    SameUpToBlipsTransitive(s, w, Poll(w));
  }

  /** Every try lost, or one heard and then waited for: the wait cannot fail. */
  lemma TurnEnds(s: Sim, args: Args)
    requires Turnable(s, args)
    ensures var e := RequireRun(s, CMD_SET_POS, args, TRIES);
            var w := IdleRun(e.s, SETTLE_WAIT_MS);
            if e.reply.None? then Turns(s, e.s, args, Failed(NotAcknowledged)) else w.ok && Turns(s, w.s, args, Ok(()))
  {
    hide Quiet, Outlook, WaitRun, OnlyBlips, RequireRun, MoveOutcome;
    var e := RequireRun(s, CMD_SET_POS, args, TRIES);
    if e.reply.None? { MoveLost(s, args); } else { MoveEnds(s, args); }
  }

  lemma LaterUnlucky(s: Sim, t: Sim, r: Sim)
    requires SameUpToBlips(s, t)
    ensures Unlucky(t, r) ==> Unlucky(s, r)
  {
    hide Quiet, Unlucky;
    UnluckySince(s, t, r);
  }

  lemma StillUnlucky(s: Sim, t: Sim, r: Sim)
    requires SameUpToBlips(t, r)
    ensures Unlucky(s, t) ==> Unlucky(s, r)
  {
    hide Quiet, Unlucky;
    UnluckyStill(s, t, r);
  }

  lemma LostTurns(s: Sim, args: Args)
    ensures forall t :: Turns(s, t, args, Lost)
  {
  }

  /** Homing, once turned: it is homed, and says so. */
  lemma HomingTurned(s: Sim, w: Sim, v: Sim, r: Outcome<()>)
    requires SameUpToBlips(s, w) && Outlook(w.u) == Outlook(s.u) && !Outlook(s.u).bay && !Outlook(s.u).homed
    requires w.u.m.ackTimeout == s.u.m.ackTimeout
    requires Turnable(w, MoveArgs(0, false)) ==> Turns(w, v, MoveArgs(0, false), r)
    ensures !r.Ok? ==> HomesTo(s, v, r)
    ensures r.Ok? ==> !Shows(Sample(v), ST_HOMED, 0) && HomesTo(s, Poll(v), Ok(()))
  {
    hide Quiet, Outlook, OnlyBlips, Poll, Sample, Shows;
    if !r.Lost? { SameUpToBlipsTransitive(s, w, v); LaterUnlucky(s, w, v); }
    if r.Ok? {
      QuietSample(v);
      PollSame(v);
      SameUpToBlipsTransitive(s, v, Poll(v));
    }
  }

  lemma QuietPrompt(s: Sim)
    ensures Quiet(s) ==> Prompt(s)
  {
    hide Prompt;
  }

  /** Nothing the line does before the move counts against homing; and a quiet unit is seen idle. */
  lemma HomingBegins(s: Sim)
    ensures forall t :: HomesTo(s, t, Lost)
    ensures Quiet(s) ==>
              var w := IdleRun(s, SETTLE_WAIT_MS);
              w.ok && SameUpToBlips(s, w.s) && Outlook(w.s.u) == Outlook(s.u) && w.s.u.m.ackTimeout == s.u.m.ackTimeout
  {
    hide Quiet, Outlook, WaitRun, Prompt, OnlyBlips;
    if Quiet(s) { QuietParts(s); SettleSame(s); }
  }

  /** A status request before it changes nothing. */
  lemma AskedThenHomes(s: Sim, t: Sim, r: Outcome<()>)
    requires Quiet(s) && !Outlook(s.u).bay && HomesTo(Poll(s), t, r)
    ensures HomesTo(s, t, r)
  {
    hide Quiet, Outlook, Poll, OnlyBlips, HomedCore, Unlucky;
    PollSame(s);
    if !r.Lost? { SameUpToBlipsTransitive(s, Poll(s), t); LaterUnlucky(s, Poll(s), t); }
  }

  lemma ClearsThenMoves(s: Sim, p: Sim, args: Args, r: Outcome<()>)
    requires Prompt(s) ==> Clears(s, p, r)
    requires Sound(s) ==> Kept(s, p)
    ensures !r.Ok? ==> Moves(s, p, args, r)
    ensures r.Ok? ==> Cleared(s, p) && (args.x1 == 0 ==> Ready(s, p, args))
  {
    hide Quiet, Outlook, OnlyBlips, HomedCore, MoveOutcome, Kept, Sound, Prompt;
  }

  ghost predicate Cleared(s: Sim, p: Sim) {
    && (Sound(s) ==> Kept(s, p))
    && (Prompt(s) ==>
          && SameUpToBlips(s, p) && !Outlook(s.u).bay && Outlook(p.u) == Outlook(s.u)
          && (p.u.m.ackTimeout ==> s.u.m.ackTimeout))
  }

  /** Cleared and, unless bound for home, homed. */
  ghost predicate Ready(s: Sim, h: Sim, args: Args) {
    && (Sound(s) ==> Kept(s, h))
    && (Prompt(s) ==>
          && SameUpToBlips(s, h) && !Outlook(s.u).bay && (h.u.m.ackTimeout ==> s.u.m.ackTimeout)
          && (Outlook(h.u) == HomedCore(Outlook(s.u)) || (args.x1 == 0 && Outlook(h.u) == Outlook(s.u))))
  }

  lemma HomesThenMoves(s: Sim, p: Sim, h: Sim, args: Args, r: Outcome<()>)
    requires Cleared(s, p) && (Sound(s) ==> Kept(s, h))
    requires Quiet(p) && !Outlook(p.u).bay ==> HomesTo(p, h, r)
    ensures !r.Ok? ==> Moves(s, h, args, r)
    ensures r.Ok? ==> Ready(s, h, args)
  {
    hide Quiet, Outlook, OnlyBlips, HomedCore, MoveOutcome, Kept, Sound, Prompt;
    if Prompt(s) && !r.Lost? { SameUpToBlipsTransitive(s, p, h); LaterUnlucky(s, p, h); }
  }

  /** The move itself, from a unit still heading where it was or by now homed. */
  lemma TurnsThenMoves(s: Sim, h: Sim, v: Sim, args: Args, r: Outcome<()>)
    requires Ready(s, h, args) && args.x1 <= 100
    requires Turnable(h, args) ==> Turns(h, v, args, r)
    requires Sound(s) ==> Kept(s, v) && (r.Ok? ==> Rested(v, args.x2 != 0) && v.u.m.position == args.x1)
    ensures Moves(s, v, args, r)
    ensures Prompt(s) && !r.Lost? ==> (v.u.m.ackTimeout ==> h.u.m.ackTimeout)
  {
    hide Quiet, Outlook, OnlyBlips, HomedCore, MoveOutcome, Kept, Sound, Prompt, Rested;
    if Prompt(s) { HomedOutcome(Outlook(s.u), args); }
    if Prompt(s) && !r.Lost? { SameUpToBlipsTransitive(s, h, v); LaterUnlucky(s, h, v); }
  }

  lemma QuietBay(s: Sim)
    requires Quiet(s)
    ensures s.u.m.discInBay == Outlook(s.u).bay
  {
  }

  /** A move nothing acknowledged left a quiet unit as it was. */
  lemma MoveLost(s: Sim, args: Args)
    requires Quiet(s) && RequireRun(s, CMD_SET_POS, args, TRIES).reply.None?
    requires args.x1 != 0 ==> Outlook(s.u).homed
    ensures var t := RequireRun(s, CMD_SET_POS, args, TRIES).s;
            SameUpToBlips(s, t) && Outlook(t.u) == Outlook(s.u) && Unlucky(s, t)
            && t.u.m.ackTimeout == s.u.m.ackTimeout
  {
    hide Quiet, Idles, RequireRun, Outlook;
    RequireUnlucky(s, CMD_SET_POS, args);
    RequireQuietLost(s, CMD_SET_POS, args, TRIES);
    IdlesParts(s, RequireRun(s, CMD_SET_POS, args, TRIES).s);
  }

  lemma PollSame(s: Sim)
    requires Quiet(s)
    ensures SameUpToBlips(s, Poll(s)) && Outlook(Poll(s).u) == Outlook(s.u)
    ensures Poll(s).u.m.ackTimeout == s.u.m.ackTimeout
  {
    hide Quiet, Idles, Poll, Outlook;
    PollQuiet(s);
    IdlesParts(s, Poll(s));
  }

  lemma SettleSame(s: Sim)
    requires Prompt(s)
    ensures IdleRun(s, SETTLE_WAIT_MS).ok
    ensures SameUpToBlips(s, IdleRun(s, SETTLE_WAIT_MS).s) && Outlook(IdleRun(s, SETTLE_WAIT_MS).s.u) == Outlook(s.u)
    ensures IdleRun(s, SETTLE_WAIT_MS).s.u.m.ackTimeout == s.u.m.ackTimeout
  {
    hide Quiet, Idles, WaitRun, Outlook, Prompt;
    WaitQuiet(s, SETTLE_WAIT_MS);
    IdlesParts(s, IdleRun(s, SETTLE_WAIT_MS).s);
  }

  // -- moves without a disc ------------------------------------------------

  /** A move that presents nothing leaves nothing at the mouth. */
  lemma EmptyMove(h: Sim, args: Args)
    requires Good(h.u) && Fresh(h.u, h.now) && Load(h.u) == 0 && args.x2 == 0
    requires Receive(h.u, h.now, CMD_SET_POS, args).reply.Some?
    ensures Load(Receive(h.u, h.now, CMD_SET_POS, args).u) == 0
  {
    hide Good, Fresh, Receive, Perform, Tally, Outlook, LastExpiry, Foreseen, MoveMs, Listening, Accounted, Foresee;
    HeardIdle(h, CMD_SET_POS, args);
    SetPosStarts(h.u, h.now, args);
  }

  lemma RequireEmpty(s: Sim, args: Args, tries: nat)
    requires Sound(s) && Load(s.u) == 0 && args.x2 == 0 && tries > 0
    ensures Load(RequireRun(s, CMD_SET_POS, args, tries).s.u) == 0
  {
    hide Good, Fresh, Receive, RequireRun, Load, Reads, Ages;
    if RequireRun(s, CMD_SET_POS, args, tries).reply.None? {
      RequireLost(s, CMD_SET_POS, args, tries);
      AgesCalm(s.u, RequireRun(s, CMD_SET_POS, args, tries).s.u);
    } else {
      var h := RequireHeard(s, CMD_SET_POS, args, tries);
      AgesCalm(s.u, h.u);
      EmptyMove(h, args);
      var v := Receive(h.u, h.now, CMD_SET_POS, args).u;
      ReceiveSurvives(h.u, h.now, CMD_SET_POS, args);
      SurvivesGood(h.u, v, CMD_SET_POS);
      ReadsPass(Sim(v, h.now), 1);
      AgesCalm(v, Reads(Sim(v, h.now), 1).u);
    }
  }

  /** A move acknowledged, with any hands about, is bound for where it was sent. */
  lemma RequireTurned(s: Sim, args: Args, tries: nat)
    requires Sound(s) && Load(s.u) == 0 && RequireRun(s, CMD_SET_POS, args, tries).reply.Some?
    ensures Outlook(RequireRun(s, CMD_SET_POS, args, tries).s.u).position == args.x1
  {
    hide Good, Fresh, Receive, RequireRun, Load, Reads, Ages, Outlook, Claimed, Tame;
    var h := RequireHeard(s, CMD_SET_POS, args, tries);
    AgesCalm(s.u, h.u);
    MoveHeard(h, args);
    var v := Receive(h.u, h.now, CMD_SET_POS, args).u;
    ReadsPass(Sim(v, h.now), 1);
    AgesOnward(v, Reads(Sim(v, h.now), 1).u);
  }

  lemma AgesOnward(u: Unit, v: Unit)
    requires Ages(u, v)
    ensures Onward(u, v)
  {
  }

  /** And once at rest it is there. */
  lemma RestsWhereBound(s: Sim, t: Sim)
    requires AtRest(t) && Ages(s.u, t.u)
    ensures t.u.m.position == Outlook(s.u).position
  {
    hide Good, Outlook, Fresh, Claimed;
    NoMotionArrived(t.u);
    AgesOnward(s.u, t.u);
  }

  /** Once idle and with its bay seen empty, a unit no disc is coming to can be told to move. */
  lemma BayChecked(s: Sim)
    requires Sound(s)
    ensures var w := IdleRun(s, SETTLE_WAIT_MS);
            w.ok && Shows(Sample(w.s), ST_DISC_IN_BAY, 0) ==> Load(Poll(w.s).u) == 0
  {
    hide Good, Load, Poll, WaitRun, Sample, Shows, Ages, Fresh, Tame, Moving;
    var w := IdleRun(s, SETTLE_WAIT_MS);
    if w.ok && Shows(Sample(w.s), ST_DISC_IN_BAY, 0) {
      IdleSeen(s, s.now + SETTLE_WAIT_MS);
      WaitPasses(s, ST_BUSY, 0, s.now + SETTLE_WAIT_MS);
      AgesCalm(s.u, w.s.u);
      BayClear(w.s);
    }
  }

  // -- the same of the functions -------------------------------------------

  lemma WaitKept(s: Sim, mask: bv16, want: bv16, deadline: int)
    requires Sound(s)
    ensures Kept(s, WaitRun(s, mask, want, deadline).s)
    ensures Load(WaitRun(s, mask, want, deadline).s.u) <= Load(s.u)
  {
    hide Good, WaitRun, Ages, Fresh, Tame, Kept, Load;
    WaitPasses(s, mask, want, deadline);
    AgesKept(s, WaitRun(s, mask, want, deadline).s);
    AgesCalm(s.u, WaitRun(s, mask, want, deadline).s.u);
  }

  lemma PollKept(s: Sim)
    requires Sound(s)
    ensures Kept(s, Poll(s)) && Load(Poll(s).u) <= Load(s.u)
  {
    hide Good, Poll, Ages, Fresh, Tame, Kept, Load;
    PollPasses(s);
    AgesKept(s, Poll(s));
    AgesCalm(s.u, Poll(s).u);
  }

  lemma RequireKept(s: Sim, args: Args)
    requires Sound(s) && Load(s.u) == 0
    ensures Kept(s, RequireRun(s, CMD_SET_POS, args, TRIES).s) && s.now <= RequireRun(s, CMD_SET_POS, args, TRIES).s.now
  {
    hide Good, Fresh, Receive, RequireRun, Load, Reads, Ages, Survives, Tame, Kept;
    var e := RequireRun(s, CMD_SET_POS, args, TRIES);
    if e.reply.None? {
      RequireLost(s, CMD_SET_POS, args, TRIES);
      AgesKept(s, e.s);
    } else {
      var h := RequireHeard(s, CMD_SET_POS, args, TRIES);
      AgesCalm(s.u, h.u);
      var v := Receive(h.u, h.now, CMD_SET_POS, args).u;
      ReceiveSurvives(h.u, h.now, CMD_SET_POS, args);
      SurvivesGood(h.u, v, CMD_SET_POS);
      ReadsPass(Sim(v, h.now), 1);
      AgesSurvives(s.u, h.u, v, CMD_SET_POS);
      SurvivesAges(s.u, v, e.s.u, CMD_SET_POS);
      SurvivesKept(s, e.s, CMD_SET_POS);
    }
  }

  /** What an operation keeps of a unit no disc is coming to, and that a success leaves nothing at its mouth. */
  ghost predicate Does(s: Sim, o: Outturn) {
    Kept(s, o.s) && s.now <= o.s.now && (o.r.Ok? ==> Load(o.s.u) == 0)
  }

  lemma ClearKeeps(s: Sim)
    requires Sound(s)
    ensures Does(s, ClearRun(s))
  {
    hide Sound, Kept, Load, WaitRun, Poll, Sample, Shows;
    KeptLaws();
    var w := IdleRun(s, SETTLE_WAIT_MS);
    WaitTakes(s, ST_BUSY, 0, s.now + SETTLE_WAIT_MS);
    WaitKept(s, ST_BUSY, 0, s.now + SETTLE_WAIT_MS);
    BayChecked(s);
    PollTakes(w.s);
    PollKept(w.s);
  }

  lemma TurnKeeps(s: Sim, args: Args)
    requires Sound(s) && Load(s.u) == 0 && args.x2 == 0
    ensures Does(s, TurnRun(s, args)) && (TurnRun(s, args).r.Ok? ==> AtRest(TurnRun(s, args).s))
  {
    hide Sound, Kept, Load, WaitRun, RequireRun, AtRest, Good;
    KeptLaws();
    var e := RequireRun(s, CMD_SET_POS, args, TRIES);
    RequireKept(s, args);
    RequireEmpty(s, args, TRIES);
    WaitTakes(e.s, ST_BUSY, 0, e.s.now + SETTLE_WAIT_MS);
    WaitKept(e.s, ST_BUSY, 0, e.s.now + SETTLE_WAIT_MS);
    SoundGood(e.s);
    if e.reply.Some? && IdleRun(e.s, SETTLE_WAIT_MS).ok { IdleSeen(e.s, e.s.now + SETTLE_WAIT_MS); }
  }

  lemma SoundGood(s: Sim)
    requires Sound(s)
    ensures Good(s.u)
  {
    hide Good, Tame;
  }

  /** Another operation, or a wait, after one that left nothing at the mouth. */
  lemma DoesThen(s: Sim, t: Sim, o: Outturn)
    requires Kept(s, t) && s.now <= t.now && Does(t, o)
    ensures Does(s, o)
  {
    hide Kept, Load;
    KeptTransitive(s, t, o.s);
  }

  lemma PollDoes(s: Sim, r: Outcome<()>)
    requires Sound(s) && Load(s.u) == 0
    ensures Does(s, Outturn(Poll(s), r)) && Sound(Poll(s))
  {
    hide Sound, Kept, Load, Poll;
    PollTakes(s);
    PollKept(s);
    KeptSound(s, Poll(s));
  }

  lemma IdleDoes(s: Sim, r: Outcome<()>)
    requires Sound(s) && Load(s.u) == 0
    ensures Does(s, Outturn(IdleRun(s, SETTLE_WAIT_MS).s, r)) && Sound(IdleRun(s, SETTLE_WAIT_MS).s)
    ensures Load(IdleRun(s, SETTLE_WAIT_MS).s.u) == 0
  {
    hide Sound, Kept, Load, WaitRun;
    WaitTakes(s, ST_BUSY, 0, s.now + SETTLE_WAIT_MS);
    WaitKept(s, ST_BUSY, 0, s.now + SETTLE_WAIT_MS);
    KeptSound(s, IdleRun(s, SETTLE_WAIT_MS).s);
  }

  lemma DoesParts(s: Sim, o: Outturn)
    requires Does(s, o)
    ensures Sound(o.s) && Kept(s, o.s) && s.now <= o.s.now && (o.r.Ok? ==> Load(o.s.u) == 0)
  {
    hide Sound, Kept, Load;
    KeptSound(s, o.s);
  }

  lemma HomeKeeps(s: Sim)
    requires Sound(s) && Load(s.u) == 0
    ensures Does(s, HomeRun(s))
  {
    hide Sound, Kept, Load, WaitRun, TurnRun, Poll, Sample, Shows, Does;
    var p, o := Poll(s), HomeRun(s);
    PollDoes(s, Ok(()));
    DoesParts(s, Outturn(p, Ok(())));
    if Shows(Sample(s), ST_HOMED, 0) {
      var w := IdleRun(p, SETTLE_WAIT_MS);
      IdleDoes(p, Failed(StillBusy));
      if w.ok {
        DoesParts(p, Outturn(w.s, Failed(StillBusy)));
        TurnKeeps(w.s, MoveArgs(0, false));
        var t := TurnRun(w.s, MoveArgs(0, false));
        DoesParts(w.s, t);
        if t.r.Ok? {
          PollDoes(t.s, o.r);
          DoesThen(w.s, t.s, o);
        }
        DoesThen(p, w.s, o);
      }
      DoesThen(s, p, o);
    }
  }

  /** A move for nothing's sake, with any hands about, leaves the unit in good order, and at rest if it succeeds. */
  lemma MoveKeeps(s: Sim, slot: Byte)
    requires Sound(s)
    ensures var m := MoveRun(s, MoveArgs(slot, false)); Does(s, m) && (m.r.Ok? ==> Rested(m.s, false))
  {
    hide Sound, Kept, Load, ClearRun, HomeRun, TurnRun, AtRest;
    KeptLaws();
    ClearKeeps(s);
    var c, args := ClearRun(s), MoveArgs(slot, false);
    if c.r.Ok? {
      if slot == 0 {
        TurnKeeps(c.s, args);
      } else {
        HomeKeeps(c.s);
        if HomeRun(c.s).r.Ok? { TurnKeeps(HomeRun(c.s).s, args); }
      }
    }
  }

  // -- talk ----------------------------------------------------------------

  lemma ReceiveBusy(u: Unit, now: int, cmd: Byte, args: Args)
    requires !Actuates(cmd)
    ensures var r := Receive(u, now, cmd, args);
            r.u.busyUntil == u.busyUntil || (r.reply.None? && r.u.busyUntil <= Max(u.busyUntil, now + BLIP_FOR_MS))
  {
    hide Perform, Receive;
    var r := Receive(u, now, cmd, args);
    if r.reply.Some? {
      ReceiveHeard(u, now, cmd, args);
      PassivePerform(Listening(u, cmd, args), now, cmd, args);
    } else {
      ReceiveUnheard(u, now, cmd, args);
    }
  }

  lemma TalkOnlyBlips(s: Sim, cmd: Byte, args: Args)
    requires !Actuates(cmd)
    ensures OnlyBlips(s.u.w, CommandRun(s, cmd, args).s.u.w)
  {
    hide Receive, RunDue, Reads;
    var f := Found(s);
    var r := Receive(f.u, f.now, cmd, args);
    RunDueWire(s.u, f.now);
    CommandDrops(s, cmd, args);
    var why := ReceiveDropped(f.u, f.now, cmd, args);
    ReadsLog(Sim(r.u, f.now), 1);
    ReadsLog(Sim(r.u, f.now), ACK_MS / POLL_MS);
  }

  /** The two commands that clear a latched error and do nothing else. */
  predicate ClearsError(cmd: Byte) { cmd == CMD_CLEAR_ERR_1 || cmd == CMD_CLEAR_ERR_2 }

  /**
   A command that moves nothing, heard or not, leaves a calm unit heading where it
   was; its error stays latched unless the command is heard and is one that clears it.
   */
  lemma TalkPrompt(s: Sim, cmd: Byte, args: Args)
    requires Prompt(s) && !Actuates(cmd)
    ensures var t := CommandRun(s, cmd, args).s;
            Prompt(t) && Outlook(t.u) == Outlook(s.u) && OnlyBlips(s.u.w, t.u.w)
    ensures Quiet(s) ==> Quiet(CommandRun(s, cmd, args).s)
    ensures var e := CommandRun(s, cmd, args);
            e.s.u.m.ackTimeout <==> s.u.m.ackTimeout && (ClearsError(cmd) ==> e.reply.None?)
  {
    hide Good, Ages, Fresh, Receive, RunDue, Outlook, Calm, Reads, NoMotion, OnlyBlips, Hears;
    var f := Found(s);
    var r := Receive(f.u, f.now, cmd, args);
    var t := CommandRun(s, cmd, args).s;
    var n := if r.reply.Some? then 1 else ACK_MS / POLL_MS;
    FoundPasses(s);
    AgesCalm(s.u, f.u);
    PassiveAges(f.u, f.now, cmd, args);
    AgesGood(f.u, r.u);
    AgesCalm(f.u, r.u);
    ReceiveFlags(f.u, f.now, cmd, args);
    HeardExactly(f.u, f.now, cmd, args);
    ReceiveBusy(f.u, f.now, cmd, args);
    TalkOnlyBlips(s, cmd, args);
    ReadsPass(Sim(r.u, f.now), n);
    AgesCalm(r.u, t.u);
    AgesGood(r.u, t.u);
    if Quiet(s) { NoMotionArrived(t.u); }
  }

  /** How many commands were lost between two moments. */
  function Losses(s: Sim, t: Sim): int { |t.u.w.dropped| - |s.u.w.dropped| }

  /** What one command that moves nothing does to a latched error, and to one that idles without blips. */
  ghost predicate Spoken(s: Sim, t: Sim, cmd: Byte) {
    && 0 <= Losses(s, t) <= (if AlwaysAnswered(cmd) then 0 else 1)
    && (Prompt(s) ==> (t.u.m.ackTimeout <==> s.u.m.ackTimeout && (ClearsError(cmd) ==> Losses(s, t) == 1)))
    && (Quiet(s) && !s.u.w.blips ==> Losses(s, t) == 0)
  }

  lemma CommandTold(s: Sim, cmd: Byte, args: Args)
    requires !Actuates(cmd)
    ensures Spoken(s, CommandRun(s, cmd, args).s, cmd)
  {
    hide CommandRun, Quiet, Prompt, Receive, Outlook, OnlyBlips;
    CommandDrops(s, cmd, args);
    if AlwaysAnswered(cmd) || (Quiet(s) && !s.u.w.blips) { CommandAnswered(s, cmd, args); }
    if Prompt(s) { TalkPrompt(s, cmd, args); }
    if Quiet(s) { QuietGood(s); }
  }

  /** An idle unit without blips misses nothing that is only talk; and some of it is never missed. */
  lemma CommandAnswered(s: Sim, cmd: Byte, args: Args)
    requires !Actuates(cmd)
    requires AlwaysAnswered(cmd) || (Quiet(s) && !s.u.w.blips)
    ensures CommandRun(s, cmd, args).reply.Some?
  {
    hide Receive, Reads, Quiet, RunDue, Found, Hears;
    var f := Found(s);
    HeardExactly(f.u, f.now, cmd, args);
    TalkHeard(f.u, f.now, cmd, args, AlwaysAnswered(cmd));
    CommandReplies(s, cmd, args);
    if Quiet(s) { QuietFound(s); }
  }

  lemma TalkHeard(u: Unit, now: int, cmd: Byte, args: Args, always: bool)
    requires !Actuates(cmd) && always == AlwaysAnswered(cmd)
    ensures always || (u.busyUntil <= now && !u.w.blips) ==> Hears(u, now, cmd, args)
  {
  }

  lemma CommandReplies(s: Sim, cmd: Byte, args: Args)
    ensures CommandRun(s, cmd, args).reply == Receive(Found(s).u, Found(s).now, cmd, args).reply
  {
    hide Receive, Reads, RunDue;
  }

  lemma QuietFound(s: Sim)
    requires Quiet(s)
    ensures Found(s).u.busyUntil <= Found(s).now && Found(s).u.w == s.u.w
  {
    hide Quiet, Idles, Found;
    FoundQuiet(s);
    QuietGood(Found(s));
  }

  /** The three commands a reset begins with: the error stays latched only if both that clear it are lost. */
  lemma ClearingTold(s: Sim, t: Sim, p: Sim, q: Sim)
    requires Spoken(s, t, CMD_REQUEST_STATE) && Spoken(t, p, CMD_CLEAR_ERR_1) && Spoken(p, q, CMD_CLEAR_ERR_2)
    requires Steady(s, t) && Steady(t, p)
    ensures Prompt(s) ==> (q.u.m.ackTimeout <==> s.u.m.ackTimeout && Losses(s, q) == 2)
    ensures Quiet(s) && !s.u.w.blips ==> Losses(s, q) == 0
  {
    hide Prompt, Quiet, Steady, Spoken;
    SteadyOn(s, t);
    SteadyOn(t, p);
    SpokenParts(s, t, CMD_REQUEST_STATE);
    SpokenParts(t, p, CMD_CLEAR_ERR_1);
    SpokenParts(p, q, CMD_CLEAR_ERR_2);
    if Quiet(s) { QuietGood(s); QuietGood(t); }
  }

  lemma SpokenParts(s: Sim, t: Sim, cmd: Byte)
    requires Spoken(s, t, cmd)
    ensures 0 <= Losses(s, t) <= 1 && (AlwaysAnswered(cmd) ==> Losses(s, t) == 0)
    ensures Prompt(s) ==> (t.u.m.ackTimeout <==> s.u.m.ackTimeout && (ClearsError(cmd) ==> Losses(s, t) == 1))
    ensures Quiet(s) && !s.u.w.blips ==> Losses(s, t) == 0
  {
    hide Prompt, Quiet;
  }

  lemma SteadyOn(s: Sim, t: Sim)
    requires Steady(s, t)
    ensures Prompt(s) ==> Prompt(t) && t.u.w.blips == s.u.w.blips
    ensures Quiet(s) ==> Quiet(t)
  {
    hide Prompt, Quiet, Outlook, OnlyBlips, Kept, Sound;
    if Prompt(s) { SteadyBlips(s, t); }
  }

  /** Nothing but talk in between: a calm unit is heading where it was. */
  ghost predicate Steady(s: Sim, t: Sim) {
    && (Sound(s) ==> Kept(s, t))
    && (Prompt(s) ==>
          && Prompt(t) && Outlook(t.u) == Outlook(s.u) && OnlyBlips(s.u.w, t.u.w)
          && (t.u.m.ackTimeout ==> s.u.m.ackTimeout))
    && (Quiet(s) ==> Quiet(t))
  }

  lemma SteadyTransitive(s: Sim, t: Sim, r: Sim)
    requires Steady(s, t) && Steady(t, r)
    ensures Steady(s, r)
  {
    hide Kept, Sound, Prompt, Outlook, OnlyBlips, Quiet;
    KeptLaws();
    if Prompt(s) { OnlyBlipsTransitive(s.u.w, t.u.w, r.u.w); }
  }

  /** Nothing but talk, and every invariant kept. */
  ghost predicate Talked(s: Sim, t: Sim) {
    Steady(s, t) && (Good(s.u) ==> Ages(s.u, t.u) && Good(t.u))
  }

  lemma TalkedTransitive(s: Sim, t: Sim, r: Sim)
    requires Talked(s, t) && Talked(t, r)
    ensures Talked(s, r)
  {
    hide Steady, Ages, Good;
    SteadyTransitive(s, t, r);
    if Good(s.u) { AgesTransitive(s.u, t.u, r.u); }
  }

  lemma TalkedSelf(s: Sim)
    ensures Talked(s, s)
  {
    hide Kept, Prompt, Good, Outlook, Ages;
    KeptLaws();
    if Good(s.u) { AgesReflexive(s.u); }
  }

  /** One report read. */
  lemma ReadTalked(s: Sim, ms: nat)
    ensures Talked(s, Sim(RunDue(s.u, s.now + ms), s.now + ms))
  {
    hide Good, RunDue, Ages, Fresh, Calm, Kept, Outlook, Prompt, Quiet, NoMotion;
    if Prompt(s) { PromptCalm(s); }
    if Quiet(s) { QuietGood(s); }
    if Good(s.u) {
      var t := Sim(RunDue(s.u, s.now + ms), s.now + ms);
      RunDueAges(s.u, s.now + ms);
      AgesGood(s.u, t.u);
      if Sound(s) { AgesKept(s, t); }
      if Prompt(s) { PassesPrompt(s, t); }
      if Quiet(s) { PassesQuiet(s, t); }
    }
  }

  /** A serial or a version told. */
  lemma ToldTalked(s: Sim, cmd: Byte)
    requires AlwaysAnswered(cmd)
    ensures Talked(s, Sim(Receive(s.u, s.now, cmd, NO_ARGS).u, s.now))
  {
    hide Good, Receive, Ages, Fresh, Kept, Outlook, Calm, SameMachine, NoMotion;
    if Good(s.u) {
      var v := Receive(s.u, s.now, cmd, NO_ARGS).u;
      AlwaysHeard(s.u, s.now, cmd, NO_ARGS);
      PassiveAges(s.u, s.now, cmd, NO_ARGS);
      PassiveReceive(s.u, s.now, cmd, NO_ARGS);
      AgesGood(s.u, v);
      AgesCalm(s.u, v);
      ReceiveBusy(s.u, s.now, cmd, NO_ARGS);
      var why := ReceiveDropped(s.u, s.now, cmd, NO_ARGS);
      if Sound(s) { AgesKept(s, Sim(v, s.now)); }
      if Quiet(s) { SameFresh(s.u, v, s.now); NoMotionArrived(v); }
    }
  }

  lemma SameFresh(u: Unit, v: Unit, now: int)
    requires SameMachine(u, v) && Fresh(u, now)
    ensures Fresh(v, now)
  {
  }

  /** Any command that moves nothing. */
  lemma CommandTalked(s: Sim, cmd: Byte, args: Args)
    requires !Actuates(cmd)
    ensures Talked(s, CommandRun(s, cmd, args).s)
  {
    hide Good, Ages, Fresh, Kept, Outlook, Calm, NoMotion, CommandRun;
    if Good(s.u) {
      var t := CommandRun(s, cmd, args).s;
      CommandPasses(s, cmd, args);
      AgesGood(s.u, t.u);
      if Sound(s) { AgesKept(s, t); }
      if Prompt(s) { TalkPrompt(s, cmd, args); }
    }
  }

  lemma SteadyBlips(s: Sim, t: Sim)
    requires Steady(s, t) && Prompt(s)
    ensures t.u.w.blips == s.u.w.blips
  {
    hide Good, Outlook, Accounted, LastExpiry, Tame, OnlyBlips;
  }

  lemma SteadySound(s: Sim, t: Sim)
    requires Steady(s, t)
    ensures Sound(s) ==> Kept(s, t)
  {
  }

  lemma SteadyClears(s: Sim, t: Sim, p: Sim, args: Args, r: Outcome<()>)
    requires Steady(s, t) && (Prompt(t) ==> Clears(t, p, r)) && (Sound(t) ==> Kept(t, p))
    ensures !r.Ok? ==> Moves(s, p, args, r)
    ensures r.Ok? ==> Cleared(s, p)
    ensures Prompt(s) && !r.Lost? ==> p.u.m.ackTimeout == t.u.m.ackTimeout
  {
    hide Kept, Sound, Prompt, Outlook, OnlyBlips, Quiet;
    KeptLaws();
    if Prompt(s) {
      SteadyBlips(s, t);
      if !r.Lost? { OnlyBlipsTransitive(s.u.w, t.u.w, p.u.w); }
    }
  }

  lemma ClearedStays(s: Sim, p: Sim, q: Sim, args: Args)
    requires Cleared(s, p) && Steady(p, q) && args.x1 == 0
    ensures Ready(s, q, args)
    ensures Prompt(s) ==> (q.u.m.ackTimeout ==> p.u.m.ackTimeout)
  {
    hide Kept, Sound, Outlook, OnlyBlips, Quiet;
    KeptLaws();
    if Prompt(s) {
      QuietGood(p);
      SteadyBlips(p, q);
      OnlyBlipsTransitive(s.u.w, p.u.w, q.u.w);
    }
  }

  lemma NoMove(s: Sim, t: Sim, args: Args)
    requires Sound(s) ==> Kept(s, t)
    ensures Moves(s, t, args, Lost)
  {
    hide Kept, Sound, Prompt;
  }

  // -- putting a disc back -------------------------------------------------

  /** A core with whatever was in the bay put back behind the mouth. */
  function PutBack(c: Core): Core { Foreseen(c, BackInSlot) }

  /**
   Retracting, from a quiet unit: once acknowledged, the disc is behind the mouth
   again; never acknowledged, it was never heard, and a disc still in the bay is
   reported as not taken back.
   */
  ghost predicate Retracts(s: Sim, t: Sim, r: Outcome<bool>) {
    var c := Outlook(s.u);
    r.Lost? ||
    (SameUpToBlips(s, t)
     && (r.Ok? && r.value ==> Outlook(t.u) == PutBack(c))
     && (r.Ok? && !r.value ==> !c.bay && Outlook(t.u) == c && Unlucky(s, t))
     && (r.Failed? ==> r.why == NotTakenBack && c.bay && Outlook(t.u) == c && Unlucky(s, t)))
  }

  lemma PutBackClears(c: Core)
    ensures !PutBack(c).bay && PutBack(c).position == c.position && PutBack(c).homed == c.homed
    ensures PutBack(c).occupied == if c.bay then c.occupied + {c.position} else c.occupied
  {
  }

  lemma RetractSettles(s: Sim)
    requires Quiet(s)
    ensures var p := IdleRun(s, NOW_MS).s;
            var e := RequireRun(p, CMD_RETRACT, NO_ARGS, TRIES);
            var w := IdleRun(e.s, SETTLE_WAIT_MS);
            && w.ok && SameUpToBlips(s, w.s)
            && Outlook(w.s.u) == (if e.reply.Some? then PutBack(Outlook(s.u)) else Outlook(s.u))
            && (e.reply.None? ==> Unlucky(s, w.s))
  {
    hide Quiet, Idles, RequireRun, Outlook, Poll, WaitRun, Prompt, Foreseen, Unlucky, OnlyBlips, Offers;
    QuietGood(s);
    QuietPoll(s, NOW_MS);
    PollSame(s);
    var p := Poll(s);
    var e := RequireRun(p, CMD_RETRACT, NO_ARGS, TRIES);
    QuietOffers(p, CMD_RETRACT, NO_ARGS, TRIES);
    RequireOnlyBlips(p, CMD_RETRACT, NO_ARGS, TRIES);
    OnlyBlipsTransitive(s.u.w, p.u.w, e.s.u.w);
    if e.reply.Some? {
      RequireRetracted(p);
    } else {
      RequireQuietLost(p, CMD_RETRACT, NO_ARGS, TRIES);
      RequireUnlucky(p, CMD_RETRACT, NO_ARGS);
      LaterUnlucky(s, p, e.s);
      IdlesParts(p, e.s);
    }
    SettleSame(e.s);
    OnlyBlipsTransitive(s.u.w, e.s.u.w, IdleRun(e.s, SETTLE_WAIT_MS).s.u.w);
    StillUnlucky(s, e.s, IdleRun(e.s, SETTLE_WAIT_MS).s);
  }

  lemma LostRetracts(s: Sim)
    ensures forall t :: Retracts(s, t, Lost)
  {
  }

  /** The bay sensor has the last word. */
  lemma RetractEnds(s: Sim, t: Sim, acked: bool)
    requires SameUpToBlips(s, t) && Outlook(t.u) == (if acked then PutBack(Outlook(s.u)) else Outlook(s.u))
             && (acked || Unlucky(s, t))
    ensures if Shows(Sample(t), ST_DISC_IN_BAY, 0) then Retracts(s, Poll(t), Ok(acked))
            else Retracts(s, Poll(t), Failed(NotTakenBack))
  {
    hide Quiet, Outlook, Poll, Sample, Shows, OnlyBlips, PutBack, Unlucky;
    QuietSample(t);
    PollSame(t);
    SameUpToBlipsTransitive(s, t, Poll(t));
    StillUnlucky(s, t, Poll(t));
    PutBackClears(Outlook(s.u));
  }

  /** A wait of any kind is only talk. */
  lemma WaitTalked(s: Sim, mask: bv16, want: bv16, deadline: int)
    ensures Talked(s, WaitRun(s, mask, want, deadline).s)
  {
    hide Good, Ages, Fresh, Kept, Outlook, Calm, NoMotion, WaitRun, Prompt, Quiet;
    if Prompt(s) { PromptCalm(s); }
    if Quiet(s) { QuietGood(s); }
    if Good(s.u) {
      var t := WaitRun(s, mask, want, deadline).s;
      WaitPasses(s, mask, want, deadline);
      WaitDrops(s, mask, want, deadline);
      AgesGood(s.u, t.u);
      if Sound(s) { AgesKept(s, t); }
      if Prompt(s) { PassesPrompt(s, t); }
      if Quiet(s) { PassesQuiet(s, t); }
    }
  }

  /** So is a retried command that moves nothing. */
  lemma {:induction false} RequireTalked(s: Sim, cmd: Byte, args: Args, tries: nat)
    requires !Actuates(cmd)
    ensures Talked(s, RequireRun(s, cmd, args, tries).s)
    decreases tries
  {
    hide Talked, CommandRun, WaitRun;
    TalkedSelf(s);
    if tries > 0 {
      var e := CommandRun(s, cmd, args);
      CommandTalked(s, cmd, args);
      if e.reply.None? && tries > 1 {
        var w := IdleRun(e.s, RETRY_WAIT_MS).s;
        WaitTalked(e.s, ST_BUSY, 0, e.s.now + RETRY_WAIT_MS);
        RequireTalked(w, cmd, args, tries - 1);
        TalkedTransitive(s, e.s, w);
        TalkedTransitive(s, w, RequireRun(w, cmd, args, tries - 1).s);
      }
    }
  }
}
