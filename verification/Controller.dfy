/**
 The threads around the one unit: requests that submit jobs or look at the
 current one, workers that run jobs, one-off probes and the keeper, with every
 lock they take. One step is one lock taken or given back, or one decision.
 */
module Controller {
  import opened Wrappers
  import opened Jobs

  /** `_lock`, the registry's lock, `_device`, and each job's own. */
  datatype Lock = Central | Listing | Device | OfJob(job: nat)

  /** What the current job is asked for. */
  datatype Errand = Probe | ProbeLate | Keep | Read

  datatype Pc =
    // the current job, if it is not done
    | AskCurrent(why: Errand)
    | SeeCurrent(why: Errand)
    | AskDone(why: Errand, asked: nat)
    | SeeDone(why: Errand, asked: nat)
    // submitting a job
    | SubmitAsk(job: nat)
    | SubmitSee(job: nat)
    | SubmitAskDone(job: nat, other: nat)
    | SubmitSeeDone(job: nat, other: nat)
    | SubmitVerdict(job: nat, clear: bool)
    | ListAsk(job: nat)
    | ListNow(job: nat)
    | Launch(job: nat)
    // running it
    | WorkAsk(job: nat)
    | Working(job: nat)
    | NoteAsk(job: nat, last: bool)
    | Noting(job: nat, last: bool)
    // asking, before it lets go of the unit, whether the job has its result; `told` if it was told one
    | LastAsk(job: nat, told: bool)
    | LastSee(job: nat, told: bool)
    | FailAsk(job: nat)
    | Failing(job: nat)
    | WorkDone(job: nat)
    // a one-off claim of the unit
    | ClaimAsk
    | Claimed
    // the keeper
    | KeepTry
    | Keeping
    | Resting
    | Gone

  /** The locks a thread holds where it stands. */
  function Held(pc: Pc): set<Lock> {
    match pc
    case SeeCurrent(_) => {Central}
    case SeeDone(_, asked) => {OfJob(asked)}
    case SubmitSee(_) => {Central}
    case SubmitAskDone(_, _) => {Central}
    case SubmitSeeDone(_, other) => {Central, OfJob(other)}
    case SubmitVerdict(_, _) => {Central}
    case ListNow(_) => {Listing}
    case Working(_) => {Device}
    case NoteAsk(_, _) => {Device}
    case Noting(job, _) => {Device, OfJob(job)}
    case LastAsk(_, _) => {Device}
    case LastSee(job, _) => {Device, OfJob(job)}
    case FailAsk(_) => {Device}
    case Failing(job) => {Device, OfJob(job)}
    case WorkDone(_) => {Device}
    case Claimed => {Device}
    case Keeping => {Device}
    case _ => {}
  }

  /** The lock it is waiting for; a probe gives up waiting, and the keeper never waits. */
  function Wanted(pc: Pc): Option<Lock> {
    match pc
    case AskCurrent(_) => Some(Central)
    case AskDone(_, asked) => Some(OfJob(asked))
    case SubmitAsk(_) => Some(Central)
    case SubmitAskDone(_, other) => Some(OfJob(other))
    case ListAsk(_) => Some(Listing)
    case WorkAsk(_) => Some(Device)
    case NoteAsk(job, _) => Some(OfJob(job))
    case LastAsk(job, _) => Some(OfJob(job))
    case FailAsk(job) => Some(OfJob(job))
    case _ => None
  }

  /** Who may be talking to the unit. */
  predicate Touches(pc: Pc) {
    pc.Working? || pc.NoteAsk? || pc.Noting? || pc.LastAsk? || pc.LastSee? || pc.FailAsk? || pc.Failing? || pc.WorkDone?
    || pc.Claimed? || pc.Keeping?
  }

  datatype State = State(
    threads: map<nat, Pc>,
    owner: map<Lock, nat>,
    current: Option<nat>,
    done: set<nat>,
    accepted: seq<nat>,
    listed: seq<nat>,
    used: set<nat>)

  const START := State(map[], map[], None, {}, [], [], {})

  // -- steps ---------------------------------------------------------------

  function Taking(s: State, t: nat, lock: Lock, pc: Pc): State {
    s.(threads := s.threads[t := pc], owner := s.owner[lock := t])
  }

  function Giving(s: State, t: nat, lock: Lock, pc: Pc): State {
    s.(threads := s.threads[t := pc], owner := s.owner - {lock})
  }

  function Going(s: State, t: nat, pc: Pc): State { s.(threads := s.threads[t := pc]) }

  /** Where a thread goes once it knows whether a job is running. */
  function After(why: Errand, busy: bool): Pc {
    match why
    case Probe => if busy then Gone else ClaimAsk
    case Keep => if busy then Resting else KeepTry
    case _ => Gone
  }

  /** `self._current = job`, under `_lock`. */
  function Accept(s: State, t: nat, job: nat): State {
    Giving(s, t, Central, ListAsk(job)).(current := Some(job), accepted := s.accepted + [job])
  }

  /** A job told its result, for good or ill, under its own lock. */
  function Finished(s: State, t: nat, job: nat, pc: Pc): State {
    Giving(s, t, OfJob(job), pc).(done := s.done + {job})
  }

  ghost predicate Step(s: State, t: nat, r: State)
    requires t in s.threads
  {
    match s.threads[t]
    case AskCurrent(why) => Central !in s.owner && r == Taking(s, t, Central, SeeCurrent(why))
    case SeeCurrent(why) =>
      r == Giving(s, t, Central, if s.current.None? then After(why, false) else AskDone(why, s.current.value))
    case AskDone(why, job) => OfJob(job) !in s.owner && r == Taking(s, t, OfJob(job), SeeDone(why, job))
    case SeeDone(why, job) => r == Giving(s, t, OfJob(job), After(why, job !in s.done))
    case SubmitAsk(job) => Central !in s.owner && r == Taking(s, t, Central, SubmitSee(job))
    case SubmitSee(job) =>
      r == Going(s, t, if s.current.None? then SubmitVerdict(job, true) else SubmitAskDone(job, s.current.value))
    case SubmitAskDone(job, other) =>
      OfJob(other) !in s.owner && r == Taking(s, t, OfJob(other), SubmitSeeDone(job, other))
    case SubmitSeeDone(job, other) => r == Giving(s, t, OfJob(other), SubmitVerdict(job, other in s.done))
    case SubmitVerdict(job, clear) => r == if clear then Accept(s, t, job) else Giving(s, t, Central, Gone)
    case ListAsk(job) => Listing !in s.owner && r == Taking(s, t, Listing, ListNow(job))
    case ListNow(job) => r == Giving(s, t, Listing, Launch(job)).(listed := Recent(s.listed + [job], KEEP))
    case Launch(job) => exists w: nat :: w !in s.threads && r == Going(Going(s, t, Gone), w, WorkAsk(job))
    case WorkAsk(job) => Device !in s.owner && r == Taking(s, t, Device, Working(job))
    case Working(job) =>
      || r == Going(s, t, NoteAsk(job, false))
      || r == Going(s, t, NoteAsk(job, true))
      || r == Going(s, t, LastAsk(job, false))
    case NoteAsk(job, last) => OfJob(job) !in s.owner && r == Taking(s, t, OfJob(job), Noting(job, last))
    case Noting(job, last) =>
      r == if last then Finished(s, t, job, LastAsk(job, true)) else Giving(s, t, OfJob(job), Working(job))
    case LastAsk(job, told) => OfJob(job) !in s.owner && r == Taking(s, t, OfJob(job), LastSee(job, told))
    case LastSee(job, _) => r == Giving(s, t, OfJob(job), if job in s.done then WorkDone(job) else FailAsk(job))
    case FailAsk(job) => OfJob(job) !in s.owner && r == Taking(s, t, OfJob(job), Failing(job))
    case Failing(job) => r == Finished(s, t, job, WorkDone(job))
    case WorkDone(_) => r == Giving(s, t, Device, Gone)
    case ClaimAsk =>
      (Device !in s.owner && r == Taking(s, t, Device, Claimed)) || r == Going(s, t, AskCurrent(ProbeLate))
    case Claimed => r == Giving(s, t, Device, Gone)
    case KeepTry => r == if Device in s.owner then Going(s, t, Resting) else Taking(s, t, Device, Keeping)
    case Keeping => r == Giving(s, t, Device, Resting)
    case Resting => r == Going(s, t, AskCurrent(Keep))
    case Gone => false
  }

  /** A request comes in, or the keeper is started. */
  ghost predicate Arrive(s: State, t: nat, pc: Pc, r: State) {
    && t !in s.threads
    && ((pc.AskCurrent? && pc.why != ProbeLate && r == Going(s, t, pc))
        || (pc.SubmitAsk? && pc.job !in s.used && r == Going(s, t, pc).(used := s.used + {pc.job})))
  }

  ghost predicate Next(s: State, r: State) {
    || (exists t: nat :: t in s.threads && Step(s, t, r))
    || (exists t: nat, pc: Pc :: Arrive(s, t, pc, r))
  }

  // -- locks ---------------------------------------------------------------

  /** A lock is owned by the thread that stands where it holds it, and by no other. */
  ghost predicate Owned(s: State) {
    && (forall lock | lock in s.owner :: s.owner[lock] in s.threads && lock in Held(s.threads[s.owner[lock]]))
    && (forall t, lock | t in s.threads && lock in Held(s.threads[t]) :: lock in s.owner && s.owner[lock] == t)
  }

  lemma TakingOwned(s: State, t: nat, lock: Lock, pc: Pc)
    requires Owned(s) && t in s.threads && lock !in s.owner && Held(pc) == Held(s.threads[t]) + {lock}
    ensures Owned(Taking(s, t, lock, pc))
  {
    hide Held;
  }

  lemma GivingOwned(s: State, t: nat, lock: Lock, pc: Pc)
    requires Owned(s) && t in s.threads && lock in Held(s.threads[t]) && Held(pc) == Held(s.threads[t]) - {lock}
    ensures Owned(Giving(s, t, lock, pc))
  {
    hide Held;
    var r := Giving(s, t, lock, pc);
    assert lock in s.owner && s.owner[lock] == t;
    forall u, k | u in r.threads && k in Held(r.threads[u]) ensures k in r.owner && r.owner[k] == u {
      assert u in s.threads && k in Held(s.threads[u]);
    }
    forall k | k in r.owner ensures r.owner[k] in r.threads && k in Held(r.threads[r.owner[k]]) {
      assert k in s.owner && k != lock;
    }
  }

  lemma GoingOwned(s: State, t: nat, pc: Pc)
    requires Owned(s) && Held(pc) == if t in s.threads then Held(s.threads[t]) else {}
    ensures Owned(Going(s, t, pc))
  {
    hide Held;
  }

  lemma AfterHoldsNothing(why: Errand, busy: bool)
    ensures Held(After(why, busy)) == {}
  {
  }

  /** Only the threads and the owners matter to ownership. */
  lemma SameOwned(s: State, r: State)
    requires Owned(s) && r.threads == s.threads && r.owner == s.owner
    ensures Owned(r)
  {
    hide Held;
  }

  predicate Asking(pc: Pc) { pc.AskCurrent? || pc.SeeCurrent? || pc.AskDone? || pc.SeeDone? }

  predicate Submitting(pc: Pc) {
    pc.SubmitAsk? || pc.SubmitSee? || pc.SubmitAskDone? || pc.SubmitSeeDone? || pc.SubmitVerdict?
  }

  predicate Entering(pc: Pc) { pc.ListAsk? || pc.ListNow? || pc.Launch? }

  predicate Running(pc: Pc) { pc.WorkAsk? || pc.Working? || pc.NoteAsk? || pc.Noting? }

  predicate Closing(pc: Pc) { pc.LastAsk? || pc.LastSee? || pc.FailAsk? || pc.Failing? || pc.WorkDone? }

  predicate Laboring(pc: Pc) { Running(pc) || Closing(pc) }

  lemma AskingOwned(s: State, t: nat, r: State)
    requires Owned(s) && t in s.threads && Asking(s.threads[t]) && Step(s, t, r)
    ensures Owned(r)
  {
    hide Owned, Recent, Accept, After;
    match s.threads[t]
    case AskCurrent(why) => TakingOwned(s, t, Central, SeeCurrent(why));
    case SeeCurrent(why) =>
      AfterHoldsNothing(why, false);
      GivingOwned(s, t, Central, if s.current.None? then After(why, false) else AskDone(why, s.current.value));
    case AskDone(why, job) => TakingOwned(s, t, OfJob(job), SeeDone(why, job));
    case SeeDone(why, job) =>
      AfterHoldsNothing(why, job !in s.done);
      GivingOwned(s, t, OfJob(job), After(why, job !in s.done));
  }

  lemma SubmittingOwned(s: State, t: nat, r: State)
    requires Owned(s) && t in s.threads && Submitting(s.threads[t]) && Step(s, t, r)
    ensures Owned(r)
  {
    hide Owned, Recent, After;
    match s.threads[t]
    case SubmitAsk(job) => TakingOwned(s, t, Central, SubmitSee(job));
    case SubmitSee(job) =>
      GoingOwned(s, t, if s.current.None? then SubmitVerdict(job, true) else SubmitAskDone(job, s.current.value));
    case SubmitAskDone(job, other) => TakingOwned(s, t, OfJob(other), SubmitSeeDone(job, other));
    case SubmitSeeDone(job, other) => GivingOwned(s, t, OfJob(other), SubmitVerdict(job, other in s.done));
    case SubmitVerdict(job, clear) =>
      GivingOwned(s, t, Central, if clear then ListAsk(job) else Gone);
      SameOwned(Giving(s, t, Central, if clear then ListAsk(job) else Gone), r);
  }

  lemma EnteringOwned(s: State, t: nat, r: State)
    requires Owned(s) && t in s.threads && Entering(s.threads[t]) && Step(s, t, r)
    ensures Owned(r)
  {
    hide Owned, Recent, After;
    match s.threads[t]
    case ListAsk(job) => TakingOwned(s, t, Listing, ListNow(job));
    case ListNow(job) =>
      GivingOwned(s, t, Listing, Launch(job));
      SameOwned(Giving(s, t, Listing, Launch(job)), r);
    case Launch(job) =>
      var w: nat :| w !in s.threads && r == Going(Going(s, t, Gone), w, WorkAsk(job));
      GoingOwned(s, t, Gone);
      GoingOwned(Going(s, t, Gone), w, WorkAsk(job));
  }

  lemma RunningOwned(s: State, t: nat, r: State)
    requires Owned(s) && t in s.threads && Running(s.threads[t]) && Step(s, t, r)
    ensures Owned(r)
  {
    hide Owned, Recent, After;
    match s.threads[t]
    case WorkAsk(job) => TakingOwned(s, t, Device, Working(job));
    case Working(job) =>
      GoingOwned(s, t, NoteAsk(job, false));
      GoingOwned(s, t, NoteAsk(job, true));
      GoingOwned(s, t, LastAsk(job, false));
    case NoteAsk(job, last) => TakingOwned(s, t, OfJob(job), Noting(job, last));
    case Noting(job, last) =>
      GivingOwned(s, t, OfJob(job), if last then LastAsk(job, true) else Working(job));
      SameOwned(Giving(s, t, OfJob(job), if last then LastAsk(job, true) else Working(job)), r);
  }

  lemma ClosingOwned(s: State, t: nat, r: State)
    requires Owned(s) && t in s.threads && Closing(s.threads[t]) && Step(s, t, r)
    ensures Owned(r)
  {
    hide Owned, Recent, After;
    match s.threads[t]
    case LastAsk(job, told) => TakingOwned(s, t, OfJob(job), LastSee(job, told));
    case LastSee(job, _) => GivingOwned(s, t, OfJob(job), if job in s.done then WorkDone(job) else FailAsk(job));
    case FailAsk(job) => TakingOwned(s, t, OfJob(job), Failing(job));
    case Failing(job) =>
      GivingOwned(s, t, OfJob(job), WorkDone(job));
      SameOwned(Giving(s, t, OfJob(job), WorkDone(job)), r);
    case WorkDone(_) => GivingOwned(s, t, Device, Gone);
  }

  lemma OtherOwned(s: State, t: nat, r: State)
    requires Owned(s) && t in s.threads && Step(s, t, r)
    requires s.threads[t] in {ClaimAsk, Claimed, KeepTry, Keeping, Resting, Gone}
    ensures Owned(r)
  {
    hide Owned, Recent, After;
    match s.threads[t]
    case ClaimAsk =>
      if Device !in s.owner { TakingOwned(s, t, Device, Claimed); }
      GoingOwned(s, t, AskCurrent(ProbeLate));
    case Claimed => GivingOwned(s, t, Device, Gone);
    case KeepTry => if Device in s.owner { GoingOwned(s, t, Resting); } else { TakingOwned(s, t, Device, Keeping); }
    case Keeping => GivingOwned(s, t, Device, Resting);
    case Resting => GoingOwned(s, t, AskCurrent(Keep));
    case Gone =>
  }

  lemma StepOwned(s: State, t: nat, r: State)
    requires Owned(s) && t in s.threads && Step(s, t, r)
    ensures Owned(r)
  {
    hide Owned, Step;
    if Asking(s.threads[t]) {
      AskingOwned(s, t, r);
    } else if Submitting(s.threads[t]) {
      SubmittingOwned(s, t, r);
    } else if Entering(s.threads[t]) {
      EnteringOwned(s, t, r);
    } else if Running(s.threads[t]) {
      RunningOwned(s, t, r);
    } else if Closing(s.threads[t]) {
      ClosingOwned(s, t, r);
    } else {
      OtherOwned(s, t, r);
    }
  }

  lemma ArriveOwned(s: State, t: nat, pc: Pc, r: State)
    requires Owned(s) && Arrive(s, t, pc, r)
    ensures Owned(r)
  {
    hide Owned;
    GoingOwned(s, t, pc);
    SameOwned(Going(s, t, pc), r);
  }

  // -- jobs ----------------------------------------------------------------

  /** Its job has had its result. */
  predicate Over(pc: Pc) { pc.WorkDone? || ((pc.LastAsk? || pc.LastSee?) && pc.told) }

  /** Between being accepted and being finished. */
  predicate Carrying(pc: Pc) { Entering(pc) || (Laboring(pc) && !Over(pc)) }

  predicate Unlisted(pc: Pc) { pc.ListAsk? || pc.ListNow? }

  /** The job a thread is about. */
  function About(pc: Pc): Option<nat> {
    if Submitting(pc) || Entering(pc) || Laboring(pc) then Some(pc.job) else None
  }

  /** The accepted job that is not finished, if any. */
  function Live(s: State): Option<nat> {
    if s.accepted != [] && s.accepted[|s.accepted| - 1] !in s.done then Some(s.accepted[|s.accepted| - 1]) else None
  }

  /** What a thread knows where it stands is still so. */
  predicate Informed(s: State, pc: Pc) {
    && (Submitting(pc) ==> pc.job in s.used && pc.job !in s.accepted)
    && (Carrying(pc) ==> Live(s) == Some(pc.job))
    && (Over(pc) ==> pc.job in s.done)
    && (pc.SubmitAskDone? || pc.SubmitSeeDone? ==> s.current == Some(pc.other))
    && (pc.SubmitVerdict? && pc.clear ==> Live(s) == None)
    && (pc.AskDone? || pc.SeeDone? ==> pc.asked in s.accepted)
  }

  /** The accepted jobs, the last of them current, all but perhaps the last finished. */
  ghost predicate Ledger(s: State) {
    && Distinct(s.accepted)
    && (forall j | j in s.accepted :: j in s.used)
    && (forall j | j in s.done :: j in s.accepted)
    && s.current == (if s.accepted == [] then None else Some(s.accepted[|s.accepted| - 1]))
    && (forall i | 0 <= i < |s.accepted| - 1 :: s.accepted[i] in s.done)
  }

  ghost predicate Crew(s: State) {
    && (forall t | t in s.threads :: Informed(s, s.threads[t]))
    && (forall t, u | t in s.threads && u in s.threads && t != u && About(s.threads[t]).Some? ::
          About(s.threads[t]) != About(s.threads[u]))
    && (Live(s).Some? ==> exists t :: t in s.threads && Carrying(s.threads[t]))
  }

  /** The registry holds the last forty accepted jobs, but for one just being entered. */
  ghost predicate Listed(s: State) {
    && ((forall t | t in s.threads :: !Unlisted(s.threads[t])) ==> s.listed == Recent(s.accepted, KEEP))
    && (forall t | t in s.threads && Unlisted(s.threads[t]) ::
          s.accepted != [] && s.listed == Recent(s.accepted[..|s.accepted| - 1], KEEP))
  }

  ghost predicate Sane(s: State) { Owned(s) && Ledger(s) && Crew(s) && Listed(s) }

  /** A step of one thread that accepts and finishes nothing. */
  ghost predicate Quietly(s: State, t: nat, pc: Pc, r: State) {
    && t in s.threads
    && r == s.(threads := s.threads[t := pc], owner := r.owner)
    && Informed(s, pc) && (About(pc) == None || About(pc) == About(s.threads[t]))
    && (Carrying(s.threads[t]) ==> Carrying(pc)) && Unlisted(pc) == Unlisted(s.threads[t])
    && (Submitting(pc) ==> Submitting(s.threads[t]))
  }

  lemma SameInformed(s: State, r: State)
    requires r == s.(threads := r.threads, owner := r.owner, listed := r.listed)
    ensures forall pc :: Informed(r, pc) == Informed(s, pc)
    ensures Live(r) == Live(s) && (Ledger(s) ==> Ledger(r))
  {
  }

  lemma QuietCrew(s: State, t: nat, pc: Pc, r: State)
    requires Crew(s) && Quietly(s, t, pc, r)
    ensures Crew(r)
  {
    hide Informed, Carrying, Unlisted, About, Live;
    SameInformed(s, r);
    if Live(s).Some? {
      var u :| u in s.threads && Carrying(s.threads[u]);
      assert u in r.threads && Carrying(r.threads[u]);
    }
  }

  lemma QuietListed(s: State, t: nat, pc: Pc, r: State)
    requires Listed(s) && Quietly(s, t, pc, r)
    ensures Listed(r)
  {
    hide Informed, Carrying, Unlisted, About, Live, Recent;
    if forall u | u in r.threads :: !Unlisted(r.threads[u]) {
      forall u | u in s.threads ensures !Unlisted(s.threads[u]) { assert u in r.threads; }
    }
  }

  lemma QuietStep(s: State, t: nat, pc: Pc, r: State)
    requires Ledger(s) && Crew(s) && Listed(s) && Quietly(s, t, pc, r)
    ensures Ledger(r) && Crew(r) && Listed(r)
  {
    hide Ledger, Crew, Listed, Informed, Carrying, Unlisted, About;
    SameInformed(s, r);
    QuietCrew(s, t, pc, r);
    QuietListed(s, t, pc, r);
  }

  // -- accepting a job -----------------------------------------------------

  lemma NobodyCarries(s: State)
    requires Crew(s) && Live(s) == None
    ensures forall t | t in s.threads :: !Carrying(s.threads[t]) && !Unlisted(s.threads[t])
  {
    hide Live;
    forall t | t in s.threads ensures !Carrying(s.threads[t]) && !Unlisted(s.threads[t]) {
      assert Informed(s, s.threads[t]);
    }
  }

  lemma AcceptLedger(s: State, t: nat, job: nat)
    requires Ledger(s) && Live(s) == None && job in s.used && job !in s.accepted
    ensures Ledger(Accept(s, t, job)) && Live(Accept(s, t, job)) == Some(job)
  {
  }

  lemma OneHolder(s: State, t: nat, u: nat, lock: Lock)
    requires Owned(s) && t in s.threads && u in s.threads && lock in Held(s.threads[t]) && lock in Held(s.threads[u])
    ensures t == u
  {
    hide Held;
    assert lock in s.owner && s.owner[lock] == t;
  }

  /** Only one thread is inside `_lock`, so no other verdict goes stale. */
  lemma OthersStayInformed(s: State, t: nat, u: nat, job: nat)
    requires Sane(s) && t in s.threads && u in s.threads && u != t && s.threads[t] == SubmitVerdict(job, true)
    ensures Informed(Accept(s, t, job), s.threads[u])
  {
    hide Recent, Ledger, Listed;
    if Central in Held(s.threads[u]) { OneHolder(s, t, u, Central); }
    assert Informed(s, s.threads[u]) && Informed(s, s.threads[t]);
    assert About(s.threads[t]) == Some(job);
  }

  lemma AcceptCrew(s: State, t: nat, job: nat)
    requires Sane(s) && t in s.threads && s.threads[t] == SubmitVerdict(job, true)
    ensures Crew(Accept(s, t, job))
  {
    hide Recent, Informed, Listed, Live, Owned, Carrying;
    var r := Accept(s, t, job);
    assert Live(s) == None && job in s.used && job !in s.accepted by { VerdictClear(s, t, job); }
    AcceptLedger(s, t, job);
    assert t in r.threads && r.threads[t] == ListAsk(job);
    AcceptedInformed(r, job);
    forall u | u in r.threads ensures Informed(r, r.threads[u]) {
      if u != t { OthersStayInformed(s, t, u, job); }
    }
  }

  lemma VerdictClear(s: State, t: nat, job: nat)
    requires Crew(s) && t in s.threads && s.threads[t] == SubmitVerdict(job, true)
    ensures Live(s) == None && job in s.used && job !in s.accepted
  {
    hide Live;
    assert Informed(s, s.threads[t]);
  }

  lemma AcceptedInformed(r: State, job: nat)
    requires Live(r) == Some(job)
    ensures Informed(r, ListAsk(job)) && Carrying(ListAsk(job))
  {
    hide Live;
  }

  lemma AcceptListed(s: State, t: nat, job: nat)
    requires Sane(s) && t in s.threads && s.threads[t] == SubmitVerdict(job, true)
    ensures Listed(Accept(s, t, job))
  {
    hide Recent, Owned, Ledger, Held;
    VerdictClear(s, t, job);
    NobodyCarries(s);
    var r := Accept(s, t, job);
    assert r.accepted[..|r.accepted| - 1] == s.accepted;
    assert r.threads[t] == ListAsk(job) && t in r.threads;
  }

  // -- entering it in the registry -----------------------------------------

  lemma OneCarrier(s: State, t: nat, u: nat)
    requires Crew(s) && t in s.threads && u in s.threads && Carrying(s.threads[t]) && Carrying(s.threads[u])
    ensures t == u
  {
    hide Live;
    assert Informed(s, s.threads[t]) && Informed(s, s.threads[u]);
  }

  lemma EnterListed(s: State, t: nat, job: nat, r: State)
    requires Ledger(s) && Crew(s) && Listed(s) && t in s.threads && s.threads[t] == ListNow(job)
    requires r == s.(threads := s.threads[t := Launch(job)], owner := r.owner, listed := Recent(s.listed + [job], KEEP))
    ensures Listed(r)
  {
    hide Recent;
    assert Unlisted(s.threads[t]) && Informed(s, s.threads[t]);
    var before := s.accepted[..|s.accepted| - 1];
    assert s.accepted == before + [job];
    RecentOfRecent(before, job, KEEP);
    forall u | u in r.threads ensures !Unlisted(r.threads[u]) {
      if u != t && Unlisted(s.threads[u]) { OneCarrier(s, t, u); }
    }
  }

  lemma EnterCrew(s: State, t: nat, job: nat, r: State)
    requires Crew(s) && t in s.threads && s.threads[t] == ListNow(job)
    requires r == s.(threads := s.threads[t := Launch(job)], owner := r.owner, listed := r.listed)
    ensures Crew(r)
  {
    hide Live, Recent;
    SameInformed(s, r);
    assert Informed(s, s.threads[t]);
    assert t in r.threads && Carrying(r.threads[t]);
  }

  // -- starting its worker -------------------------------------------------

  lemma LaunchCrew(s: State, t: nat, w: nat, job: nat, r: State)
    requires Crew(s) && t in s.threads && w !in s.threads && s.threads[t] == Launch(job)
    requires r == s.(threads := s.threads[t := Gone][w := WorkAsk(job)])
    ensures Crew(r)
  {
    hide Live;
    SameInformed(s, r);
    assert Informed(s, s.threads[t]);
    assert w in r.threads && Carrying(r.threads[w]);
  }

  lemma LaunchListed(s: State, t: nat, w: nat, job: nat, r: State)
    requires Listed(s) && t in s.threads && w !in s.threads && s.threads[t] == Launch(job)
    requires r == s.(threads := s.threads[t := Gone][w := WorkAsk(job)])
    ensures Listed(r)
  {
    hide Recent;
    if forall u | u in r.threads :: !Unlisted(r.threads[u]) {
      forall u | u in s.threads ensures !Unlisted(s.threads[u]) { assert u in r.threads; }
    }
  }

  // -- finishing it --------------------------------------------------------

  /** Where a thread stands when it is about to tell its job's result, and where it goes from there. */
  predicate Telling(pc: Pc, next: Pc) {
    (pc.Noting? && pc.last && next == LastAsk(pc.job, true)) || (pc.Failing? && next == WorkDone(pc.job))
  }

  lemma FinishLedger(s: State, t: nat, job: nat, next: Pc)
    requires Ledger(s) && Crew(s) && t in s.threads && Telling(s.threads[t], next) && s.threads[t].job == job
    ensures Ledger(Finished(s, t, job, next)) && Live(Finished(s, t, job, next)) == None
  {
    assert Informed(s, s.threads[t]);
  }

  lemma FinishCrew(s: State, t: nat, job: nat, next: Pc)
    requires Ledger(s) && Crew(s) && t in s.threads && Telling(s.threads[t], next) && s.threads[t].job == job
    ensures Crew(Finished(s, t, job, next))
  {
    hide Live, Ledger;
    FinishLedger(s, t, job, next);
    var r := Finished(s, t, job, next);
    assert Informed(s, s.threads[t]);
    forall u | u in r.threads ensures Informed(r, r.threads[u]) {
      if u != t {
        assert Informed(s, s.threads[u]);
        if Carrying(s.threads[u]) { OneCarrier(s, t, u); }
      }
    }
  }

  lemma FinishListed(s: State, t: nat, job: nat, next: Pc)
    requires Listed(s) && t in s.threads && Telling(s.threads[t], next) && s.threads[t].job == job
    ensures Listed(Finished(s, t, job, next))
  {
    hide Recent;
    var r := Finished(s, t, job, next);
    if forall u | u in r.threads :: !Unlisted(r.threads[u]) {
      forall u | u in s.threads ensures !Unlisted(s.threads[u]) { assert u in r.threads; }
    }
  }

  // -- every step ----------------------------------------------------------

  /** The steps that change what is accepted, listed, running or finished. */
  predicate Momentous(pc: Pc) {
    (pc.SubmitVerdict? && pc.clear) || pc.ListNow? || pc.Launch? || (pc.Noting? && pc.last) || pc.Failing?
  }

  lemma AskingQuiet(s: State, t: nat, r: State)
    requires t in s.threads && Step(s, t, r) && Asking(s.threads[t]) && Informed(s, s.threads[t]) && Ledger(s)
    ensures t in r.threads && Quietly(s, t, r.threads[t], r)
  {
    hide Live, Recent;
  }

  lemma OtherQuiet(s: State, t: nat, r: State)
    requires t in s.threads && Step(s, t, r)
    requires s.threads[t] in {ClaimAsk, Claimed, KeepTry, Keeping, Resting, Gone}
    ensures t in r.threads && Quietly(s, t, r.threads[t], r)
  {
    hide Step, Quietly;
    if s.threads[t] in {ClaimAsk, Claimed} { ClaimQuiet(s, t, r); } else { KeeperQuiet(s, t, r); }
  }

  lemma ClaimQuiet(s: State, t: nat, r: State)
    requires t in s.threads && Step(s, t, r) && s.threads[t] in {ClaimAsk, Claimed}
    ensures t in r.threads && Quietly(s, t, r.threads[t], r)
  {
    hide Live, Recent;
  }

  lemma KeeperQuiet(s: State, t: nat, r: State)
    requires t in s.threads && Step(s, t, r) && s.threads[t] in {KeepTry, Keeping, Resting, Gone}
    ensures t in r.threads && Quietly(s, t, r.threads[t], r)
  {
    hide Live, Recent;
  }

  lemma SubmittingQuiet(s: State, t: nat, r: State)
    requires t in s.threads && Step(s, t, r) && Informed(s, s.threads[t]) && Ledger(s)
    requires Submitting(s.threads[t]) && !Momentous(s.threads[t])
    ensures t in r.threads && Quietly(s, t, r.threads[t], r)
  {
    hide Recent, Distinct;
  }

  lemma RunningQuiet(s: State, t: nat, r: State)
    requires t in s.threads && Step(s, t, r) && Informed(s, s.threads[t])
    requires (Running(s.threads[t]) && !Momentous(s.threads[t])) || s.threads[t].ListAsk?
    ensures t in r.threads && Quietly(s, t, r.threads[t], r)
  {
    hide Live, Recent;
  }

  lemma ClosingQuiet(s: State, t: nat, r: State)
    requires t in s.threads && Step(s, t, r) && Informed(s, s.threads[t])
    requires Closing(s.threads[t]) && !Momentous(s.threads[t])
    ensures t in r.threads && Quietly(s, t, r.threads[t], r)
  {
    hide Step, Quietly, Informed;
    if s.threads[t].LastAsk? || s.threads[t].LastSee? { LastQuiet(s, t, r); } else { LeavingQuiet(s, t, r); }
  }

  lemma LastQuiet(s: State, t: nat, r: State)
    requires t in s.threads && Step(s, t, r) && Informed(s, s.threads[t])
    requires s.threads[t].LastAsk? || s.threads[t].LastSee?
    ensures t in r.threads && Quietly(s, t, r.threads[t], r)
  {
    hide Recent, Held;
  }

  lemma LeavingQuiet(s: State, t: nat, r: State)
    requires t in s.threads && Step(s, t, r) && Informed(s, s.threads[t])
    requires s.threads[t].FailAsk? || s.threads[t].WorkDone?
    ensures t in r.threads && Quietly(s, t, r.threads[t], r)
  {
    hide Recent, Held;
  }

  lemma MomentousSane(s: State, t: nat, r: State)
    requires Sane(s) && t in s.threads && Step(s, t, r) && Momentous(s.threads[t])
    ensures Ledger(r) && Crew(r) && Listed(r)
  {
    hide Owned, Ledger, Crew, Listed, Recent, Live;
    match s.threads[t]
    case SubmitVerdict(job, clear) =>
      VerdictClear(s, t, job);
      AcceptLedger(s, t, job);
      AcceptCrew(s, t, job);
      AcceptListed(s, t, job);
    case ListNow(job) =>
      SameInformed(s, r);
      EnterCrew(s, t, job, r);
      EnterListed(s, t, job, r);
    case Launch(job) =>
      var w: nat :| w !in s.threads && r == Going(Going(s, t, Gone), w, WorkAsk(job));
      SameInformed(s, r);
      LaunchCrew(s, t, w, job, r);
      LaunchListed(s, t, w, job, r);
    case Noting(job, last) =>
      FinishLedger(s, t, job, LastAsk(job, true));
      FinishCrew(s, t, job, LastAsk(job, true));
      FinishListed(s, t, job, LastAsk(job, true));
    case Failing(job) =>
      FinishLedger(s, t, job, WorkDone(job));
      FinishCrew(s, t, job, WorkDone(job));
      FinishListed(s, t, job, WorkDone(job));
  }

  lemma CrewInformed(s: State, t: nat)
    requires Crew(s) && t in s.threads
    ensures Informed(s, s.threads[t])
  {
  }

  lemma StepQuiet(s: State, t: nat, r: State)
    requires Sane(s) && t in s.threads && Step(s, t, r) && !Momentous(s.threads[t])
    ensures t in r.threads && Quietly(s, t, r.threads[t], r)
  {
    hide Owned, Ledger, Crew, Listed, Step, Quietly, Informed;
    CrewInformed(s, t);
    if Submitting(s.threads[t]) {
      SubmittingQuiet(s, t, r);
    } else if Running(s.threads[t]) || s.threads[t].ListAsk? {
      RunningQuiet(s, t, r);
    } else if Closing(s.threads[t]) {
      ClosingQuiet(s, t, r);
    } else if Asking(s.threads[t]) {
      AskingQuiet(s, t, r);
    } else {
      OtherQuiet(s, t, r);
    }
  }

  lemma StepSane(s: State, t: nat, r: State)
    requires Sane(s) && t in s.threads && Step(s, t, r)
    ensures Sane(r)
  {
    hide Owned, Ledger, Crew, Listed, Step, Quietly, Informed;
    StepOwned(s, t, r);
    if Momentous(s.threads[t]) {
      MomentousSane(s, t, r);
    } else {
      StepQuiet(s, t, r);
      QuietStep(s, t, r.threads[t], r);
    }
  }

  lemma ArriveSane(s: State, t: nat, pc: Pc, r: State)
    requires Sane(s) && Arrive(s, t, pc, r)
    ensures Sane(r)
  {
    hide Owned, Recent, Live, Crew, Listed;
    ArriveOwned(s, t, pc, r);
    ArriveCrew(s, t, pc, r);
    ArriveListed(s, t, pc, r);
  }

  lemma ArriveListed(s: State, t: nat, pc: Pc, r: State)
    requires Listed(s) && Arrive(s, t, pc, r)
    ensures Listed(r)
  {
    hide Recent;
    if forall u | u in r.threads :: !Unlisted(r.threads[u]) {
      forall u | u in s.threads ensures !Unlisted(s.threads[u]) { assert u in r.threads; }
    }
  }

  lemma ArriveInformed(s: State, t: nat, pc: Pc, r: State, u: nat)
    requires Ledger(s) && Crew(s) && Arrive(s, t, pc, r) && u in r.threads
    ensures Informed(r, r.threads[u])
  {
    hide Recent, Distinct;
    if u != t { assert Informed(s, s.threads[u]); }
  }

  lemma ArriveCrew(s: State, t: nat, pc: Pc, r: State)
    requires Ledger(s) && Crew(s) && Arrive(s, t, pc, r)
    ensures Crew(r)
  {
    hide Recent, Informed, Ledger, Carrying, Live, About;
    forall u | u in r.threads ensures Informed(r, r.threads[u]) { ArriveInformed(s, t, pc, r, u); }
    ArriveLive(s, t, pc, r);
    if Live(s).Some? {
      var u :| u in s.threads && Carrying(s.threads[u]);
      assert u in r.threads && r.threads[u] == s.threads[u];
    }
    forall u | u in s.threads ensures About(s.threads[u]).Some? ==> About(s.threads[u]) != About(pc) {
      ArriveAbout(s, t, pc, r, u);
    }
  }

  /** A request that comes in is about a job nobody is about. */
  lemma ArriveAbout(s: State, t: nat, pc: Pc, r: State, u: nat)
    requires Ledger(s) && Crew(s) && Arrive(s, t, pc, r) && u in s.threads
    ensures About(s.threads[u]).Some? ==> About(s.threads[u]) != About(pc)
  {
    hide Recent, Crew, Ledger;
    UsedJob(s, u);
  }

  lemma ArriveLive(s: State, t: nat, pc: Pc, r: State)
    requires Arrive(s, t, pc, r)
    ensures Live(r) == Live(s)
  {
  }

  lemma UsedJob(s: State, u: nat)
    requires Ledger(s) && Crew(s) && u in s.threads
    ensures About(s.threads[u]).Some? ==> About(s.threads[u]).value in s.used
  {
    hide Recent, Distinct;
    assert Informed(s, s.threads[u]);
  }

  lemma NextSane(s: State, r: State)
    requires Sane(s) && Next(s, r)
    ensures Sane(r)
  {
    hide Sane, Step, Arrive;
    if t: nat :| t in s.threads && Step(s, t, r) {
      StepSane(s, t, r);
    } else {
      var t: nat, pc: Pc :| Arrive(s, t, pc, r);
      ArriveSane(s, t, pc, r);
    }
  }

  // -- every run -----------------------------------------------------------

  /** A run of the whole server, from its start. */
  ghost predicate Run(states: seq<State>) {
    && states != [] && states[0] == START
    && forall i | 0 <= i < |states| - 1 :: Next(states[i], states[i + 1])
  }

  lemma {:induction false} RunSane(states: seq<State>)
    requires Run(states)
    ensures Sane(states[|states| - 1])
    decreases |states|
  {
    hide Sane, Next;
    if |states| == 1 {
      StartSane();
    } else {
      var before := states[..|states| - 1];
      forall i | 0 <= i < |before| - 1 ensures Next(before[i], before[i + 1]) {
        assert before[i] == states[i] && before[i + 1] == states[i + 1];
      }
      RunSane(before);
      NextSane(before[|before| - 1], states[|states| - 1]);
    }
  }

  /** A state the server can get into. */
  ghost predicate Reachable(s: State) { exists states :: Run(states) && states[|states| - 1] == s }

  lemma ReachableSane(s: State)
    requires Reachable(s)
    ensures Sane(s)
  {
    hide Sane, Next;
    var states :| Run(states) && states[|states| - 1] == s;
    RunSane(states);
  }

  lemma StartSane()
    ensures Sane(START)
  {
  }

  /** At most one thread talks to the unit, and it holds `_device`. */
  lemma OneTouches(s: State, t: nat, u: nat)
    requires Reachable(s)
    ensures t in s.threads && u in s.threads && Touches(s.threads[t]) && Touches(s.threads[u]) ==>
              t == u && Device in s.owner && s.owner[Device] == t
  {
    hide Reachable, Ledger, Crew, Listed;
    ReachableSane(s);
    if t in s.threads && u in s.threads && Touches(s.threads[t]) && Touches(s.threads[u]) {
      OneHolder(s, t, u, Device);
    }
  }

  /** At most one accepted job is unfinished, and exactly one thread is seeing to it. */
  lemma OneLiveJob(s: State, i: nat, j: nat)
    requires Reachable(s)
    ensures i < j < |s.accepted| ==> s.accepted[i] in s.done && s.accepted[i] != s.accepted[j]
    ensures Live(s).Some? ==> exists t :: t in s.threads && Carrying(s.threads[t]) && s.threads[t].job == Live(s).value
                                          && forall u | u in s.threads && Carrying(s.threads[u]) :: u == t
  {
    hide Reachable, Owned, Listed;
    ReachableSane(s);
    if Live(s).Some? {
      var t :| t in s.threads && Carrying(s.threads[t]);
      assert Informed(s, s.threads[t]);
      forall u | u in s.threads && Carrying(s.threads[u]) ensures u == t { OneCarrier(s, t, u); }
    }
  }

  /** A finished job stays finished, and an accepted one accepted. */
  lemma NextKeeps(s: State, r: State)
    requires Next(s, r)
    ensures s.done <= r.done && s.accepted <= r.accepted
  {
    hide Step;
    if t: nat :| t in s.threads && Step(s, t, r) {
      if Submitting(s.threads[t]) || Running(s.threads[t]) { JobStepKeeps(s, t, r); } else { OtherStepKeeps(s, t, r); }
    }
  }

  lemma JobStepKeeps(s: State, t: nat, r: State)
    requires t in s.threads && Step(s, t, r) && (Submitting(s.threads[t]) || Running(s.threads[t]))
    ensures s.done <= r.done && s.accepted <= r.accepted
  {
  }

  lemma OtherStepKeeps(s: State, t: nat, r: State)
    requires t in s.threads && Step(s, t, r) && !Submitting(s.threads[t]) && !Running(s.threads[t])
    ensures s.done <= r.done && s.accepted <= r.accepted
  {
  }

  /** A worker lets go of the unit only once its job has its result, whether or not the runner gave it one. */
  lemma LeavesFinished(s: State, t: nat)
    requires Reachable(s)
    ensures t in s.threads && s.threads[t].WorkDone? ==> s.threads[t].job in s.done
  {
    hide Reachable, Owned, Ledger, Listed, Live;
    ReachableSane(s);
    if t in s.threads { CrewInformed(s, t); }
  }

  /** From the moment its worker is started, the live job is found by its id. */
  lemma LiveJobFound(s: State, t: nat)
    requires Reachable(s)
    ensures t in s.threads && Laboring(s.threads[t]) && !Over(s.threads[t]) ==> s.threads[t].job in s.listed
  {
    hide Reachable, Owned;
    ReachableSane(s);
    if t in s.threads && Laboring(s.threads[t]) && !Over(s.threads[t]) {
      assert Informed(s, s.threads[t]);
      forall u | u in s.threads ensures !Unlisted(s.threads[u]) {
        if Unlisted(s.threads[u]) { OneCarrier(s, t, u); }
      }
      LastIsRecent(s.accepted);
    }
  }

  lemma LastIsRecent(xs: seq<nat>)
    requires xs != []
    ensures xs[|xs| - 1] in Recent(xs, KEEP)
  {
    var r := Recent(xs, KEEP);
    assert r[|r| - 1] == xs[|xs| - 1];
  }

  /** The registry holds the last forty jobs accepted, but for one on its way in. */
  lemma RegistryHoldsTheLatest(s: State)
    requires Reachable(s)
    ensures || s.listed == Recent(s.accepted, 40)
            || (s.accepted != [] && s.listed == Recent(s.accepted[..|s.accepted| - 1], 40))
  {
    hide Reachable, Owned, Ledger, Crew, Recent;
    ReachableSane(s);
  }

  // -- who is turned away --------------------------------------------------

  /** A submission about to see whether a job is running. */
  predicate Looks(s: State, t: nat) {
    t in s.threads && (s.threads[t].SubmitSeeDone? || (s.threads[t].SubmitSee? && s.current == None))
  }

  /** What it sees is whether an accepted job is unfinished at that moment. */
  lemma SubmitJudged(s: State, t: nat, r: State)
    requires Sane(s) && Looks(s, t) && Step(s, t, r)
    ensures t in r.threads && r.threads[t] == SubmitVerdict(s.threads[t].job, Live(s) == None)
    ensures r.accepted == s.accepted
  {
    hide Owned, Listed, Recent;
    CrewInformed(s, t);
  }

  /** And that decides whether its job is the next to be accepted. */
  lemma VerdictKept(s: State, t: nat, r: State)
    requires t in s.threads && Step(s, t, r) && s.threads[t].SubmitVerdict?
    ensures var job, clear := s.threads[t].job, s.threads[t].clear;
            && r.accepted == s.accepted + (if clear then [job] else [])
            && t in r.threads && r.threads[t] == (if clear then ListAsk(job) else Gone)
  {
  }

  /** Not decided yet. */
  predicate Undecided(pc: Pc, job: nat) { Submitting(pc) && !pc.SubmitVerdict? && pc.job == job }

  /** Never to run: not accepted, not about to be, and its number used up. */
  ghost predicate Bounced(s: State, job: nat) {
    job in s.used && job !in s.accepted && forall u | u in s.threads :: About(s.threads[u]) != Some(job)
  }

  ghost predicate Decided(s: State, job: nat, clear: bool) { if clear then job in s.accepted else Bounced(s, job) }

  /** A step accepts no job but the one its thread is about, takes up no other, and moves no other thread. */
  ghost predicate Alone(s: State, t: nat, r: State)
    requires t in s.threads
  {
    && t in r.threads && (About(r.threads[t]) == None || About(r.threads[t]) == About(s.threads[t]))
    && (Submitting(r.threads[t]) ==> Submitting(s.threads[t]))
    && (forall u | u in s.threads && u != t :: u in r.threads && r.threads[u] == s.threads[u])
    && (forall u | u in r.threads && u !in s.threads :: About(r.threads[u]) == About(s.threads[t]))
    && (forall j | j in r.accepted :: j in s.accepted || About(s.threads[t]) == Some(j))
    && r.used == s.used
  }

  lemma StepAlone(s: State, t: nat, r: State)
    requires Sane(s) && t in s.threads && Step(s, t, r)
    ensures Alone(s, t, r)
  {
    hide Owned, Ledger, Crew, Listed, Step, Informed, About, Live;
    if Momentous(s.threads[t]) { MomentousAlone(s, t, r); } else { StepQuiet(s, t, r); }
  }

  lemma MomentousAlone(s: State, t: nat, r: State)
    requires t in s.threads && Step(s, t, r) && Momentous(s.threads[t])
    ensures Alone(s, t, r)
  {
    hide Recent, Held;
  }

  lemma StepBounced(s: State, t: nat, r: State, job: nat)
    requires t in s.threads && Alone(s, t, r) && Bounced(s, job)
    ensures Bounced(r, job)
  {
    hide About;
    forall u | u in r.threads ensures About(r.threads[u]) != Some(job) { if u in s.threads && u != t {} }
  }

  lemma ArriveBounced(s: State, t: nat, pc: Pc, r: State, job: nat)
    requires Arrive(s, t, pc, r) && Bounced(s, job)
    ensures Bounced(r, job)
  {
  }

  lemma NextDecided(s: State, r: State, job: nat, clear: bool)
    requires Sane(s) && Next(s, r) && Decided(s, job, clear)
    ensures Decided(r, job, clear)
  {
    hide Sane, Step, Arrive, Bounced, Alone;
    NextKeeps(s, r);
    if job in s.accepted {
      var i :| 0 <= i < |s.accepted| && s.accepted[i] == job;
      assert r.accepted[i] == job;
    }
    if t: nat :| t in s.threads && Step(s, t, r) {
      StepAlone(s, t, r);
      if !clear { StepBounced(s, t, r, job); }
    } else {
      var t: nat, pc: Pc :| Arrive(s, t, pc, r);
      if !clear { ArriveBounced(s, t, pc, r, job); }
    }
  }

  /** How far a submission has got, with what it saw at `look`. */
  ghost predicate Followed(s: State, t: nat, job: nat, look: Option<State>) {
    && t in s.threads
    && match look
       case None => Undecided(s.threads[t], job)
       case Some(seen) =>
         var clear := Live(seen) == None;
         || s.threads[t] == SubmitVerdict(job, clear)
         || (!Submitting(s.threads[t]) && Decided(s, job, clear))
  }

  /** What its own steps make of a submission. */
  lemma StepFollowed(s: State, t: nat, r: State, job: nat, look: Option<State>) returns (now: Option<State>)
    requires Sane(s) && t in s.threads && Step(s, t, r) && Followed(s, t, job, look)
    ensures Followed(r, t, job, now)
    ensures now == look || (now == Some(s) && Looks(s, t))
  {
    hide Sane, Step, Bounced, Live, About;
    now := look;
    StepAlone(s, t, r);
    if Looks(s, t) {
      SubmitJudged(s, t, r);
      now := Some(s);
    } else if s.threads[t].SubmitVerdict? {
      VerdictKept(s, t, r);
      VerdictBounces(s, t, r);
    } else if Submitting(s.threads[t]) {
      StillUndecided(s, t, r);
    } else {
      assert Next(s, r);
      NextDecided(s, r, job, Live(look.value) == None);
    }
  }

  lemma StillUndecided(s: State, t: nat, r: State)
    requires t in s.threads && Step(s, t, r)
    requires Submitting(s.threads[t]) && !s.threads[t].SubmitVerdict? && !Looks(s, t)
    ensures t in r.threads && Undecided(r.threads[t], s.threads[t].job)
  {
    hide Recent, Held;
  }

  /** One turned away never runs. */
  lemma VerdictBounces(s: State, t: nat, r: State)
    requires Sane(s) && t in s.threads && Step(s, t, r) && s.threads[t].SubmitVerdict?
    ensures Decided(r, s.threads[t].job, s.threads[t].clear)
  {
    hide Owned, Ledger, Listed, Recent, Live;
    CrewInformed(s, t);
    VerdictKept(s, t, r);
    StepAlone(s, t, r);
  }

  /** What the steps of others make of it. */
  lemma NextFollowed(s: State, r: State, t: nat, job: nat, look: Option<State>) returns (now: Option<State>)
    requires Sane(s) && Next(s, r) && Followed(s, t, job, look)
    ensures Followed(r, t, job, now)
    ensures now == look || (now == Some(s) && Looks(s, t))
  {
    hide Sane, Step, Bounced, Alone, Live, Decided, Looks;
    now := look;
    if Step(s, t, r) {
      now := StepFollowed(s, t, r, job, look);
    } else {
      Unmoved(s, r, t);
      if look.Some? && !Submitting(s.threads[t]) { NextDecided(s, r, job, Live(look.value) == None); }
    }
  }

  lemma Unmoved(s: State, r: State, t: nat)
    requires Sane(s) && Next(s, r) && t in s.threads && !Step(s, t, r)
    ensures t in r.threads && r.threads[t] == s.threads[t]
  {
    hide Sane, Step, About;
    if u: nat :| u in s.threads && Step(s, u, r) {
      StepAlone(s, u, r);
    }
  }

  /** Every state of a run is one in good order. */
  lemma RunSaneAt(states: seq<State>, k: nat)
    requires Run(states) && k < |states|
    ensures Sane(states[k])
  {
    hide Sane, Next;
    var before := states[..k + 1];
    forall i | 0 <= i < |before| - 1 ensures Next(before[i], before[i + 1]) {
      assert before[i] == states[i] && before[i + 1] == states[i + 1];
    }
    RunSane(before);
  }

  /** A submission followed through a run. */
  lemma {:induction false} RunFollowed(states: seq<State>, i: nat, k: nat, t: nat, job: nat)
    returns (j: nat, look: Option<State>)
    requires Run(states) && i <= k < |states| && t in states[i].threads && states[i].threads[t] == SubmitAsk(job)
    ensures Followed(states[k], t, job, look)
    ensures look.Some? ==> i <= j < k && look.value == states[j] && Looks(states[j], t)
    decreases k
  {
    hide Sane, Next, Followed, Looks;
    j, look := i, None;
    if i == k {
      FollowedFirst(states[i], t, job);
    } else {
      j, look := RunFollowed(states, i, k - 1, t, job);
      RunSaneAt(states, k - 1);
      assert Next(states[k - 1], states[k - 1 + 1]);
      var now := NextFollowed(states[k - 1], states[k], t, job, look);
      if now != look { j := k - 1; }
      look := now;
    }
  }

  lemma FollowedFirst(s: State, t: nat, job: nat)
    requires t in s.threads && s.threads[t] == SubmitAsk(job)
    ensures Followed(s, t, job, None)
  {
  }

  /**
   Over any run, whatever the other threads do meanwhile: a submission that has been
   decided looked once, and its job was accepted if no accepted job was unfinished
   at that moment; if one was, its own never is.
   */
  lemma SubmissionDecided(states: seq<State>, i: nat, k: nat, t: nat, job: nat) returns (j: nat)
    requires Run(states) && i <= k < |states| && t in states[i].threads && states[i].threads[t] == SubmitAsk(job)
    requires t in states[k].threads && !Submitting(states[k].threads[t])
    ensures i <= j < k && Looks(states[j], t)
    ensures job in states[k].accepted <==> Live(states[j]) == None
  {
    hide Sane, Next, Looks, Run, Live;
    var look: Option<State>;
    j, look := RunFollowed(states, i, k, t, job);
  }

  /**
   A probe or the keeper is turned away exactly if the job it was told of is still
   the one running; one told of no job found none running.
   */
  lemma GlanceJudged(s: State, t: nat, r: State)
    requires Sane(s) && t in s.threads && Step(s, t, r)
    requires s.threads[t].SeeDone? || (s.threads[t].SeeCurrent? && s.current == None)
    ensures var pc := s.threads[t];
            var busy := pc.SeeDone? && Live(s) == Some(pc.asked);
            && (pc.SeeCurrent? ==> Live(s) == None)
            && t in r.threads
            && (pc.why == Probe ==> r.threads[t] == if busy then Gone else ClaimAsk)
            && (pc.why == Keep ==> r.threads[t] == if busy then Resting else KeepTry)
            && (pc.why == ProbeLate || pc.why == Read ==> r.threads[t] == Gone)
  {
    hide Owned, Listed, Recent;
    CrewInformed(s, t);
  }

  lemma ReachableOn(s: State, r: State)
    requires Reachable(s) && Next(s, r)
    ensures Reachable(r)
  {
    hide Next;
    var states :| Run(states) && states[|states| - 1] == s;
    var more := states + [r];
    forall i | 0 <= i < |more| - 1 ensures Next(more[i], more[i + 1]) {
      if i == |states| - 1 { assert more[i] == s; } else { assert Next(states[i], states[i + 1]); }
    }
    assert Run(more);
  }

  lemma Arrives(s: State, t: nat, pc: Pc, r: State)
    requires Reachable(s) && Arrive(s, t, pc, r)
    ensures Reachable(r)
  {
    hide Reachable, Arrive, Step;
    assert Next(s, r);
    ReachableOn(s, r);
  }

  lemma Steps(s: State, t: nat, r: State)
    requires Reachable(s) && t in s.threads && Step(s, t, r)
    ensures Reachable(r)
  {
    hide Reachable, Arrive, Step;
    assert Next(s, r);
    ReachableOn(s, r);
  }

  /** A submission that saw no job running has its own accepted. */
  lemma Submits(s: State, t: nat, job: nat) returns (r: State)
    requires Reachable(s) && t in s.threads && s.threads[t] == SubmitVerdict(job, true)
    ensures Reachable(r)
    ensures r == s.(threads := s.threads[t := ListAsk(job)], owner := s.owner - {Central}, current := Some(job),
                    accepted := s.accepted + [job])
  {
    hide Reachable, Recent;
    r := Accept(s, t, job);
    Steps(s, t, r);
  }

  /** The first job submitted. */
  lemma FirstSubmitted() returns (s: State)
    ensures Reachable(s) && s.threads == map[0 := SubmitVerdict(1, true)] && s.owner == map[Central := 0]
    ensures s == START.(threads := s.threads, owner := s.owner, used := {1})
  {
    hide Reachable, Recent;
    StartReachable();
    s := Going(START, 0, SubmitAsk(1)).(used := {1});
    Arrives(START, 0, SubmitAsk(1), s);
    var r := Taking(s, 0, Central, SubmitSee(1));
    Steps(s, 0, r);
    s := Going(r, 0, SubmitVerdict(1, true));
    Steps(r, 0, s);
    assert s.threads == map[0 := SubmitVerdict(1, true)] && s.owner == map[Central := 0];
  }

  lemma StartReachable()
    ensures Reachable(START)
  {
    assert Run([START]) && [START][|[START]| - 1] == START;
  }

  /** A job entered in the registry. */
  lemma Enlists(s: State, t: nat, job: nat) returns (r: State)
    requires Reachable(s) && t in s.threads && s.threads[t] == ListAsk(job) && s.owner == map[]
    ensures Reachable(r) && r == s.(threads := s.threads[t := Launch(job)], listed := r.listed)
  {
    hide Reachable, Recent;
    var q := Taking(s, t, Listing, ListNow(job));
    Steps(s, t, q);
    r := Giving(q, t, Listing, Launch(job)).(listed := Recent(s.listed + [job], KEEP));
    Steps(q, t, r);
    assert r.owner == s.owner && r.threads == s.threads[t := Launch(job)];
  }

  /** Its worker started, and at work. */
  lemma Launches(s: State, t: nat, job: nat, w: nat) returns (r: State)
    requires Reachable(s) && t in s.threads && s.threads[t] == Launch(job) && w !in s.threads && s.owner == map[]
    ensures Reachable(r) && r == s.(threads := s.threads[t := Gone][w := Working(job)], owner := map[Device := w])
  {
    hide Reachable, Recent;
    var q := Going(Going(s, t, Gone), w, WorkAsk(job));
    Steps(s, t, q);
    r := Taking(q, w, Device, Working(job));
    Steps(q, w, r);
    assert r.threads == s.threads[t := Gone][w := Working(job)];
  }

  /** The keeper started, and told which job is the current one. */
  lemma KeeperTold(s: State, t: nat, job: nat) returns (r: State)
    requires Reachable(s) && t !in s.threads && Central !in s.owner && s.current == Some(job)
    ensures Reachable(r) && r == s.(threads := s.threads[t := AskDone(Keep, job)])
  {
    hide Reachable, Recent;
    var q := Going(s, t, AskCurrent(Keep));
    Arrives(s, t, AskCurrent(Keep), q);
    r := Taking(q, t, Central, SeeCurrent(Keep));
    Steps(q, t, r);
    q := Giving(r, t, Central, AskDone(Keep, job));
    Steps(r, t, q);
    r := q;
    assert r.owner == s.owner && r.threads == s.threads[t := AskDone(Keep, job)];
  }

  /** A job given its result. */
  lemma Finishes(s: State, t: nat, job: nat) returns (r: State)
    requires Reachable(s) && t in s.threads && s.threads[t] == Working(job) && OfJob(job) !in s.owner
    ensures Reachable(r) && r == s.(threads := s.threads[t := LastAsk(job, true)], done := s.done + {job})
  {
    hide Reachable, Recent, Accept, After;
    var q := Going(s, t, NoteAsk(job, true));
    Steps(s, t, q);
    r := Taking(q, t, OfJob(job), Noting(job, true));
    Steps(q, t, r);
    r := Notes(r, t, job);
    assert r.owner == s.owner && r.threads == s.threads[t := LastAsk(job, true)];
  }

  lemma Notes(s: State, t: nat, job: nat) returns (r: State)
    requires Reachable(s) && t in s.threads && s.threads[t] == Noting(job, true)
    ensures Reachable(r) && r == Finished(s, t, job, LastAsk(job, true))
  {
    hide Reachable, Recent, Accept, After;
    r := Finished(s, t, job, LastAsk(job, true));
    Steps(s, t, r);
  }

  /** Another submitted, and about to ask whether the first is done. */
  lemma Comes(s: State, t: nat, job: nat, other: nat) returns (r: State)
    requires Reachable(s) && t !in s.threads && Central !in s.owner && s.current == Some(other) && job !in s.used
    ensures Reachable(r)
    ensures r == s.(threads := s.threads[t := SubmitAskDone(job, other)], owner := s.owner[Central := t],
                    used := s.used + {job})
  {
    hide Reachable, Recent;
    r := Going(s, t, SubmitAsk(job)).(used := s.used + {job});
    Arrives(s, t, SubmitAsk(job), r);
    var q := Taking(r, t, Central, SubmitSee(job));
    Steps(r, t, q);
    r := Going(q, t, SubmitAskDone(job, other));
    Steps(q, t, r);
    assert r.threads == s.threads[t := SubmitAskDone(job, other)];
  }

  /** It is. */
  lemma Learns(s: State, t: nat, job: nat, other: nat) returns (r: State)
    requires Reachable(s) && t in s.threads && s.threads[t] == SubmitAskDone(job, other)
    requires OfJob(other) !in s.owner && other in s.done
    ensures Reachable(r) && r == s.(threads := s.threads[t := SubmitVerdict(job, true)])
  {
    hide Reachable, Recent;
    var q := Taking(s, t, OfJob(other), SubmitSeeDone(job, other));
    Steps(s, t, q);
    r := Giving(q, t, OfJob(other), SubmitVerdict(job, true));
    Steps(q, t, r);
    assert r.owner == s.owner && r.threads == s.threads[t := SubmitVerdict(job, true)];
  }

  /** The first job at work. */
  lemma FirstAtWork() returns (s: State)
    ensures Reachable(s) && s.threads == map[0 := Gone, 1 := Working(1)] && s.owner == map[Device := 1]
    ensures s.current == Some(1) && s.accepted == [1] && s.done == {} && s.used == {1}
  {
    hide Reachable, Recent, Step, Arrive;
    s := FirstSubmitted();
    s := Submits(s, 0, 1);
    s := Enlists(s, 0, 1);
    s := Launches(s, 0, 1, 1);
    assert s.threads == map[0 := Gone, 1 := Working(1)];
  }

  /** The keeper told of the first, which finishes; and then a second accepted. */
  lemma SecondAccepted() returns (s: State)
    ensures Reachable(s) && 2 in s.threads && s.threads[2] == AskDone(Keep, 1) && s.owner == map[Device := 1]
    ensures s.accepted == [1, 2] && s.done == {1}
  {
    hide Reachable, Recent, Step, Arrive;
    s := FirstAtWork();
    s := KeeperTold(s, 2, 1);
    s := Finishes(s, 1, 1);
    s := Comes(s, 3, 2, 1);
    s := Learns(s, 3, 2, 1);
    s := Submits(s, 3, 2);
    assert s.owner == map[Device := 1];
  }

  /**
   A job that starts after the keeper was told of another does not turn it away: the
   keeper may be about to learn that job 1 is done while job 2 is running.
   */
  lemma GlanceCanMiss() returns (s: State)
    ensures Reachable(s) && 2 in s.threads && s.threads[2] == SeeDone(Keep, 1) && Live(s) == Some(2)
  {
    hide Reachable, Recent, Accept, After;
    var q := SecondAccepted();
    s := Taking(q, 2, OfJob(1), SeeDone(Keep, 1));
    Steps(q, 2, s);
  }

  /** Let through, they have the unit if nobody else has: the keeper at once, a probe if it does not give up. */
  lemma FreeUnitClaimed(s: State, t: nat, r: State)
    requires Sane(s) && t in s.threads
    ensures s.threads[t] == KeepTry && Step(s, t, r) ==>
              t in r.threads && r.threads[t] == if Device in s.owner then Resting else Keeping
    ensures s.threads[t] == ClaimAsk && Device !in s.owner ==> Step(s, t, Taking(s, t, Device, Claimed))
    ensures Device in s.owner <==> exists u :: u in s.threads && Touches(s.threads[u])
  {
    hide Ledger, Crew, Listed, Recent;
    if Device in s.owner { DeviceTouched(s.threads[s.owner[Device]]); }
    if u :| u in s.threads && Touches(s.threads[u]) { DeviceTouched(s.threads[u]); }
  }

  lemma DeviceTouched(pc: Pc)
    ensures Touches(pc) <==> Device in Held(pc)
  {
  }

  // -- no deadlock ---------------------------------------------------------

  /** A thread that can take a step whatever the others do. */
  predicate Ready(s: State, t: nat) {
    t in s.threads && s.threads[t] != Gone && (Wanted(s.threads[t]).Some? ==> Wanted(s.threads[t]).value !in s.owner)
  }

  /** No thread holds both `_lock` and `_device`, and one that holds a job's lock waits for nothing. */
  lemma LockOrder(pc: Pc, lock: Lock)
    requires lock in Held(pc)
    ensures pc != Gone && !({Central, Device} <= Held(pc))
    ensures Wanted(pc).Some? ==> Wanted(pc).value.OfJob? && !lock.OfJob?
  {
  }

  /** Some step of a thread that is not kept waiting. */
  function Advance(s: State, t: nat, w: nat): State
    requires t in s.threads
  {
    match s.threads[t]
    case AskCurrent(why) => Taking(s, t, Central, SeeCurrent(why))
    case SeeCurrent(why) =>
      Giving(s, t, Central, if s.current.None? then After(why, false) else AskDone(why, s.current.value))
    case AskDone(why, job) => Taking(s, t, OfJob(job), SeeDone(why, job))
    case SeeDone(why, job) => Giving(s, t, OfJob(job), After(why, job !in s.done))
    case SubmitAsk(job) => Taking(s, t, Central, SubmitSee(job))
    case SubmitSee(job) =>
      Going(s, t, if s.current.None? then SubmitVerdict(job, true) else SubmitAskDone(job, s.current.value))
    case SubmitAskDone(job, other) => Taking(s, t, OfJob(other), SubmitSeeDone(job, other))
    case SubmitSeeDone(job, other) => Giving(s, t, OfJob(other), SubmitVerdict(job, other in s.done))
    case SubmitVerdict(job, clear) => if clear then Accept(s, t, job) else Giving(s, t, Central, Gone)
    case ListAsk(job) => Taking(s, t, Listing, ListNow(job))
    case ListNow(job) => Giving(s, t, Listing, Launch(job)).(listed := Recent(s.listed + [job], KEEP))
    case Launch(job) => Going(Going(s, t, Gone), w, WorkAsk(job))
    case WorkAsk(job) => Taking(s, t, Device, Working(job))
    case Working(job) => Going(s, t, NoteAsk(job, true))
    case NoteAsk(job, last) => Taking(s, t, OfJob(job), Noting(job, last))
    case Noting(job, last) =>
      if last then Finished(s, t, job, LastAsk(job, true)) else Giving(s, t, OfJob(job), Working(job))
    case LastAsk(job, told) => Taking(s, t, OfJob(job), LastSee(job, told))
    case LastSee(job, _) => Giving(s, t, OfJob(job), if job in s.done then WorkDone(job) else FailAsk(job))
    case FailAsk(job) => Taking(s, t, OfJob(job), Failing(job))
    case Failing(job) => Finished(s, t, job, WorkDone(job))
    case WorkDone(_) => Giving(s, t, Device, Gone)
    case ClaimAsk => Going(s, t, AskCurrent(ProbeLate))
    case Claimed => Giving(s, t, Device, Gone)
    case KeepTry => if Device in s.owner then Going(s, t, Resting) else Taking(s, t, Device, Keeping)
    case Keeping => Giving(s, t, Device, Resting)
    case Resting => Going(s, t, AskCurrent(Keep))
    case Gone => s
  }

  lemma ReadySteps(s: State, t: nat, w: nat)
    requires Ready(s, t) && w !in s.threads
    ensures Step(s, t, Advance(s, t, w))
  {
    hide Recent, After, Held;
  }

  lemma SomebodyNew(s: State) returns (w: nat)
    ensures w !in s.threads
  {
    w := 0;
    while w in s.threads
      invariant forall k: nat | k < w :: k in s.threads.Keys
      decreases |s.threads.Keys| - w
    {
      AllBelow(s.threads.Keys, w + 1);
      w := w + 1;
    }
  }

  lemma {:induction false} AllBelow(ids: set<nat>, n: nat)
    requires forall k: nat | k < n :: k in ids
    ensures n <= |ids|
    decreases n
  {
    if n > 0 {
      AllBelow(ids - {n - 1}, n - 1);
    }
  }

  /** The lock `t` wants is `u`'s. */
  predicate AwaitsThread(s: State, t: nat, u: nat) {
    t in s.threads && Wanted(s.threads[t]).Some? && Wanted(s.threads[t]).value in s.owner
    && u == s.owner[Wanted(s.threads[t]).value]
  }

  /**
   Nothing is ever stuck: whoever is not finished can step, or waits for a thread
   that can, or for one that waits for a thread that can.
   */
  lemma NoDeadlock(s: State, t: nat) returns (u: nat, r: State)
    requires Reachable(s) && t in s.threads && s.threads[t] != Gone
    ensures u in s.threads && Step(s, u, r)
    ensures u == t || AwaitsThread(s, t, u) || exists h :: AwaitsThread(s, t, h) && AwaitsThread(s, h, u)
  {
    hide Reachable, Ledger, Crew, Listed, Step, Advance, Held, Wanted;
    ReachableSane(s);
    var w := SomebodyNew(s);
    u := t;
    if !Ready(s, t) {
      var h := s.owner[Wanted(s.threads[t]).value];
      u := h;
      LockOrder(s.threads[h], Wanted(s.threads[t]).value);
      assert AwaitsThread(s, t, h);
      if !Ready(s, h) {
        var lock := Wanted(s.threads[h]).value;
        u := s.owner[lock];
        LockOrder(s.threads[u], lock);
        assert AwaitsThread(s, h, u);
      }
    }
    ReadySteps(s, u, w);
    r := Advance(s, u, w);
  }
}
