/**
 Jobs, whose phase a page polls while a worker moves it on, and the registry that
 keeps the most recent of them addressable.
 */
module Jobs {
  import opened Wrappers

  datatype Phase = MOVING | AWAITING_INSERT | INGESTING | PRESENTED | PARKING | RETRACTING | DONE | FAILED

  predicate Terminal(p: Phase) { p == DONE || p == FAILED }

  predicate Prompting(p: Phase) { p == AWAITING_INSERT || p == PRESENTED }

  /** The phases of a job in which the person is prompted. */
  function Prompts(phases: seq<Phase>): seq<Phase> {
    if phases == [] then []
    else (if Prompting(phases[0]) then [phases[0]] else []) + Prompts(phases[1..])
  }

  /** A load prompts once, for its disc; an eject once, for the take, if there is a disc to take; a reset never does. */
  lemma PromptsOnce()
    ensures Prompts([MOVING, AWAITING_INSERT, INGESTING, PARKING, DONE]) == [AWAITING_INSERT]
    ensures Prompts([MOVING, AWAITING_INSERT, PARKING, FAILED]) == [AWAITING_INSERT]
    ensures Prompts([MOVING, PRESENTED, PARKING, DONE]) == [PRESENTED]
    ensures Prompts([MOVING, PRESENTED, RETRACTING, FAILED]) == [PRESENTED]
    ensures Prompts([MOVING, PARKING, FAILED]) == [] && Prompts([MOVING, DONE]) == []
  {
    PromptsIn([MOVING, AWAITING_INSERT, INGESTING, PARKING, DONE]);
    PromptsIn([MOVING, AWAITING_INSERT, PARKING, FAILED]);
    PromptsIn([MOVING, PRESENTED, PARKING, DONE]);
    PromptsIn([MOVING, PRESENTED, RETRACTING, FAILED]);
    PromptsIn([MOVING, PARKING, FAILED]);
  }

  lemma PromptsIn(phases: seq<Phase>)
    requires |phases| >= 2
    ensures Prompts(phases)
         == (if Prompting(phases[0]) then [phases[0]] else [])
            + (if Prompting(phases[1]) then [phases[1]] else []) + Prompts(phases[2..])
  {
    assert phases[1..][1..] == phases[2..];
  }

  /** What a page sees of a job. */
  datatype Snapshot = Snapshot(
    id: string,
    phase: Phase,
    error: bool,
    disc: Option<int>,
    needsDetails: bool,
    done: bool,
    ok: bool,
    prompting: bool)

  class Job {
    const id: string
    const discId: Option<int>
    const slot: Option<int>

    var phase: Phase
    var error: bool
    var disc: Option<int>
    var needsDetails: bool

    /** Every phase the job has been in, in order. */
    ghost var history: seq<Phase>

    /** Not finished, and never has been. */
    ghost predicate Live()
      reads this
    {
      !error && history != [] && phase == history[|history| - 1]
      && forall i | 0 <= i < |history| :: !Terminal(history[i])
    }

    /** Finished once, and not touched since. */
    ghost predicate Ended()
      reads this
    {
      && history != [] && phase == history[|history| - 1] && Terminal(phase) && (error <==> phase == FAILED)
      && forall i | 0 <= i < |history| - 1 :: !Terminal(history[i])
    }

    lemma LiveIsNotEnded()
      ensures Live() ==> !Terminal(phase)
      ensures Ended() ==> Terminal(phase)
    {
    }

    constructor (id: string, discId: Option<int>, slot: Option<int>)
      ensures this.id == id && this.discId == discId && this.slot == slot
      ensures Live() && history == [MOVING] && !error && disc == None && !needsDetails
    {
      this.id, this.discId, this.slot := id, discId, slot;
      phase, error, disc, needsDetails := MOVING, false, None, false;
      history := [MOVING];
    }

    method SetPhase(next: Phase)
      modifies this`phase, this`history
      ensures phase == next && history == old(history) + [next]
      ensures old(Live()) && !Terminal(next) ==> Live()
    {
      phase := next;
      history := history + [next];
    }

    method Succeed(disc: Option<int> := None, needsDetails: bool := false)
      modifies this
      ensures phase == DONE && history == old(history) + [DONE] && error == old(error)
      ensures old(Live()) ==> Ended()
      ensures this.disc == if disc.Some? then disc else old(this.disc)
      ensures this.needsDetails == (needsDetails || old(this.needsDetails))
    {
      phase := DONE;
      history := history + [DONE];
      if disc.Some? { this.disc := disc; }
      if needsDetails { this.needsDetails := true; }
    }

    method Fail(disc: Option<int> := None)
      modifies this
      ensures phase == FAILED && error && history == old(history) + [FAILED]
      ensures old(Live()) ==> Ended()
      ensures this.disc == (if disc.Some? then disc else old(this.disc)) && needsDetails == old(needsDetails)
    {
      phase := FAILED;
      error := true;
      history := history + [FAILED];
      if disc.Some? { this.disc := disc; }
    }

    method TakeSnapshot() returns (s: Snapshot)
      ensures s == Snapshot(id, phase, error, disc, needsDetails, Terminal(phase), phase == DONE, Prompting(phase))
      ensures s.done && !s.ok <==> phase == FAILED
      ensures !(s.done && s.prompting)
      ensures Live() || Ended() ==> (s.error <==> s.done && !s.ok)
    {
      s := Snapshot(id, phase, error, disc, needsDetails, Terminal(phase), phase == DONE, Prompting(phase));
    }
  }

  // -- the registry --------------------------------------------------------

  const KEEP: nat := 40

  /** The last `keep` of a sequence. */
  function Recent<T>(xs: seq<T>, keep: nat): (r: seq<T>)
    ensures |r| <= keep && |r| <= |xs| && r == xs[|xs| - |r|..]
  {
    if |xs| <= keep then xs else xs[|xs| - keep..]
  }

  lemma ForgottenOldest<T>(xs: seq<T>, gone: nat, keep: nat)
    requires gone <= |xs| && |xs| - gone <= keep && (gone == 0 || |xs| - gone >= keep)
    ensures xs[gone..] == Recent(xs, keep)
    ensures keep > 0 && xs != [] ==> xs[gone..] != [] && xs[gone..][|xs| - gone - 1] == xs[|xs| - 1]
  {
  }

  /** Forgetting as one goes is forgetting at the end. */
  lemma RecentOfRecent<T>(xs: seq<T>, x: T, keep: nat)
    ensures Recent(Recent(xs, keep) + [x], keep) == Recent(xs + [x], keep)
  {
    var r := Recent(xs, keep);
    assert r + [x] == (xs + [x])[|xs| - |r|..];
  }

  predicate Distinct<T(==)>(xs: seq<T>) { forall i, j | 0 <= i < j < |xs| :: xs[i] != xs[j] }

  /** Exactly these, each once. */
  ghost predicate Lists(order: seq<string>, ids: set<string>) {
    Distinct(order) && forall id :: id in order <==> id in ids
  }

  lemma ListsOneMore(order: seq<string>, ids: set<string>, id: string)
    requires Lists(order, ids) && id !in order
    ensures Lists(order + [id], ids + {id})
  {
  }

  lemma ListsOneLess(order: seq<string>, ids: set<string>)
    requires Lists(order, ids) && order != []
    ensures Lists(order[1..], ids - {order[0]})
  {
    assert order == [order[0]] + order[1..];
  }

  lemma Listed(order: seq<string>, ids: set<string>)
    requires Lists(order, ids)
    ensures forall id :: id in order <==> id in ids
  {
  }

  ghost predicate Within(some: map<string, Job>, all: map<string, Job>) {
    forall id | id in some :: id in all && some[id] == all[id]
  }

  class JobRegistry {
    var jobs: map<string, Job>
    var order: seq<string>
    const keep: nat

    /** What is listed is what is held, each job under its own id. */
    ghost predicate Tidy()
      reads this
    {
      && Lists(order, jobs.Keys) && |order| <= keep
      && (forall id | id in jobs :: jobs[id].id == id)
    }

    constructor (keep: nat := KEEP)
      ensures Tidy() && this.keep == keep && order == [] && jobs == map[]
    {
      this.keep := keep;
      jobs, order := map[], [];
    }

    /** Adds a job; the oldest is forgotten once there are too many. */
    method Add(job: Job)
      modifies this
      ensures order == Recent(old(order) + [job.id], keep)
      ensures old(Tidy()) && job.id !in old(order) ==>
                && Tidy()
                && Within(jobs, old(jobs)[job.id := job])
                && (keep > 0 ==> Get(job.id) == Some(job))
    {
      hide Lists, Recent;
      ghost var fit := old(Tidy()) && job.id !in old(order);
      if fit { ListsOneMore(order, jobs.Keys, job.id); }
      jobs := jobs[job.id := job];
      order := order + [job.id];
      assert jobs.Keys == old(jobs).Keys + {job.id};
      ghost var all, grown := order, jobs;
      ghost var gone: nat := 0;
      while |order| > keep
        invariant gone <= |all| && order == all[gone..] && (gone == 0 || |order| >= keep)
        invariant fit ==> Lists(order, jobs.Keys)
        invariant fit ==> Within(jobs, grown)
        decreases |order|
      {
        if fit { ListsOneLess(order, jobs.Keys); }
        assert jobs.Keys - {order[0]} == (jobs - {order[0]}).Keys;
        jobs := jobs - {order[0]};
        order := order[1..];
        gone := gone + 1;
      }
      if fit { Listed(order, jobs.Keys); }
      ForgottenOldest(all, gone, keep);
    }

    function Get(id: string): (r: Option<Job>)
      reads this
      ensures r.Some? <==> id in jobs
      ensures r.Some? ==> r.value == jobs[id]
    {
      if id in jobs then Some(jobs[id]) else None
    }
  }
}
