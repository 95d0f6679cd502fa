/**
  What a worker pool may do with submitted jobs between two looks of the scheduler: start them, poll their
  inputs and finish them, in any order.
 */
module Working {
  import opened Graphs
  import opened Promises
  import opened Jobs
  import opened Engine
  import opened Wrappers

  predicate Runnable(p: Plan, s: Sys, e: Event) {
    && e.job in p.jobs && e.job in s.progress
    && match e
       case Start(j) => s.progress[j].Queued?
       case PollNext(j) => s.progress[j].Polling? && |s.progress[j].answers| < |Leaves(p.jobs[j].kind)|
       case Finish(j) => s.progress[j].Polling? && |s.progress[j].answers| == |Leaves(p.jobs[j].kind)|
       case _ => false
  }

  /** A step of the pool, or nothing if the step cannot be taken. */
  function Attempt(p: Plan, s: Sys, e: Event): (s': Sys)
    requires WellWired(p) && Shaped(p, s)
    ensures Shaped(p, s')
  {
    if Runnable(p, s, e) then
      DoKeepsShape(p, s, e);
      Do(p, s, e)
    else s
  }

  function Works(p: Plan, s: Sys, work: seq<Event>): (s': Sys)
    requires WellWired(p) && Shaped(p, s)
    ensures Shaped(p, s')
  {
    if work == [] then s else Attempt(p, Works(p, s, work[..|work| - 1]), work[|work| - 1])
  }

  lemma StepKeepsCells(p: Plan, s: Sys, e: Event)
    requires WellWired(p) && Shaped(p, s) && Engine.Enabled(p, s, e)
    ensures Do(p, s, e).store.cells.Keys == s.store.cells.Keys
  {
    if e.PollNext? {
      WireSource(p, Some(e.job), |s.progress[e.job].answers|);
    }
  }

  lemma DoKeepsShape(p: Plan, s: Sys, e: Event)
    requires WellWired(p) && Shaped(p, s) && Engine.Enabled(p, s, e)
    ensures Shaped(p, Do(p, s, e))
  {
    StepMovesOneJob(p, s, e);
    StepKeepsCells(p, s, e);
    var next := Do(p, s, e).progress[e.job];
    assert next.Polling? ==> |next.answers| <= |Leaves(p.jobs[e.job].kind)|;
  }

  lemma {:induction false} WorksKeepsInv(p: Plan, rank: map<JobId, nat>, s: Sys, work: seq<Event>)
    requires WellWired(p) && Evaluable(p, rank) && Inv(p, rank, s)
    ensures Inv(p, rank, Works(p, s, work))
  {
    if work != [] {
      var rest, e := work[..|work| - 1], work[|work| - 1];
      WorksKeepsInv(p, rank, s, rest);
      if Runnable(p, Works(p, s, rest), e) {
        StepKeepsInv(p, rank, Works(p, s, rest), e);
      }
    }
  }

  /** A job the pool has and has not completed. */
  predicate Running(progress: Progress) {
    progress.Queued? || progress.Polling?
  }

  /** The pool moves only jobs it has been given and not yet completed. */
  predicate MovedByPool(before: Progress, after: Progress) {
    before == after || (Running(before) && (Running(after) || after.Completed?))
  }

  lemma AttemptMoves(p: Plan, s: Sys, e: Event, j: JobId)
    requires WellWired(p) && Shaped(p, s) && j in p.jobs
    ensures MovedByPool(s.progress[j], Attempt(p, s, e).progress[j])
  {
    if Runnable(p, s, e) {
      StepMovesOneJob(p, s, e);
    }
  }

  lemma {:induction false} WorksMoves(p: Plan, s: Sys, work: seq<Event>, j: JobId)
    requires WellWired(p) && Shaped(p, s) && j in p.jobs
    ensures MovedByPool(s.progress[j], Works(p, s, work).progress[j])
  {
    if work != [] {
      var rest := work[..|work| - 1];
      WorksMoves(p, s, rest, j);
      AttemptMoves(p, Works(p, s, rest), work[|work| - 1], j);
    }
  }

  // ---------------------------------------------------------------------------------------------
  // Work that completes everything
  // ---------------------------------------------------------------------------------------------

  ghost predicate NoneRunning(pr: Progresses, jobs: set<JobId>) {
    forall j :: j in jobs && j in pr ==> !Running(pr[j])
  }

  /** Work that leaves nothing running, whatever the pool has been given. */
  ghost predicate Completes(p: Plan, work: seq<Event>)
    requires WellWired(p)
  {
    forall s {:trigger Works(p, s, work)} :: Shaped(p, s) ==> NoneRunning(Works(p, s, work).progress, p.jobs.Keys)
  }

  function PollTimes(j: JobId, n: nat): seq<Event> {
    if n == 0 then [] else PollTimes(j, n - 1) + [PollNext(j)]
  }

  /** All the steps one job can take in the pool. */
  function JobWork(p: Plan, j: JobId): seq<Event>
    requires j in p.jobs
  {
    [Start(j)] + PollTimes(j, |Leaves(p.jobs[j].kind)|) + [Finish(j)]
  }

  function FullWork(p: Plan, jobs: seq<JobId>): seq<Event>
    requires forall j :: j in jobs ==> j in p.jobs
  {
    if jobs == [] then [] else FullWork(p, jobs[..|jobs| - 1]) + JobWork(p, jobs[|jobs| - 1])
  }

  lemma WorksLast(p: Plan, s: Sys, work: seq<Event>, e: Event)
    requires WellWired(p) && Shaped(p, s)
    ensures Works(p, s, work + [e]) == Attempt(p, Works(p, s, work), e)
  {
    assert (work + [e])[..|work|] == work;
  }

  lemma {:induction false} WorksInTurn(p: Plan, s: Sys, a: seq<Event>, b: seq<Event>)
    requires WellWired(p) && Shaped(p, s)
    ensures Works(p, s, a + b) == Works(p, Works(p, s, a), b)
  {
    if b == [] {
      assert a + b == a;
    } else {
      var rest, last := b[..|b| - 1], b[|b| - 1];
      WorksInTurn(p, s, a, rest);
      WorksLast(p, s, a + rest, last);
      WorksLast(p, Works(p, s, a), rest, last);
      assert b == rest + [last] && a + b == (a + rest) + [last];
    }
  }

  /** Not waiting to start, and at most `n` promises left to poll. */
  predicate PollsLeft(p: Plan, s: Sys, j: JobId, n: int)
    requires j in p.jobs && j in s.progress
  {
    && !s.progress[j].Queued?
    && (s.progress[j].Polling? ==> |Leaves(p.jobs[j].kind)| - |s.progress[j].answers| <= n)
  }

  lemma PollOnce(p: Plan, s: Sys, j: JobId, n: nat)
    requires WellWired(p) && Shaped(p, s) && j in p.jobs && PollsLeft(p, s, j, n)
    ensures PollsLeft(p, Attempt(p, s, PollNext(j)), j, if n == 0 then 0 else n - 1)
  {
    if Runnable(p, s, PollNext(j)) {
      StepMovesOneJob(p, s, PollNext(j));
    }
  }

  lemma {:induction false} PollingRunsOut(p: Plan, s: Sys, j: JobId, n: nat, k: nat)
    requires WellWired(p) && Shaped(p, s) && j in p.jobs && PollsLeft(p, s, j, n) && k <= n
    ensures PollsLeft(p, Works(p, s, PollTimes(j, k)), j, n - k)
  {
    if k > 0 {
      PollingRunsOut(p, s, j, n, k - 1);
      PollOnce(p, Works(p, s, PollTimes(j, k - 1)), j, n - k + 1);
      assert PollTimes(j, k)[..|PollTimes(j, k)| - 1] == PollTimes(j, k - 1);
    }
  }

  lemma WorkOne(p: Plan, s: Sys, e: Event)
    requires WellWired(p) && Shaped(p, s)
    ensures Works(p, s, [e]) == Attempt(p, s, e)
  {
    assert [e][..0] == [];
    assert Works(p, s, [e][..0]) == s;
  }

  lemma StartAttempted(p: Plan, s: Sys, j: JobId)
    requires WellWired(p) && Shaped(p, s) && j in p.jobs
    ensures PollsLeft(p, Attempt(p, s, Start(j)), j, |Leaves(p.jobs[j].kind)|)
  {
    if Runnable(p, s, Start(j)) {
      StepMovesOneJob(p, s, Start(j));
    }
  }

  lemma FinishAttempted(p: Plan, s: Sys, j: JobId)
    requires WellWired(p) && Shaped(p, s) && j in p.jobs && PollsLeft(p, s, j, 0)
    ensures !Running(Attempt(p, s, Finish(j)).progress[j])
  {
    if Runnable(p, s, Finish(j)) {
      StepMovesOneJob(p, s, Finish(j));
    }
  }

  lemma JobWorkCompletes(p: Plan, s: Sys, j: JobId)
    requires WellWired(p) && Shaped(p, s) && j in p.jobs
    ensures !Running(Works(p, s, JobWork(p, j)).progress[j])
  {
    var n := |Leaves(p.jobs[j].kind)|;
    var polls := PollTimes(j, n);
    var s1 := Works(p, s, [Start(j)]);
    WorkOne(p, s, Start(j));
    StartAttempted(p, s, j);
    var s2 := Works(p, s1, polls);
    PollingRunsOut(p, s1, j, n, n);
    WorkOne(p, s2, Finish(j));
    FinishAttempted(p, s2, j);
    WorksInTurn(p, s, [Start(j)], polls);
    WorksInTurn(p, s, [Start(j)] + polls, [Finish(j)]);
  }

  lemma {:induction false} FullWorkStops(p: Plan, s: Sys, jobs: seq<JobId>)
    requires WellWired(p) && Shaped(p, s) && forall j :: j in jobs ==> j in p.jobs
    ensures NoneRunning(Works(p, s, FullWork(p, jobs)).progress, set j | j in jobs)
  {
    if jobs != [] {
      var rest, last := jobs[..|jobs| - 1], jobs[|jobs| - 1];
      var s1 := Works(p, s, FullWork(p, rest));
      FullWorkStops(p, s, rest);
      WorksInTurn(p, s, FullWork(p, rest), JobWork(p, last));
      JobWorkCompletes(p, s1, last);
      forall j | j in jobs ensures !Running(Works(p, s1, JobWork(p, last)).progress[j]) {
        if j != last {
          assert j in rest && j in s1.progress;
          WorksMoves(p, s1, JobWork(p, last), j);
        }
      }
    }
  }

  /** Every flow has work that completes everything it is given. */
  lemma FullWorkCompletes(p: Plan, jobs: seq<JobId>)
    requires WellWired(p) && Lists(jobs, p.jobs.Keys)
    ensures Completes(p, FullWork(p, jobs))
  {
    forall s | Shaped(p, s) ensures NoneRunning(Works(p, s, FullWork(p, jobs)).progress, p.jobs.Keys) {
      FullWorkStops(p, s, jobs);
    }
  }
}
