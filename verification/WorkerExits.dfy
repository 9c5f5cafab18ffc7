/** What becomes of a worker that ends, over any number of ends. */
module WorkerExits {
  import opened Orchestration

  /** `child` crashing `k` times in a row. */
  function Crashes(child: string, k: nat): seq<Op> {
    if k == 0 then [] else Crashes(child, k - 1) + [OpExit(child, HarnessCrash)]
  }

  function Least(a: nat, b: nat): nat {
    if a < b then a else b
  }

  /** What the parent is told of `k` crashes after the first `before`: of every restart with
      its number until the limit, and then that the worker has failed for good. */
  function Told(child: string, parent: string, before: nat, k: nat, most: nat): seq<Notice> {
    if k == 0 then []
    else
      Told(child, parent, before, k - 1, most)
      + [if before + k <= most then Notice(child, parent, "restarted", Restart(before + k))
         else Notice(child, parent, "permanently_failed", NoDetail)]
  }

  predicate Known(s: State, child: string) {
    child in s.workers && child in s.sessions && s.workers[child].restarts <= s.workers[child].maxRestarts
  }

  /** The worker as `k` crashes leave it: restarted by each until its restarts are used up;
      what it was given and has spent is kept, its session runs while it is restarted, the
      parent is told each time, and nobody else is touched. */
  function AfterCrashes(s: State, child: string, k: nat): State
    requires Known(s, child)
  {
    var w := s.workers[child];
    var again := w.restarts + k <= w.maxRestarts;
    s.(workers := s.workers[child := w.(restarts := Least(w.restarts + k, w.maxRestarts),
                                        status := if again then "running" else "permanently_failed")],
       sessions := s.sessions[child := if again then "running" else "failed"],
       mail := s.mail + Told(child, w.parent, w.restarts, k, w.maxRestarts))
  }

  lemma OneCrash(s: State, child: string)
    requires Known(s, child)
    ensures Apply(s, OpExit(child, HarnessCrash)) == AfterCrashes(s, child, 1)
  {
    var w := s.workers[child];
    assert Told(child, w.parent, w.restarts, 0, w.maxRestarts) == [];
  }

  lemma OneMoreCrash(s: State, child: string, k: nat)
    requires Known(s, child) && k >= 1
    ensures Known(AfterCrashes(s, child, k), child)
    ensures AfterCrashes(AfterCrashes(s, child, k), child, 1) == AfterCrashes(s, child, k + 1)
  {
    var w, mid := s.workers[child], AfterCrashes(s, child, k);
    var v := mid.workers[child];
    assert Told(child, w.parent, v.restarts, 0, w.maxRestarts) == [];
    var one := Told(child, w.parent, v.restarts, 1, w.maxRestarts);
    assert Told(child, w.parent, w.restarts, k + 1, w.maxRestarts)
        == Told(child, w.parent, w.restarts, k, w.maxRestarts) + one;
    hide Told;
    assert (s.mail + Told(child, w.parent, w.restarts, k, w.maxRestarts)) + one
        == s.mail + (Told(child, w.parent, w.restarts, k, w.maxRestarts) + one);
  }

  /** Crashes restart a worker up to its limit and no further. */
  lemma {:induction false} CrashesRestartUpToLimit(s: State, child: string, k: nat)
    requires Known(s, child) && k > 0
    ensures Run(s, Crashes(child, k)) == AfterCrashes(s, child, k)
  {
    hide *;
    CrashesRun(s, child, k);
    if k == 1 {
      OneCrash(s, child);
    } else {
      CrashesRestartUpToLimit(s, child, k - 1);
      OneMoreCrash(s, child, k - 1);
      OneCrash(AfterCrashes(s, child, k - 1), child);
    }
  }

  lemma CrashesRun(s: State, child: string, k: nat)
    requires k > 0
    ensures Run(s, Crashes(child, 0)) == s
    ensures Run(s, Crashes(child, k)) == Apply(Run(s, Crashes(child, k - 1)), OpExit(child, HarnessCrash))
  {
    RunMore(s, Crashes(child, k - 1), OpExit(child, HarnessCrash));
    hide Apply;
  }

  /** An end that is no crash fails the worker and its session for good and tells the parent
      why, however many restarts are left. */
  lemma FailureIsFinal(s: State, child: string, reason: string)
    requires Known(s, child)
    ensures var s', w := Apply(s, OpExit(child, Failed(reason))), s.workers[child];
            s' == s.(workers := s.workers[child := w.(status := "failed")],
                     sessions := s.sessions[child := "failed"],
                     mail := s.mail + [Notice(child, w.parent, "failed", Reason(reason))])
  {
  }

  /** A parked approval suspends worker and session and tells the parent which approval. */
  lemma ParkingSuspends(s: State, child: string, approval: string)
    requires Known(s, child)
    ensures var s', w := Apply(s, OpPark(child, approval)), s.workers[child];
            s' == s.(workers := s.workers[child := w.(status := "awaiting_approval")],
                     sessions := s.sessions[child := "awaiting_approval"],
                     mail := s.mail + [Notice(child, w.parent, "awaiting_approval", Approval(approval))])
  {
  }

  lemma StepRestarts(s: State, op: Op, child: string)
    requires child in s.workers ==> s.workers[child].restarts <= s.workers[child].maxRestarts && child in s.sessions
    requires child in Apply(s, op).workers
    ensures var w' := Apply(s, op).workers[child];
            if op.OpSpawn? && op.child == child && Affordable(s, op.parent, op.budget) then w'.restarts == 0
            else
              && child in s.workers && w'.maxRestarts == s.workers[child].maxRestarts
              && w'.restarts
                 == if op == OpExit(child, HarnessCrash) then Least(s.workers[child].restarts + 1, w'.maxRestarts)
                    else s.workers[child].restarts
  {
    hide Allocated;
  }

  /** Over any run a worker's restarts are the crashes it has had since it was last spawned,
      up to its limit. */
  lemma {:induction false} RestartsAreCrashes(ops: seq<Op>, child: string)
    requires child in Run(NOBODY, ops).workers
    ensures var w := Run(NOBODY, ops).workers[child]; w.restarts == Least(CrashesOf(ops, child), w.maxRestarts)
    decreases |ops|
  {
    if ops != [] {
      var n := |ops| - 1;
      var s := Run(NOBODY, ops[..n]);
      assert ops == ops[..n] + [ops[n]];
      RunMore(NOBODY, ops[..n], ops[n]);
      RunKeeps(NOBODY, ops[..n]);
      assert child in s.workers ==> WorkerOk(s, child) && child in s.sessions;
      hide Run, Apply, Kept, Affordable;
      StepRestarts(s, ops[n], child);
      if child in s.workers {
        RestartsAreCrashes(ops[..n], child);
      }
    }
  }

  /** Crashes of the child's current life. */
  ghost function CrashesOf(ops: seq<Op>, child: string): nat
    decreases |ops|
  {
    if ops == [] then 0
    else
      var before := ops[..|ops| - 1];
      match ops[|ops| - 1]
      case OpSpawn(parent, c, _, budget, _) =>
        if c == child && Affordable(Run(NOBODY, before), parent, budget) then 0 else CrashesOf(before, child)
      case OpExit(c, HarnessCrash) => CrashesOf(before, child) + if c == child then 1 else 0
      case _ => CrashesOf(before, child)
  }
}
