/**
 Conservation of jobs. A request queued for a family is an entry of its allocating or of its danging queue,
 never of both and never twice, until its context is cancelled, however pops, switches, prunes and
 completions interleave.
 */
module LocalJobs {
  import opened Util
  import opened LocalPool
  import opened LocalRuns

  /** How often each request occurs in the two queues of a family. */
  function Bag(f: Family): multiset<Req> {
    multiset(f.allocating) + multiset(f.danging)
  }

  predicate Wants(s: Pool, r: Req, family6: bool) {
    r in s.workers && if family6 then s.workers[r].want6 else s.workers[r].want4
  }

  ghost predicate FamJobs(s: Pool, f: Family, family6: bool) {
    && (forall r :: Bag(f)[r] <= 1)
    && (forall r :: r !in s.cancelled ==> Bag(f)[r] == if Wants(s, r, family6) then 1 else 0)
    && (forall r :: r in f.danging && r in s.workers && s.workers[r].noCache ==> r in s.cancelled)
  }

  predicate WorkersQueued(s: Pool) {
    forall r :: r in s.workers ==>
      && (s.workers[r].want4 || s.workers[r].want6)
      && (r in s.cancelled ==> s.workers[r].noCache)
  }

  ghost predicate Jobs(s: Pool) {
    FamJobs(s, s.v4, false) && FamJobs(s, s.v6, true) && WorkersQueued(s)
  }

  function Joiner(op: FamOp): set<Req> {
    if op.Join? then {op.req} else {}
  }

  function Leaver(op: FamOp): set<Req> {
    if op.Leave? || op.Take? then {op.req} else {}
  }

  lemma SwitchBag(f: Family, cancelled: set<Req>, req: Req, r: Req)
    ensures Bag(Switch(f, cancelled, req))[r] <= Bag(f)[r]
    ensures r !in cancelled && r != req ==> Bag(Switch(f, cancelled, req))[r] == Bag(f)[r]
  {
    DropCount(f.allocating, {req}, r);
    DropCount(f.danging, cancelled, r);
    var live := Drop(f.danging, cancelled);
    if live != [] {
      assert live == [live[0]] + live[1..];
    }
  }

  lemma PopBag(f: Family, count: nat)
    ensures Bag(Pop(f, count)) == Bag(f)
  {
    var (first, second) := SplitAt(f.allocating, count);
    assert f.allocating == first + second;
  }

  /** How often one request is queued after an operation: the same, but for the request joining or leaving. */
  ghost predicate BagMoves(f: Family, g: Family, cancelled: set<Req>, op: FamOp, r: Req) {
    && (r !in Joiner(op) ==> Bag(g)[r] <= Bag(f)[r])
    && (r !in cancelled && r !in Joiner(op) && r !in Leaver(op) ==> Bag(g)[r] == Bag(f)[r])
    && (r !in cancelled && r in Joiner(op) ==> Bag(g)[r] == Bag(f)[r] + 1)
  }

  lemma SwitchMoves(f: Family, cancelled: set<Req>, op: FamOp, r: Req)
    requires op.Leave? || op.Take?
    ensures BagMoves(f, ApplyFam(f, cancelled, op), cancelled, op, r)
  {
    match op
    case Leave(req) => SwitchBag(f, cancelled, req, r);
    case Take(pick, pod, sent, req) =>
      SwitchBag(f.(ips := CommitIps(f.ips, pick, pod, sent)), cancelled, req, r);
  }

  lemma AnswerMoves(f: Family, cancelled: set<Req>, op: FamOp, r: Req)
    requires op.Answer?
    ensures BagMoves(f, ApplyFam(f, cancelled, op), cancelled, op, r)
  {
    PopBag(f, op.pop);
  }

  lemma QueueMoves(f: Family, cancelled: set<Req>, op: FamOp, r: Req)
    requires op.Join? || op.Prune? || op.Ask?
    ensures BagMoves(f, ApplyFam(f, cancelled, op), cancelled, op, r)
  {
    DropCount(f.allocating, cancelled, r);
  }

  /** The other operations leave both queues alone. */
  lemma QueuesLeft(f: Family, cancelled: set<Req>, op: FamOp)
    requires !op.Leave? && !op.Take? && !op.Answer? && !op.Join? && !op.Prune? && !op.Ask?
    ensures ApplyFam(f, cancelled, op).allocating == f.allocating && ApplyFam(f, cancelled, op).danging == f.danging
  {
  }

  lemma FamStepBag(f: Family, cancelled: set<Req>, op: FamOp, r: Req)
    ensures BagMoves(f, ApplyFam(f, cancelled, op), cancelled, op, r)
  {
    if op.Leave? || op.Take? {
      SwitchMoves(f, cancelled, op, r);
    } else if op.Answer? {
      AnswerMoves(f, cancelled, op, r);
    } else if op.Join? || op.Prune? || op.Ask? {
      QueueMoves(f, cancelled, op, r);
    } else {
      QueuesLeft(f, cancelled, op);
    }
  }

  lemma SwitchDanging(f: Family, cancelled: set<Req>, req: Req, r: Req)
    requires r in Switch(f, cancelled, req).danging
    ensures r in f.danging
  {
    DropCounts(f.danging, cancelled);
  }

  lemma FamStepDanging(f: Family, cancelled: set<Req>, op: FamOp, r: Req)
    requires !op.Answer? && r in ApplyFam(f, cancelled, op).danging
    ensures r in f.danging
  {
    match op
    case Leave(req) => SwitchDanging(f, cancelled, req, r);
    case Take(pick, pod, sent, req) => SwitchDanging(f.(ips := CommitIps(f.ips, pick, pod, sent)), cancelled, req, r);
    case _ =>
  }

  lemma JoinersAndLeavers(c: Config, s: Pool, e: Event)
    requires Enabled(c, s, e)
    ensures Joiner(OpOn4(c, s, e)) == if e.Enqueue? && e.want4 then {e.req} else {}
    ensures Joiner(OpOn6(c, s, e)) == if e.Enqueue? && e.want6 then {e.req} else {}
    ensures Leaver(OpOn4(c, s, e)) == if e.WorkerCommit? || e.WorkerStop? then {e.req} else {}
    ensures Leaver(OpOn6(c, s, e)) == if e.WorkerCommit? || e.WorkerStop? then {e.req} else {}
    ensures OpOn4(c, s, e).Answer? <==> e.CreateOk? || e.Assign4Ok?
    ensures OpOn6(c, s, e).Answer? <==> e.CreateOk? || e.Assign6Ok?
  {
  }

  lemma WorkersAfter(c: Config, s: Pool, e: Event)
    requires Enabled(c, s, e)
    ensures ApplyRest(c, s, e).workers
            == if e.Enqueue? then s.workers[e.req := Worker(e.pod, e.noCache, e.want4, e.want6)]
               else if e.WorkerCommit? || e.WorkerStop? then s.workers - {e.req} else s.workers
  {
  }

  lemma CancelledAfter(c: Config, s: Pool, e: Event)
    requires Enabled(c, s, e)
    ensures s.cancelled <= NowCancelled(c, s, e)
    ensures e.WorkerCommit? || e.WorkerStop? ==> NowCancelled(c, s, e) == s.cancelled + {e.req}
    ensures !e.WorkerCommit? && !e.WorkerStop? ==>
              forall r :: r in NowCancelled(c, s, e) && r !in s.cancelled ==> r in s.workers && s.workers[r].noCache
    ensures e.Enqueue? ==> NowCancelled(c, s, e) == s.cancelled
  {
  }

  lemma PreheatersStop(c: Config, s: Pool, e: Event)
    requires Enabled(c, s, e)
    ensures OpOn4(c, s, e).Answer? ==>
              forall r :: r in Apply(c, s, e).v4.danging && r in s.workers && s.workers[r].noCache
                          ==> r in Apply(c, s, e).cancelled
    ensures OpOn6(c, s, e).Answer? ==>
              forall r :: r in Apply(c, s, e).v6.danging && r in s.workers && s.workers[r].noCache
                          ==> r in Apply(c, s, e).cancelled
  {
  }

  /** The same facts in terms of what a step does to one family and to the workers. */
  lemma FamJobsStay(s: Pool, t: Pool, f: Family, op: FamOp, family6: bool)
    requires FamJobs(s, f, family6)
    requires s.cancelled <= t.cancelled
    requires forall r :: r in Leaver(op) ==> r in t.cancelled
    requires forall r :: r in Joiner(op) ==> r !in t.cancelled && !Wants(s, r, family6)
    requires forall r :: r !in t.cancelled ==> (Wants(t, r, family6) <==> Wants(s, r, family6) || r in Joiner(op))
    requires !op.Answer? ==> forall r :: r in f.danging && r in t.workers ==> r in s.workers && t.workers[r] == s.workers[r]
    requires op.Answer? ==> forall r :: r in ApplyFam(f, s.cancelled, op).danging && r in t.workers && t.workers[r].noCache ==> r in t.cancelled
    ensures FamJobs(t, ApplyFam(f, s.cancelled, op), family6)
  {
    var g := ApplyFam(f, s.cancelled, op);
    forall r ensures Bag(g)[r] <= 1 && (r !in t.cancelled ==> Bag(g)[r] == if Wants(t, r, family6) then 1 else 0) {
      FamStepBag(f, s.cancelled, op, r);
    }
    if !op.Answer? {
      forall r | r in g.danging && r in t.workers && t.workers[r].noCache ensures r in t.cancelled {
        FamStepDanging(f, s.cancelled, op, r);
      }
    }
  }

  lemma NewcomerNotQueued(s: Pool, f: Family, family6: bool, r: Req)
    requires FamJobs(s, f, family6) && r !in s.cancelled && r !in s.workers
    ensures r !in f.danging && r !in f.allocating
  {
    assert Bag(f)[r] == 0;
    assert r !in multiset(f.danging) && r !in multiset(f.allocating);
  }

  lemma Step4Jobs(c: Config, s: Pool, e: Event)
    requires Jobs(s) && Enabled(c, s, e)
    ensures FamJobs(Apply(c, s, e), Apply(c, s, e).v4, false)
  {
    JoinersAndLeavers(c, s, e);
    WorkersAfter(c, s, e);
    CancelledAfter(c, s, e);
    PreheatersStop(c, s, e);
    if e.Enqueue? {
      NewcomerNotQueued(s, s.v4, false, e.req);
    }
    FamJobsStay(s, Apply(c, s, e), s.v4, OpOn4(c, s, e), false);
  }

  lemma Step6Jobs(c: Config, s: Pool, e: Event)
    requires Jobs(s) && Enabled(c, s, e)
    ensures FamJobs(Apply(c, s, e), Apply(c, s, e).v6, true)
  {
    JoinersAndLeavers(c, s, e);
    WorkersAfter(c, s, e);
    CancelledAfter(c, s, e);
    PreheatersStop(c, s, e);
    if e.Enqueue? {
      NewcomerNotQueued(s, s.v6, true, e.req);
    }
    FamJobsStay(s, Apply(c, s, e), s.v6, OpOn6(c, s, e), true);
  }

  lemma StepJobs(c: Config, s: Pool, e: Event)
    requires Jobs(s) && Enabled(c, s, e)
    ensures Jobs(Apply(c, s, e))
  {
    Step4Jobs(c, s, e);
    Step6Jobs(c, s, e);
    WorkersAfter(c, s, e);
    CancelledAfter(c, s, e);
  }

  lemma {:induction false} RunJobs(c: Config, s: Pool, es: seq<Event>)
    requires Jobs(s) && Possible(c, s, es)
    ensures Jobs(Exec(c, s, es))
    decreases |es|
  {
    if es != [] {
      StepJobs(c, s, es[0]);
      RunJobs(c, Apply(c, s, es[0]), es[1..]);
    }
  }

  /**
   In every reachable state no request occurs twice in a family's queues, and a request that is not
   cancelled occurs exactly once if its worker runs and queued a job for the family, and not at all otherwise.
   Nothing is asked of the callers.
   */
  lemma JobsOverRuns(c: Config, s0: Pool, es: seq<Event>, r: Req)
    requires Start(s0) && Possible(c, s0, es)
    ensures var t := Exec(c, s0, es);
            && Bag(t.v4)[r] <= 1 && Bag(t.v6)[r] <= 1
            && (r !in t.cancelled ==> Bag(t.v4)[r] == (if r in t.workers && t.workers[r].want4 then 1 else 0)
                                      && Bag(t.v6)[r] == (if r in t.workers && t.workers[r].want6 then 1 else 0))
  {
    assert Bag(s0.v4) == multiset{} && Bag(s0.v6) == multiset{};
    RunJobs(c, s0, es);
    var t := Exec(c, s0, es);
    assert Wants(t, r, false) <==> r in t.workers && t.workers[r].want4;
    assert Wants(t, r, true) <==> r in t.workers && t.workers[r].want6;
  }
}
