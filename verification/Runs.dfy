/** Putting runs together: which systems a system can lead to, and with which requests. */
module Runs {
  import opened Prelude
  import opened Ledger
  import opened Phases

  predicate Sends(run: seq<Event>, rs: set<Request>) {
    forall i :: 0 <= i < |run| && run[i].Arrive? ==> run[i].req in rs
  }

  /** Some interleaving in which only these requests arrive leads from s to s'. */
  ghost predicate Leads(s: System, rs: set<Request>, s': System) {
    exists run :: Sends(run, rs) && Exec(s, run) == s'
  }

  lemma Stay(s: System, rs: set<Request>)
    ensures Leads(s, rs, s)
  {
    assert Sends([], rs) && Exec(s, []) == s;
  }

  lemma Wider(s: System, rs: set<Request>, rs': set<Request>, s': System)
    requires Leads(s, rs, s') && rs <= rs'
    ensures Leads(s, rs', s')
  {
    var run :| Sends(run, rs) && Exec(s, run) == s';
    assert Sends(run, rs');
  }

  lemma Hop(s: System, rs: set<Request>, mid: System, ev: Event)
    requires Leads(s, rs, mid) && (ev.Arrive? ==> ev.req in rs)
    ensures Leads(s, rs, Next(mid, ev))
  {
    var run :| Sends(run, rs) && Exec(s, run) == mid;
    var run' := run + [ev];
    assert run'[..|run'| - 1] == run;
    assert Sends(run', rs) && Exec(s, run') == Next(mid, ev);
  }

  lemma HopTo(s: System, rs: set<Request>, mid: System, ev: Event, to: System)
    requires Leads(s, rs, mid) && (ev.Arrive? ==> ev.req in rs) && Next(mid, ev) == to
    ensures Leads(s, rs, to)
  {
    Hop(s, rs, mid, ev);
  }

  /** A request arrives beside the tasks in flight. */
  lemma Arrives(s: System, rs: set<Request>, mid: System, req: Request)
    requires Leads(s, rs, mid) && req in rs
    ensures Leads(s, rs, System(mid.db, mid.tasks + [Start(req)]))
  {
    HopTo(s, rs, mid, Arrive(req), System(mid.db, mid.tasks + [Start(req)]));
  }

  /** The task that arrived last takes a step. */
  lemma LastSteps(s: System, rs: set<Request>, db: DB, others: seq<Task>, t: Task, db': DB, t': Task)
    requires Leads(s, rs, System(db, others + [t])) && Advance(db, t) == (db', t')
    ensures Leads(s, rs, System(db', others + [t']))
  {
    assert (others + [t])[|others| := t'] == others + [t'];
    HopTo(s, rs, System(db, others + [t]), Turn(|others|), System(db', others + [t']));
  }

  /** Left to itself, a task in flight finishes as it would alone. */
  lemma {:induction false} TaskFinishes(s: System, rs: set<Request>, mid: System, i: nat)
    requires Leads(s, rs, mid) && i < |mid.tasks|
    ensures var (db', reply) := RunAlone(mid.db, mid.tasks[i]);
            Leads(s, rs, System(db', mid.tasks[i := Done(reply)]))
    decreases Stage(mid.tasks[i]), LinesLeft(mid.tasks[i])
  {
    var t := mid.tasks[i];
    if t.Done? {
      assert mid.tasks[i := t] == mid.tasks;
    } else {
      AdvanceProgresses(mid.db, t);
      StepAlone(mid.db, t);
      var (db1, t1) := Advance(mid.db, t);
      Hop(s, rs, mid, Turn(i));
      TaskFinishes(s, rs, System(db1, mid.tasks[i := t1]), i);
      assert mid.tasks[i := t1][i := Done(RunAlone(db1, t1).1)] == mid.tasks[i := Done(RunAlone(db1, t1).1)];
    }
  }

  /** A call that arrives and runs without interruption does what the call does alone. */
  lemma CallRuns(s: System, rs: set<Request>, mid: System, req: Request)
    requires Leads(s, rs, mid) && req in rs
    ensures var (db', reply) := Apply(mid.db, req);
            Leads(s, rs, System(db', mid.tasks + [Done(reply)]))
  {
    Hop(s, rs, mid, Arrive(req));
    var arrived := Next(mid, Arrive(req));
    TaskFinishes(s, rs, arrived, |mid.tasks|);
    RunAloneIsApply(mid.db, req);
    assert arrived.tasks[|mid.tasks| := Done(Apply(mid.db, req).1)] == mid.tasks + [Done(Apply(mid.db, req).1)];
  }

  /** Every history of calls that do not overlap is one of the interleaved runs, with the same requests. */
  lemma {:induction false} HistoriesAreRuns(s: System, rs: set<Request>, mid: System, history: seq<Request>)
    returns (done: seq<Task>)
    requires Leads(s, rs, mid) && forall req | req in history :: req in rs
    ensures Leads(s, rs, System(ApplyAll(mid.db, history), mid.tasks + done))
    ensures |done| == |history| && forall t | t in done :: t.Done?
  {
    if history == [] {
      done := [];
      assert mid.tasks + [] == mid.tasks;
    } else {
      var n := |history| - 1;
      done := HistoriesAreRuns(s, rs, mid, history[..n]);
      var before := ApplyAll(mid.db, history[..n]);
      CallRuns(s, rs, System(before, mid.tasks + done), history[n]);
      var reply := Apply(before, history[n]).1;
      assert mid.tasks + done + [Done(reply)] == mid.tasks + (done + [Done(reply)]);
      done := done + [Done(reply)];
    }
  }

  // ---- A void on its way ----

  function PendingVoid(db: DB, entity: string, id: Id): Task
    requires id < |db.entries|
  {
    ReverseCommit(entity, id, db.entries[id], NextVoucherNo(db, KeyOf(db.entries[id])))
  }

  /** A void of a posted entry, run up to the point where only its transaction is left. */
  lemma VoidReadyToCommit(s: System, rs: set<Request>, mid: System, entity: string, id: Id)
    requires Leads(s, rs, mid) && Void(entity, id) in rs
    requires FindEntry(mid.db, entity, id).Some? && mid.db.entries[id].status == Posted
    requires !IsClosed(mid.db, KeyOf(mid.db.entries[id]))
    ensures Leads(s, rs, System(mid.db, mid.tasks + [PendingVoid(mid.db, entity, id)]))
  {
    var db, e := mid.db, mid.db.entries[id];
    Arrives(s, rs, mid, Void(entity, id));
    LastSteps(s, rs, db, mid.tasks, Start(Void(entity, id)), db, VoidCheck(entity, id, e));
    LastSteps(s, rs, db, mid.tasks, VoidCheck(entity, id, e), db, ReverseNumber(entity, id, e));
    LastSteps(s, rs, db, mid.tasks, ReverseNumber(entity, id, e), db, PendingVoid(db, entity, id));
  }
}
