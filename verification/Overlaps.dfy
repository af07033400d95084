/**
 Idempotent execution when requests overlap: looking the key up, executing, and saving the outcome are three
 steps, and other requests can come between them.
 */
module Overlaps {
  import opened Prelude
  import opened Idempotency

  datatype Task<I, R> =
    | Arrived(req: Request<I>)
    | Missed(req: Request<I>)
    | Ran(req: Request<I>, outcome: Result<R, string>)
    | Answered(response: Response<R>)

  datatype System<L, I, R> = System(st: State<L, R>, tasks: seq<Task<I, R>>)

  datatype Event<I> = Arrive(req: Request<I>) | Turn(i: nat)

  /** One step of one request. */
  function Advance<L, I, R>(p: Provider<L, I, R>, st: State<L, R>, t: Task<I, R>): (State<L, R>, Task<I, R>) {
    match t
    case Arrived(req) =>
      (match Lookup(p, st, req)
       case Some(response) => (st, Answered(response))
       case None => (st, Missed(req)))
    case Missed(req) =>
      var (ledger, outcome) := p.execute(st.ledger, req);
      (State(ledger, st.records), Ran(req, outcome))
    case Ran(req, outcome) =>
      (State(st.ledger, SaveOutcome(p, st.records, req, outcome)), Answered(ResponseOf(outcome)))
    case Answered(_) => (st, t)
  }

  function Next<L, I, R>(p: Provider<L, I, R>, s: System<L, I, R>, ev: Event<I>): System<L, I, R> {
    match ev
    case Arrive(req) => s.(tasks := s.tasks + [Arrived(req)])
    case Turn(i) =>
      if i >= |s.tasks| then s
      else
        var (st', t') := Advance(p, s.st, s.tasks[i]);
        System(st', s.tasks[i := t'])
  }

  /** The system after any interleaving of arrivals and steps. */
  function Exec<L, I, R>(p: Provider<L, I, R>, s: System<L, I, R>, run: seq<Event<I>>): System<L, I, R> {
    if run == [] then s else Next(p, Exec(p, s, run[..|run| - 1]), run[|run| - 1])
  }

  // ---- One request at a time ----

  lemma {:induction false} ExecMore<L, I, R>(p: Provider<L, I, R>, s: System<L, I, R>, run: seq<Event<I>>, ev: Event<I>)
    ensures Exec(p, s, run + [ev]) == Next(p, Exec(p, s, run), ev)
  {
    assert (run + [ev])[..|run|] == run;
  }

  /** With nothing in between, the three steps of a request add up to handling it. */
  lemma {:induction false} AloneIsHandled<L, I, R>(p: Provider<L, I, R>, s: System<L, I, R>, req: Request<I>)
    ensures var n := |s.tasks|;
            Exec(p, s, [Arrive(req)] + [Turn(n)] + [Turn(n)] + [Turn(n)])
            == System(Handle(p, s.st, req).0, s.tasks + [Answered(Handle(p, s.st, req).1)])
  {
    var n, e0: seq<Event<I>> := |s.tasks|, [];
    assert e0 + [Arrive(req)] == [Arrive(req)];
    ExecMore(p, s, e0, Arrive(req));
    ExecMore(p, s, [Arrive(req)], Turn(n));
    ExecMore(p, s, [Arrive(req)] + [Turn(n)], Turn(n));
    ExecMore(p, s, [Arrive(req)] + [Turn(n)] + [Turn(n)], Turn(n));
  }

  // ---- Counting executions ----

  predicate Asks<L, I, R>(p: Provider<L, I, R>, req: Request<I>, k: RecordKey) {
    Keyed(p, req) && KeyOf(req) == k
  }

  /** The next event is a lookup of key k that finds no record. */
  predicate IsMiss<L, I, R>(p: Provider<L, I, R>, s: System<L, I, R>, ev: Event<I>, k: RecordKey) {
    && ev.Turn? && ev.i < |s.tasks| && s.tasks[ev.i].Arrived? && Asks(p, s.tasks[ev.i].req, k)
    && k !in s.st.records
  }

  /** The next event executes a request under key k. */
  predicate IsExecution<L, I, R>(p: Provider<L, I, R>, s: System<L, I, R>, ev: Event<I>, k: RecordKey) {
    ev.Turn? && ev.i < |s.tasks| && s.tasks[ev.i].Missed? && Asks(p, s.tasks[ev.i].req, k)
  }

  ghost function Misses<L, I, R>(p: Provider<L, I, R>, s: System<L, I, R>, run: seq<Event<I>>, k: RecordKey): nat {
    if run == [] then 0
    else
      var n := |run| - 1;
      Misses(p, s, run[..n], k) + if IsMiss(p, Exec(p, s, run[..n]), run[n], k) then 1 else 0
  }

  ghost function ExecutionSteps<L, I, R>(p: Provider<L, I, R>, s: System<L, I, R>, run: seq<Event<I>>,
                                         k: RecordKey): nat
  {
    if run == [] then 0
    else
      var n := |run| - 1;
      ExecutionSteps(p, s, run[..n], k) + if IsExecution(p, Exec(p, s, run[..n]), run[n], k) then 1 else 0
  }

  predicate Waits<L, I, R>(p: Provider<L, I, R>, t: Task<I, R>, k: RecordKey) { t.Missed? && Asks(p, t.req, k) }

  /** The requests that have missed and not executed yet. */
  function Waiting<L, I, R>(p: Provider<L, I, R>, tasks: seq<Task<I, R>>, k: RecordKey): nat {
    if tasks == [] then 0
    else Waiting(p, tasks[..|tasks| - 1], k) + if Waits(p, tasks[|tasks| - 1], k) then 1 else 0
  }

  lemma {:induction false} WaitingUpdate<L, I, R>(p: Provider<L, I, R>, tasks: seq<Task<I, R>>, i: nat, t: Task<I, R>,
                                                  k: RecordKey)
    requires i < |tasks|
    ensures Waiting(p, tasks[i := t], k) + (if Waits(p, tasks[i], k) then 1 else 0)
            == Waiting(p, tasks, k) + if Waits(p, t, k) then 1 else 0
  {
    var n := |tasks| - 1;
    if i == n {
      assert tasks[i := t][..n] == tasks[..n];
    } else {
      assert tasks[i := t][..n] == tasks[..n][i := t];
      WaitingUpdate(p, tasks[..n], i, t, k);
    }
  }

  /** A step makes a request wait exactly if it is a miss. */
  lemma StepWaits<L, I, R>(p: Provider<L, I, R>, s: System<L, I, R>, i: nat, k: RecordKey)
    requires i < |s.tasks|
    ensures Waits(p, Advance(p, s.st, s.tasks[i]).1, k) <==> IsMiss(p, s, Turn(i), k)
    ensures Waits(p, s.tasks[i], k) <==> IsExecution(p, s, Turn(i), k)
  {
  }

  /** One event starts a wait if it is a miss, and ends one if it is an execution. */
  lemma EventWaits<L, I, R>(p: Provider<L, I, R>, s: System<L, I, R>, ev: Event<I>, k: RecordKey)
    ensures Waiting(p, Next(p, s, ev).tasks, k) + (if IsExecution(p, s, ev, k) then 1 else 0)
            == Waiting(p, s.tasks, k) + if IsMiss(p, s, ev, k) then 1 else 0
  {
    match ev
    case Arrive(req) =>
      assert (s.tasks + [Arrived(req)])[..|s.tasks|] == s.tasks;
    case Turn(i) =>
      if i < |s.tasks| {
        StepWaits(p, s, i, k);
        WaitingUpdate(p, s.tasks, i, Advance(p, s.st, s.tasks[i]).1, k);
      }
  }

  /** Over any run, a key executes once for each lookup of it that missed, except those still to execute. */
  lemma {:induction false} ExecutionsAreMisses<L, I, R>(p: Provider<L, I, R>, st: State<L, R>, run: seq<Event<I>>,
                                                        k: RecordKey)
    ensures var s0 := System(st, []);
            ExecutionSteps(p, s0, run, k) + Waiting(p, Exec(p, s0, run).tasks, k) == Misses(p, s0, run, k)
  {
    if run != [] {
      var n := |run| - 1;
      ExecutionsAreMisses(p, st, run[..n], k);
      EventWaits(p, Exec(p, System(st, []), run[..n]), run[n], k);
    }
  }

  // ---- The first save ----

  /** A saved record never changes over any interleaving. */
  lemma {:induction false} SavedLasts<L, I, R>(p: Provider<L, I, R>, s: System<L, I, R>, run: seq<Event<I>>,
                                               k: RecordKey)
    requires k in s.st.records
    ensures k in Exec(p, s, run).st.records && Exec(p, s, run).st.records[k] == s.st.records[k]
  {
    if run != [] {
      SavedLasts(p, s, run[..|run| - 1], k);
    }
  }

  lemma {:induction false} ExecConcat<L, I, R>(p: Provider<L, I, R>, s: System<L, I, R>, a: seq<Event<I>>,
                                               b: seq<Event<I>>)
    ensures Exec(p, s, a + b) == Exec(p, Exec(p, s, a), b)
  {
    if b == [] {
      assert a + b == a;
    } else {
      assert (a + b)[..|a + b| - 1] == a + b[..|b| - 1];
      ExecConcat(p, s, a, b[..|b| - 1]);
    }
  }

  ghost predicate MissAt<L, I, R>(p: Provider<L, I, R>, s: System<L, I, R>, run: seq<Event<I>>, i: int, k: RecordKey) {
    0 <= i < |run| && IsMiss(p, Exec(p, s, run[..i]), run[i], k)
  }

  /** Once the key has a record, no lookup of it misses. */
  lemma NoMissAfterSave<L, I, R>(p: Provider<L, I, R>, s: System<L, I, R>, run: seq<Event<I>>, n: nat, k: RecordKey)
    requires n <= |run| && k in Exec(p, s, run[..n]).st.records
    ensures forall i :: n <= i < |run| ==> !MissAt(p, s, run, i, k)
  {
    forall i | n <= i < |run| ensures !MissAt(p, s, run, i, k) {
      assert run[..i] == run[..n] + run[n..i];
      ExecConcat(p, s, run[..n], run[n..i]);
      SavedLasts(p, Exec(p, s, run[..n]), run[n..i], k);
    }
  }

  lemma MissPrefix<L, I, R>(p: Provider<L, I, R>, s: System<L, I, R>, run: seq<Event<I>>, n: nat, i: int, k: RecordKey)
    requires n <= |run| && i < n
    ensures MissAt(p, s, run[..n], i, k) <==> MissAt(p, s, run, i, k)
  {
    if 0 <= i {
      assert run[..n][..i] == run[..i];
    }
  }

  /** Two lookups of the key missed. */
  ghost predicate MissedTwice<L, I, R>(p: Provider<L, I, R>, s: System<L, I, R>, run: seq<Event<I>>, k: RecordKey) {
    exists i, j :: i < j && MissAt(p, s, run, i, k) && MissAt(p, s, run, j, k)
  }

  lemma {:induction false} MissesAreCounted<L, I, R>(p: Provider<L, I, R>, s: System<L, I, R>, run: seq<Event<I>>,
                                                     k: RecordKey)
    ensures Misses(p, s, run, k) >= 1 <==> exists i :: MissAt(p, s, run, i, k)
    ensures Misses(p, s, run, k) >= 2 <==> MissedTwice(p, s, run, k)
  {
    if run != [] {
      var n := |run| - 1;
      MissesAreCounted(p, s, run[..n], k);
      forall i | i < n ensures MissAt(p, s, run[..n], i, k) <==> MissAt(p, s, run, i, k) {
        MissPrefix(p, s, run, n, i, k);
      }
      assert IsMiss(p, Exec(p, s, run[..n]), run[n], k) <==> MissAt(p, s, run, n, k);
    }
  }

  /**
   When no request of the key is left between its lookup and its execution, the key has executed more than
   once if and only if a second lookup of it came before its first save.
   */
  lemma {:induction false} ExecutesTwiceExactly<L, I, R>(p: Provider<L, I, R>, st: State<L, R>, run: seq<Event<I>>,
                                                         k: RecordKey)
    requires Waiting(p, Exec(p, System(st, []), run).tasks, k) == 0
    ensures ExecutionSteps(p, System(st, []), run, k) > 1 <==> MissedTwice(p, System(st, []), run, k)
  {
    ExecutionsAreMisses(p, st, run, k);
    MissesAreCounted(p, System(st, []), run, k);
  }

  // ---- One request of a key at a time ----

  predicate Busy<L, I, R>(p: Provider<L, I, R>, t: Task<I, R>, k: RecordKey) { !t.Answered? && Asks(p, t.req, k) }

  /** Between its lookup and its save. */
  predicate Working<L, I, R>(p: Provider<L, I, R>, t: Task<I, R>, k: RecordKey) {
    (t.Missed? || t.Ran?) && Asks(p, t.req, k)
  }

  predicate SomeBusy<L, I, R>(p: Provider<L, I, R>, tasks: seq<Task<I, R>>, k: RecordKey) {
    exists i :: 0 <= i < |tasks| && Busy(p, tasks[i], k)
  }

  predicate SomeWorking<L, I, R>(p: Provider<L, I, R>, tasks: seq<Task<I, R>>, k: RecordKey) {
    exists i :: 0 <= i < |tasks| && Working(p, tasks[i], k)
  }

  /** A request of the key arrives only when every earlier one has been answered. */
  ghost predicate OneAtATime<L, I, R>(p: Provider<L, I, R>, s: System<L, I, R>, run: seq<Event<I>>, k: RecordKey) {
    forall i :: 0 <= i < |run| && run[i].Arrive? && Asks(p, run[i].req, k)
                ==> !SomeBusy(p, Exec(p, s, run[..i]).tasks, k)
  }

  predicate SomeArrives<L, I, R>(p: Provider<L, I, R>, run: seq<Event<I>>, k: RecordKey) {
    exists i :: 0 <= i < |run| && run[i].Arrive? && Asks(p, run[i].req, k)
  }

  predicate OneBusy<L, I, R>(p: Provider<L, I, R>, tasks: seq<Task<I, R>>, k: RecordKey) {
    forall i, j :: 0 <= i < |tasks| && 0 <= j < |tasks| && Busy(p, tasks[i], k) && Busy(p, tasks[j], k) ==> i == j
  }

  /** had: the key had a record at the start; missed: how often a lookup of it has missed since. */
  predicate Orderly<L, I, R>(p: Provider<L, I, R>, s: System<L, I, R>, k: RecordKey, had: bool, missed: nat) {
    && OneBusy(p, s.tasks, k) && missed <= 1
    && (had ==> k in s.st.records)
    && (k in s.st.records ==> !SomeWorking(p, s.tasks, k))
    && (missed == 1 <==> (k in s.st.records && !had) || SomeWorking(p, s.tasks, k))
  }

  lemma ArriveKeepsOrder<L, I, R>(p: Provider<L, I, R>, s: System<L, I, R>, req: Request<I>, k: RecordKey, had: bool,
                                  missed: nat)
    requires Orderly(p, s, k, had, missed) && (Asks(p, req, k) ==> !SomeBusy(p, s.tasks, k))
    ensures Orderly(p, Next(p, s, Arrive(req)), k, had, missed)
    ensures SomeBusy(p, s.tasks, k) || Asks(p, req, k) ==> SomeBusy(p, Next(p, s, Arrive(req)).tasks, k)
  {
    var tasks := Next(p, s, Arrive(req)).tasks;
    assert tasks[|s.tasks|] == Arrived(req);
    if i :| 0 <= i < |s.tasks| && Working(p, s.tasks[i], k) {
      assert Working(p, tasks[i], k);
    }
    if i :| 0 <= i < |s.tasks| && Busy(p, s.tasks[i], k) {
      assert Busy(p, tasks[i], k);
    }
  }

  /** A turn of a request that has another key, or is answered. */
  lemma IdleTurn<L, I, R>(p: Provider<L, I, R>, s: System<L, I, R>, i: nat, k: RecordKey, had: bool, missed: nat)
    requires Orderly(p, s, k, had, missed) && i < |s.tasks| && !Busy(p, s.tasks[i], k)
    requires p.needsKey(k.capability) && k.key != ""
    ensures Orderly(p, Next(p, s, Turn(i)), k, had, missed)
    ensures SomeBusy(p, s.tasks, k) ==> SomeBusy(p, Next(p, s, Turn(i)).tasks, k)
  {
    var tasks := Next(p, s, Turn(i)).tasks;
    assert !Busy(p, tasks[i], k);
    if j :| 0 <= j < |s.tasks| && Working(p, s.tasks[j], k) {
      assert Working(p, tasks[j], k);
    }
    if j :| 0 <= j < |s.tasks| && Busy(p, s.tasks[j], k) {
      assert Busy(p, tasks[j], k);
    }
  }

  /** A turn of the one request of the key that is under way. */
  lemma BusyTurn<L, I, R>(p: Provider<L, I, R>, s: System<L, I, R>, i: nat, k: RecordKey, had: bool, missed: nat)
    requires Orderly(p, s, k, had, missed) && i < |s.tasks| && Busy(p, s.tasks[i], k)
    ensures Orderly(p, Next(p, s, Turn(i)), k, had, missed + if IsMiss(p, s, Turn(i), k) then 1 else 0)
    ensures k in Next(p, s, Turn(i)).st.records || SomeBusy(p, Next(p, s, Turn(i)).tasks, k)
  {
    var tasks := Next(p, s, Turn(i)).tasks;
    assert Working(p, tasks[i], k) || tasks[i].Answered?;
    forall j | 0 <= j < |s.tasks| && j != i ensures !Busy(p, tasks[j], k) && !Working(p, s.tasks[j], k) {
    }
    assert SomeWorking(p, s.tasks, k) <==> Working(p, s.tasks[i], k);
    assert SomeWorking(p, tasks, k) <==> Working(p, tasks[i], k);
  }

  lemma {:induction false} OrderIsKept<L, I, R>(p: Provider<L, I, R>, st: State<L, R>, run: seq<Event<I>>, k: RecordKey)
    requires p.needsKey(k.capability) && k.key != "" && OneAtATime(p, System(st, []), run, k)
    ensures var s := Exec(p, System(st, []), run);
            && Orderly(p, s, k, k in st.records, Misses(p, System(st, []), run, k))
            && (SomeArrives(p, run, k) ==> k in s.st.records || SomeBusy(p, s.tasks, k))
  {
    if run != [] {
      var n := |run| - 1;
      assert forall i :: 0 <= i < n ==> run[..n][..i] == run[..i];
      OrderIsKept(p, st, run[..n], k);
      var s, missed := Exec(p, System(st, []), run[..n]), Misses(p, System(st, []), run[..n], k);
      assert SomeArrives(p, run, k) ==> SomeArrives(p, run[..n], k) || (run[n].Arrive? && Asks(p, run[n].req, k));
      match run[n]
      case Arrive(req) => ArriveKeepsOrder(p, s, req, k, k in st.records, missed);
      case Turn(i) =>
        if i < |s.tasks| {
          if Busy(p, s.tasks[i], k) {
            BusyTurn(p, s, i, k, k in st.records, missed);
          } else {
            IdleTurn(p, s, i, k, k in st.records, missed);
          }
        }
    }
  }

  /**
   What a client can rely on: if it sends a request of a key only after the earlier ones of that key are answered,
   the key executes at most once, whatever requests of other keys do in between; and exactly once when the key was
   new, one such request came, and all are answered.
   */
  lemma {:induction false} OneAtATimeExecutesOnce<L, I, R>(p: Provider<L, I, R>, st: State<L, R>, run: seq<Event<I>>,
                                                           k: RecordKey)
    requires p.needsKey(k.capability) && k.key != "" && OneAtATime(p, System(st, []), run, k)
    ensures ExecutionSteps(p, System(st, []), run, k) <= if k in st.records then 0 else 1
    ensures k !in st.records && SomeArrives(p, run, k) && !SomeBusy(p, Exec(p, System(st, []), run).tasks, k)
            ==> ExecutionSteps(p, System(st, []), run, k) == 1
  {
    OrderIsKept(p, st, run, k);
    ExecutionsAreMisses(p, st, run, k);
    NobodyWaits(p, Exec(p, System(st, []), run).tasks, k);
  }

  lemma {:induction false} NobodyWaits<L, I, R>(p: Provider<L, I, R>, tasks: seq<Task<I, R>>, k: RecordKey)
    ensures !SomeBusy(p, tasks, k) ==> Waiting(p, tasks, k) == 0
  {
    if tasks != [] && !SomeBusy(p, tasks, k) {
      var n := |tasks| - 1;
      assert !Busy(p, tasks[n], k);
      forall i | 0 <= i < n ensures !Busy(p, tasks[..n][i], k) {
        assert !Busy(p, tasks[i], k);
      }
      NobodyWaits(p, tasks[..n], k);
    }
  }

  // ---- Two requests at once ----

  /** Two requests arrive and both look up. */
  function BothLookUp<I>(a: Request<I>, b: Request<I>): seq<Event<I>> {
    [Arrive(a)] + [Arrive(b)] + [Turn(0)] + [Turn(1)]
  }

  /** Each of the two takes its step in turn, three times over. */
  function InStep<I>(a: Request<I>, b: Request<I>): seq<Event<I>> {
    BothLookUp(a, b) + [Turn(0)] + [Turn(1)] + [Turn(0)] + [Turn(1)]
  }

  lemma OneMore<L, I, R>(p: Provider<L, I, R>, s: System<L, I, R>, run: seq<Event<I>>, ev: Event<I>,
                         mid: System<L, I, R>, to: System<L, I, R>, k: RecordKey)
    requires Exec(p, s, run) == mid && Next(p, mid, ev) == to
    ensures Exec(p, s, run + [ev]) == to
    ensures ExecutionSteps(p, s, run + [ev], k)
            == ExecutionSteps(p, s, run, k) + if IsExecution(p, mid, ev, k) then 1 else 0
  {
    assert (run + [ev])[..|run|] == run;
  }

  lemma BothArrive<L, I, R>(p: Provider<L, I, R>, st: State<L, R>, a: Request<I>, b: Request<I>, k: RecordKey)
    ensures Exec(p, System(st, []), [Arrive(a)] + [Arrive(b)]) == System(st, [Arrived(a), Arrived(b)])
    ensures ExecutionSteps(p, System(st, []), [Arrive(a)] + [Arrive(b)], k) == 0
  {
    var s0: System<L, I, R>, e0: seq<Event<I>> := System(st, []), [];
    assert e0 + [Arrive(a)] == [Arrive(a)];
    OneMore(p, s0, e0, Arrive(a), s0, System(st, [Arrived(a)]), k);
    OneMore(p, s0, [Arrive(a)], Arrive(b), System(st, [Arrived(a)]), System(st, [Arrived(a), Arrived(b)]), k);
  }

  lemma BothMiss<L, I, R>(p: Provider<L, I, R>, st: State<L, R>, a: Request<I>, b: Request<I>)
    requires Keyed(p, a) && KeyOf(a) == KeyOf(b) && KeyOf(a) !in st.records
    ensures Exec(p, System(st, []), BothLookUp(a, b)) == System(st, [Missed(a), Missed(b)])
    ensures ExecutionSteps(p, System(st, []), BothLookUp(a, b), KeyOf(a)) == 0
  {
    var k, s0: System<L, I, R>, run := KeyOf(a), System(st, []), [Arrive(a)] + [Arrive(b)];
    BothArrive(p, st, a, b, k);
    OneMore(p, s0, run, Turn(0), System(st, [Arrived(a), Arrived(b)]), System(st, [Missed(a), Arrived(b)]), k);
    OneMore(p, s0, run + [Turn(0)], Turn(1), System(st, [Missed(a), Arrived(b)]),
            System(st, [Missed(a), Missed(b)]), k);
  }

  /**
   Two requests with the same key that both look up before either saves both execute, and the outcome that
   is saved first is the one that is kept.
   */
  lemma OverlappingRequestsBothExecute<L, I, R>(p: Provider<L, I, R>, st: State<L, R>, a: Request<I>, b: Request<I>)
    requires Keyed(p, a) && KeyOf(a) == KeyOf(b) && KeyOf(a) !in st.records
    ensures var (ledger1, outcome1) := p.execute(st.ledger, a);
            var (ledger2, outcome2) := p.execute(ledger1, b);
            Exec(p, System(st, []), InStep(a, b))
            == System(State(ledger2, st.records[KeyOf(a) := RecordOf(p, a, outcome1)]),
                      [Answered(ResponseOf(outcome1)), Answered(ResponseOf(outcome2))])
    ensures ExecutionSteps(p, System(st, []), InStep(a, b), KeyOf(a)) == 2
  {
    var k, s0: System<L, I, R>, run := KeyOf(a), System(st, []), BothLookUp(a, b);
    var (ledger1, outcome1) := p.execute(st.ledger, a);
    var (ledger2, outcome2) := p.execute(ledger1, b);
    var s2: System<L, I, R> := System(st, [Missed(a), Missed(b)]);
    var s3: System<L, I, R> := System(State(ledger1, st.records), [Ran(a, outcome1), Missed(b)]);
    var s4: System<L, I, R> := System(State(ledger2, st.records), [Ran(a, outcome1), Ran(b, outcome2)]);
    var saved := State(ledger2, st.records[k := RecordOf(p, a, outcome1)]);
    var s5: System<L, I, R> := System(saved, [Answered(ResponseOf(outcome1)), Ran(b, outcome2)]);
    var s6: System<L, I, R> := System(saved, [Answered(ResponseOf(outcome1)), Answered(ResponseOf(outcome2))]);
    BothMiss(p, st, a, b);
    OneMore(p, s0, run, Turn(0), s2, s3, k);
    OneMore(p, s0, run + [Turn(0)], Turn(1), s3, s4, k);
    OneMore(p, s0, run + [Turn(0)] + [Turn(1)], Turn(0), s4, s5, k);
    OneMore(p, s0, run + [Turn(0)] + [Turn(1)] + [Turn(0)], Turn(1), s5, s6, k);
  }
}
