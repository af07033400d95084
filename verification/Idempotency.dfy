/**
 Idempotent execution of requests: look the key up, execute, save the outcome.  What a capability does to the
 ledger is an arbitrary deterministic step.
 */
module Idempotency {
  import opened Prelude

  datatype Request<I> = Request(entity: string, capability: string, key: string, input: I)

  datatype RecordKey = RecordKey(entity: string, capability: string, key: string)

  /** A failed execution is saved without a result. */
  datatype Record<R> = Record(inputHash: string, result: Option<R>, status: string)

  datatype Response<R> =
    | KeyRequired
    | Conflict
    | Replayed(status: string, result: Option<R>)
    | Executed(outcome: R)
    | ExecutionFailed(message: string)

  /** Which capabilities need a key, how inputs are hashed, and what execution does. */
  datatype Provider<!L, !I, !R> = Provider(needsKey: string -> bool, hash: I -> string,
                                        execute: (L, Request<I>) -> (L, Result<R, string>))

  datatype State<L, R> = State(ledger: L, records: map<RecordKey, Record<R>>)

  const COMPLETED := "completed"
  const FAILED := "failed"

  function KeyOf<I>(req: Request<I>): RecordKey { RecordKey(req.entity, req.capability, req.key) }

  /** Insert, or do nothing if the key is already there. */
  function Save<R>(records: map<RecordKey, Record<R>>, k: RecordKey, r: Record<R>): map<RecordKey, Record<R>> {
    if k in records then records else records[k := r]
  }

  /** The answer if there is one without executing. */
  function Lookup<L, I, R>(p: Provider<L, I, R>, st: State<L, R>, req: Request<I>): Option<Response<R>> {
    if !p.needsKey(req.capability) then None
    else if req.key == "" then Some(KeyRequired)
    else if KeyOf(req) !in st.records then None
    else
      var existing := st.records[KeyOf(req)];
      if existing.inputHash != "" && existing.inputHash != p.hash(req.input) then Some(Conflict)
      else Some(Replayed(existing.status, existing.result))
  }

  function RecordOf<L, I, R>(p: Provider<L, I, R>, req: Request<I>, outcome: Result<R, string>): Record<R> {
    match outcome
    case Failure(_) => Record(p.hash(req.input), None, FAILED)
    case Success(r) => Record(p.hash(req.input), Some(r), COMPLETED)
  }

  function ResponseOf<R>(outcome: Result<R, string>): Response<R> {
    match outcome
    case Failure(message) => ExecutionFailed(message)
    case Success(r) => Executed(r)
  }

  function SaveOutcome<L, I, R>(p: Provider<L, I, R>, records: map<RecordKey, Record<R>>, req: Request<I>,
                                outcome: Result<R, string>): map<RecordKey, Record<R>>
  {
    if p.needsKey(req.capability) then Save(records, KeyOf(req), RecordOf(p, req, outcome)) else records
  }

  function ExecuteAndSave<L, I, R>(p: Provider<L, I, R>, st: State<L, R>, req: Request<I>): (State<L, R>, Response<R>) {
    var (ledger, outcome) := p.execute(st.ledger, req);
    (State(ledger, SaveOutcome(p, st.records, req, outcome)), ResponseOf(outcome))
  }

  function Handle<L, I, R>(p: Provider<L, I, R>, st: State<L, R>, req: Request<I>): (State<L, R>, Response<R>) {
    match Lookup(p, st, req)
    case Some(response) => (st, response)
    case None => ExecuteAndSave(p, st, req)
  }

  function HandleAll<L, I, R>(p: Provider<L, I, R>, st: State<L, R>, history: seq<Request<I>>): State<L, R> {
    if history == [] then st
    else Handle(p, HandleAll(p, st, history[..|history| - 1]), history[|history| - 1]).0
  }

  class Handler<!L, !I, !R> {
    const provider: Provider<L, I, R>
    var ledger: L
    var records: map<RecordKey, Record<R>>

    constructor (provider: Provider<L, I, R>, ledger: L)
      ensures this.provider == provider && Current() == State(ledger, map[])
    {
      this.provider := provider;
      this.ledger := ledger;
      this.records := map[];
    }

    function Current(): State<L, R>
      reads this
    {
      State(ledger, records)
    }

    method SaveRecord(k: RecordKey, r: Record<R>)
      modifies this`records
      ensures records == Save(old(records), k, r)
    {
      if k !in records {
        records := records[k := r];
      }
    }

    method ExecuteRequest(req: Request<I>) returns (response: Response<R>)
      modifies this
      ensures (Current(), response) == Handle(provider, old(Current()), req)
    {
      var keyed := provider.needsKey(req.capability);
      if keyed {
        if req.key == "" {
          return KeyRequired;
        }
        if KeyOf(req) in records {
          var existing := records[KeyOf(req)];
          var inputHash := provider.hash(req.input);
          if existing.inputHash != "" && existing.inputHash != inputHash {
            return Conflict;
          }
          return Replayed(existing.status, existing.result);
        }
      }
      var (ledger', outcome) := provider.execute(ledger, req);
      ledger := ledger';
      match outcome {
        case Failure(message) =>
          if keyed {
            SaveRecord(KeyOf(req), Record(provider.hash(req.input), None, FAILED));
          }
          response := ExecutionFailed(message);
        case Success(r) =>
          if keyed {
            SaveRecord(KeyOf(req), Record(provider.hash(req.input), Some(r), COMPLETED));
          }
          response := Executed(r);
      }
    }
  }

  /** A key is required or refused, executes once and is remembered, or is answered from its record. */
  lemma HandleAnswers<L, I, R>(p: Provider<L, I, R>, st: State<L, R>, req: Request<I>)
    ensures var (st', response) := Handle(p, st, req);
            var (ledger, outcome) := p.execute(st.ledger, req);
            var k := RecordKey(req.entity, req.capability, req.key);
            var answer := if outcome.Success? then Executed(outcome.value) else ExecutionFailed(outcome.error);
            && (!p.needsKey(req.capability) ==> st' == State(ledger, st.records) && response == answer)
            && (p.needsKey(req.capability) && req.key == "" ==> st' == st && response == KeyRequired)
            && (p.needsKey(req.capability) && req.key != "" && k !in st.records ==>
                  var result := if outcome.Success? then Some(outcome.value) else None;
                  var status := if outcome.Success? then "completed" else "failed";
                  && response == answer
                  && st' == State(ledger, st.records[k := Record(p.hash(req.input), result, status)]))
            && (p.needsKey(req.capability) && req.key != "" && k in st.records ==>
                  st' == st
                  && var saved := st.records[k];
                     response == if saved.inputHash == "" || saved.inputHash == p.hash(req.input)
                                 then Replayed(saved.status, saved.result) else Conflict)
  {
  }

  // ---- Records ----

  /** A saved record never changes and never goes away. */
  lemma {:induction false} RecordsLast<L, I, R>(p: Provider<L, I, R>, st: State<L, R>, history: seq<Request<I>>,
                                                k: RecordKey)
    requires k in st.records
    ensures k in HandleAll(p, st, history).records && HandleAll(p, st, history).records[k] == st.records[k]
  {
    if history != [] {
      RecordsLast(p, st, history[..|history| - 1], k);
    }
  }

  predicate Keyed<L, I, R>(p: Provider<L, I, R>, req: Request<I>) {
    p.needsKey(req.capability) && req.key != ""
  }

  /** The number of requests of the history that execute under key k. */
  ghost function Executions<L, I, R>(p: Provider<L, I, R>, st: State<L, R>, history: seq<Request<I>>, k: RecordKey): nat
  {
    if history == [] then 0
    else
      var before, req := HandleAll(p, st, history[..|history| - 1]), history[|history| - 1];
      Executions(p, st, history[..|history| - 1], k)
      + if Keyed(p, req) && KeyOf(req) == k && Lookup(p, before, req).None? then 1 else 0
  }

  /** Each key executes at most once, and exactly once if it has a record at the end but had none before. */
  lemma {:induction false} ExecutesAtMostOnce<L, I, R>(p: Provider<L, I, R>, st: State<L, R>,
                                                       history: seq<Request<I>>, k: RecordKey)
    requires k.key != ""
    ensures Executions(p, st, history, k)
            == if k in HandleAll(p, st, history).records && k !in st.records then 1 else 0
  {
    if history != [] {
      ExecutesAtMostOnce(p, st, history[..|history| - 1], k);
      if k in st.records {
        RecordsLast(p, st, history[..|history| - 1], k);
      }
    }
  }

  /**
   After a request has executed, whatever comes between, the same key answers with the same result if the
   input hashes alike and with a conflict if not, and changes nothing.
   */
  lemma RetryAnswersTheSame<L, I, R>(p: Provider<L, I, R>, st: State<L, R>, first: Request<I>,
                                     between: seq<Request<I>>, again: Request<I>)
    requires Keyed(p, first) && Lookup(p, st, first).None?
    requires KeyOf(again) == KeyOf(first) && p.hash(first.input) != ""
    ensures var (st1, response) := Handle(p, st, first);
            var later := HandleAll(p, st1, between);
            var (st2, answer) := Handle(p, later, again);
            && st2 == later
            && answer == if p.hash(again.input) != p.hash(first.input) then Conflict
                         else if response.Executed? then Replayed(COMPLETED, Some(response.outcome))
                         else Replayed(FAILED, None)
  {
    RecordsLast(p, Handle(p, st, first).0, between, KeyOf(first));
  }

  // ---- Histories without their retries ----

  /** An earlier request of the history used the same key. */
  predicate IsRetry<L, I, R>(p: Provider<L, I, R>, earlier: seq<Request<I>>, req: Request<I>) {
    Keyed(p, req) && exists i :: 0 <= i < |earlier| && Keyed(p, earlier[i]) && KeyOf(earlier[i]) == KeyOf(req)
  }

  function WithoutRetries<L, I, R>(p: Provider<L, I, R>, history: seq<Request<I>>): seq<Request<I>> {
    if history == [] then []
    else
      var n := |history| - 1;
      WithoutRetries(p, history[..n]) + if IsRetry(p, history[..n], history[n]) then [] else [history[n]]
  }

  ghost predicate Uses<L, I, R>(p: Provider<L, I, R>, history: seq<Request<I>>, k: RecordKey) {
    exists i :: 0 <= i < |history| && Keyed(p, history[i]) && KeyOf(history[i]) == k
  }

  lemma UsesSnoc<L, I, R>(p: Provider<L, I, R>, history: seq<Request<I>>, k: RecordKey)
    requires history != []
    ensures var n := |history| - 1;
            Uses(p, history, k) <==> Uses(p, history[..n], k) || (Keyed(p, history[n]) && KeyOf(history[n]) == k)
  {
    var n := |history| - 1;
    if Uses(p, history[..n], k) {
      var i :| 0 <= i < n && Keyed(p, history[..n][i]) && KeyOf(history[..n][i]) == k;
      assert Keyed(p, history[i]) && KeyOf(history[i]) == k;
    }
    if Uses(p, history, k) {
      var i :| 0 <= i < |history| && Keyed(p, history[i]) && KeyOf(history[i]) == k;
      assert i < n ==> history[..n][i] == history[i];
    }
  }

  /** From an empty table, the keys with a record are the keys that have been used. */
  lemma {:induction false} RecordedIsUsed<L, I, R>(p: Provider<L, I, R>, ledger: L, history: seq<Request<I>>,
                                                   k: RecordKey)
    ensures k.key != "" ==> (k in HandleAll(p, State(ledger, map[]), history).records <==> Uses(p, history, k))
  {
    if history != [] {
      RecordedIsUsed(p, ledger, history[..|history| - 1], k);
      UsesSnoc(p, history, k);
    }
  }

  /** The ledger and the records are those of the history with every retry left out. */
  lemma {:induction false} RetriesChangeNothing<L, I, R>(p: Provider<L, I, R>, ledger: L, history: seq<Request<I>>)
    ensures HandleAll(p, State(ledger, map[]), history)
            == HandleAll(p, State(ledger, map[]), WithoutRetries(p, history))
  {
    if history != [] {
      var n := |history| - 1;
      RetriesChangeNothing(p, ledger, history[..n]);
      if IsRetry(p, history[..n], history[n]) {
        RecordedIsUsed(p, ledger, history[..n], KeyOf(history[n]));
        assert WithoutRetries(p, history) == WithoutRetries(p, history[..n]);
      } else {
        var kept := WithoutRetries(p, history[..n]);
        assert WithoutRetries(p, history) == kept + [history[n]];
        assert (kept + [history[n]])[..|kept|] == kept;
      }
    }
  }
}
