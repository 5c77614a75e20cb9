/**
 One paid external operation shared by many processes and an operator:
 `claude_code_transport.py`, `opencode_transport.py`, `literature_retriever.py` and
 `operation_recovery.py` under `src/evaluation`.  The row of an operation id lives in a table with
 serialisable transactions; between any two of them a process may stop, another may run, and the
 operator may reconcile.  The external call itself is uncertain: it may answer, fail or hang.
 */
module PaidOperations {
  import opened Wrappers
  import CircuitBreaker

  type Circuit = CircuitBreaker.Circuit
  type Settings = CircuitBreaker.Settings

  datatype Status = Pending | Completed | RetryAuthorized | Abandoned

  datatype Row<R> = Row(requestHash: string, status: Status, response: Option<R>)

  datatype Verdict<R> = Complete(response: R) | AuthorizeRetry | Abandon

  datatype Reconciliation<R> = Reconciliation(requestHash: string, verdict: Verdict<R>)

  datatype OperationError = Indeterminate | ContractViolation | Refused(error: CircuitBreaker.CircuitError)

  /** The model transports re-read the row after the update; retrieval counts updated rows instead. */
  datatype Kind = Model | Retrieval

  // ---------------------------------------------------------------- the transactions

  /** `_lookup`: a cached response, permission to go on, or an error. */
  function Lookup<R>(row: Option<Row<R>>, hash: string): Result<Option<R>, OperationError> {
    if row.None? then Success(None)
    else if row.value.requestHash != hash then Failure(ContractViolation)
    else match row.value.status
      case RetryAuthorized => Success(None)
      case Completed => if row.value.response.Some? then Success(row.value.response) else Failure(ContractViolation)
      case _ => Failure(Indeterminate)
  }

  /** `_reserve` up to its commit: a new PENDING row, a consumed authorisation, or an existing row. */
  datatype Reservation<R> = Reserved(row: Row<R>) | Existing | Mismatch

  function Reserve<R>(row: Option<Row<R>>, hash: string): Reservation<R> {
    if row.None? then Reserved(Row(hash, Pending, None))
    else if row.value.requestHash != hash then Mismatch
    else if row.value.status.RetryAuthorized? then Reserved(row.value.(status := Pending))
    else Existing
  }

  /** The conditional UPDATE to COMPLETED; `None` when no row matches. */
  function Commit<R>(row: Option<Row<R>>, hash: string, response: R): Option<Row<R>> {
    if row.Some? && row.value.requestHash == hash && row.value.status.Pending?
    then Some(row.value.(status := Completed, response := Some(response)))
    else None
  }

  /** `reconcile_operation`: only a PENDING row with the attested hash. */
  function Reconcile<R>(row: Option<Row<R>>, hash: string, verdict: Verdict<R>): Result<Row<R>, OperationError> {
    if row.None? || row.value.requestHash != hash || !row.value.status.Pending? then Failure(ContractViolation)
    else match verdict
      case Complete(response) => Success(row.value.(status := Completed, response := Some(response)))
      case AuthorizeRetry => Success(row.value.(status := RetryAuthorized))
      case Abandon => Success(row.value.(status := Abandoned))
  }

  // ---------------------------------------------------------------- the protocol

  /** Where a process is inside `complete`; each constructor names its next atomic step. */
  datatype Pc<R> =
    | Ready
    | Asking(hash: string)                     // breaker: before_call
    | Reserving(hash: string)
    | Rereading(hash: string)                  // the lookup after a reservation found a row
    | Raced(hash: string, response: R)         // breaker: record_success, then return
    | Sending(hash: string)                    // holds a reservation, has not transmitted
    | InFlight(hash: string)
    | Answered(hash: string, response: R)      // breaker: record_success
    | Committing(hash: string, response: R)
    | Confirming(hash: string)                 // the lookup after the update
    | Broken                                   // breaker: record_failure, then raise

  datatype State<R> = State(
    row: Option<Row<R>>, audit: seq<Reconciliation<R>>, circuit: Circuit,
    procs: map<string, Pc<R>>, sent: nat, returned: seq<(string, R)>)
  {
    function PcOf(p: string): Pc<R> {
      if p in procs then procs[p] else Ready
    }

    function At(p: string, pc: Pc<R>): State<R> {
      this.(procs := procs[p := pc])
    }

    function Return(p: string, hash: string, response: R): State<R> {
      this.(procs := procs[p := Ready], returned := returned + [(hash, response)])
    }
  }

  datatype Config = Config(kind: Kind, operation: string, settings: Settings)

  datatype Action<R> =
    | Call(proc: string, hash: string)
    | Advance(proc: string, now: real)
    | Respond(proc: string, response: R)
    | Trouble(proc: string)
    | Crash(proc: string)
    | Operator(hash: string, verdict: Verdict<R>)
    | Elsewhere(call: CircuitBreaker.Call, now: real)   // another operation on the same circuit

  /** A lookup that returns a cached response to the caller, or goes on to `missing`. */
  function StepLookup<R>(s: State<R>, p: string, hash: string, missing: Pc<R>): State<R> {
    match Lookup(s.row, hash)
    case Success(Some(response)) => s.Return(p, hash, response)
    case Success(None) => s.At(p, missing)
    case Failure(_) => s.At(p, Ready)
  }

  function Step<R>(c: Config, s: State<R>, p: string, now: real): State<R> {
    match s.PcOf(p)
    case Asking(hash) =>
      var (circuit, r) := CircuitBreaker.Admission(c.settings, s.circuit, c.operation, now);
      s.(circuit := circuit).At(p, if r.Success? then Reserving(hash) else Ready)
    case Reserving(hash) =>
      (match Reserve(s.row, hash)
       case Reserved(row) => s.(row := Some(row)).At(p, Sending(hash))
       case Existing => s.At(p, Rereading(hash))
       case Mismatch => s.At(p, Broken))
    case Rereading(hash) =>
      (match Lookup(s.row, hash)
       case Success(Some(response)) => s.At(p, Raced(hash, response))
       case _ => s.At(p, Broken))
    case Raced(hash, response) =>
      var (circuit, r) := CircuitBreaker.AfterSuccess(s.circuit, c.operation, now);
      var s' := s.(circuit := circuit);
      if r.Success? then s'.Return(p, hash, response) else s'.At(p, Broken)
    case Sending(hash) => s.(sent := s.sent + 1).At(p, InFlight(hash))
    case Answered(hash, response) =>
      var (circuit, r) := CircuitBreaker.AfterSuccess(s.circuit, c.operation, now);
      s.(circuit := circuit).At(p, if r.Success? then Committing(hash, response) else Ready)
    case Committing(hash, response) => StepCommit(c, s, p, hash, response)
    case Confirming(hash) => StepLookup(s, p, hash, Ready)
    case Broken =>
      s.(circuit := CircuitBreaker.AfterFailure(c.settings, s.circuit, c.operation, now).0).At(p, Ready)
    case _ => s
  }

  function StepCommit<R>(c: Config, s: State<R>, p: string, hash: string, response: R): State<R> {
    var updated := Commit(s.row, hash, response);
    var s' := if updated.Some? then s.(row := updated) else s;
    match c.kind
    case Model => s'.At(p, Confirming(hash))
    case Retrieval => if updated.Some? then s'.Return(p, hash, response) else s'.At(p, Ready)
  }

  function Do<R>(c: Config, s: State<R>, a: Action<R>): State<R> {
    match a
    case Call(p, hash) =>
      if s.PcOf(p).Ready? then StepLookup(s, p, hash, Asking(hash)) else s
    case Advance(p, now) => Step(c, s, p, now)
    case Respond(p, response) =>
      (match s.PcOf(p) case InFlight(hash) => s.At(p, Answered(hash, response)) case _ => s)
    case Trouble(p) => if s.PcOf(p).InFlight? then s.At(p, Broken) else s
    case Crash(p) => s.At(p, Ready)
    case Operator(hash, verdict) =>
      (match Reconcile(s.row, hash, verdict)
       case Success(row) => s.(row := Some(row), audit := s.audit + [Reconciliation(hash, verdict)])
       case Failure(_) => s)
    case Elsewhere(call, now) => s.(circuit := CircuitBreaker.Apply(c.settings, s.circuit, call, now))
  }

  function Run<R>(c: Config, s: State<R>, actions: seq<Action<R>>): State<R> {
    if actions == [] then s
    else Do(c, Run(c, s, actions[..|actions| - 1]), actions[|actions| - 1])
  }

  function Start<R>(circuit: Circuit): State<R> {
    State(None, [], circuit, map[], 0, [])
  }

  // ---------------------------------------------------------------- the invariant

  /** How many times the operator has authorised a retry. */
  function Authorizations<R>(audit: seq<Reconciliation<R>>): nat {
    if audit == [] then 0
    else Authorizations(audit[..|audit| - 1]) + if audit[|audit| - 1].verdict.AuthorizeRetry? then 1 else 0
  }

  /** The processes that hold a reservation they have not used. */
  function Holding<R>(procs: map<string, Pc<R>>): set<string> {
    set p | p in procs && procs[p].Sending?
  }

  /** Reservations granted so far, used or not, plus the one an authorised row still offers. */
  ghost predicate Counted<R>(s: State<R>) {
    if s.row.None? then s.sent == 0 && Holding(s.procs) == {}
    else s.sent + |Holding(s.procs)| + (if s.row.value.status.RetryAuthorized? then 1 else 0)
         <= 1 + Authorizations(s.audit)
  }

  predicate IsAnswer<R(==)>(row: Option<Row<R>>, hash: string, response: R) {
    row == Some(Row(hash, Completed, Some(response)))
  }

  ghost predicate Answers<R>(s: State<R>) {
    && (s.row.Some? ==> (s.row.value.status.Completed? <==> s.row.value.response.Some?))
    && (forall i | 0 <= i < |s.returned| :: IsAnswer(s.row, s.returned[i].0, s.returned[i].1))
    && (forall p | p in s.procs && s.procs[p].Raced? :: IsAnswer(s.row, s.procs[p].hash, s.procs[p].response))
  }

  ghost predicate Inv<R>(s: State<R>) {
    Counted(s) && Answers(s)
  }

  lemma HoldingAt<R>(procs: map<string, Pc<R>>, p: string, pc: Pc<R>)
    ensures Holding(procs[p := pc]) == if pc.Sending? then Holding(procs) + {p} else Holding(procs) - {p}
    ensures |Holding(procs[p := pc])| ==
      |Holding(procs)| + (if pc.Sending? && p !in Holding(procs) then 1 else 0)
                       - (if !pc.Sending? && p in Holding(procs) then 1 else 0)
  {
    var after := Holding(procs[p := pc]);
    assert after == if pc.Sending? then Holding(procs) + {p} else Holding(procs) - {p};
  }

  /** A step that leaves the row alone and at most returns the stored response. */
  lemma MoveKeeps<R>(s: State<R>, s': State<R>, p: string, pc: Pc<R>)
    requires Inv(s) && s'.row == s.row && s'.audit == s.audit && s'.procs == s.procs[p := pc]
    requires s'.sent == s.sent && !pc.Sending?
    requires s'.returned == s.returned
          || exists hash, response :: s'.returned == s.returned + [(hash, response)] && IsAnswer(s.row, hash, response)
    requires pc.Raced? ==> IsAnswer(s.row, pc.hash, pc.response)
    ensures Inv(s')
  {
    HoldingAt(s.procs, p, pc);
  }

  lemma LookupAnswers<R>(s: State<R>, hash: string)
    requires Inv(s)
    ensures Lookup(s.row, hash).Success? && Lookup(s.row, hash).value.Some? ==>
      IsAnswer(s.row, hash, Lookup(s.row, hash).value.value)
  {
  }

  lemma ReserveKeeps<R>(s: State<R>, p: string, hash: string)
    requires Inv(s) && Reserve(s.row, hash).Reserved? && s.PcOf(p) == Reserving(hash)
    ensures Inv(s.(row := Some(Reserve(s.row, hash).row)).At(p, Sending(hash)))
  {
    HoldingAt(s.procs, p, Sending(hash));
  }

  lemma SendKeeps<R>(s: State<R>, p: string, hash: string)
    requires Inv(s) && s.PcOf(p) == Sending(hash)
    ensures Inv(s.(sent := s.sent + 1).At(p, InFlight(hash)))
  {
    HoldingAt(s.procs, p, InFlight(hash));
    assert p in Holding(s.procs);
  }

  lemma UpdateKeeps<R>(s: State<R>, hash: string, response: R)
    requires Inv(s) && Commit(s.row, hash, response).Some?
    ensures Inv(s.(row := Commit(s.row, hash, response)))
  {
  }

  /** The update succeeds on a PENDING row only, when nothing has been returned yet. */
  lemma CommitKeeps<R>(c: Config, s: State<R>, p: string, hash: string, response: R)
    requires Inv(s) && s.PcOf(p) == Committing(hash, response)
    ensures Inv(StepCommit(c, s, p, hash, response))
  {
    var updated := Commit(s.row, hash, response);
    var after := if updated.Some? then s.(row := updated) else s;
    if updated.Some? {
      UpdateKeeps(s, hash, response);
    }
    assert after.PcOf(p) == s.PcOf(p);
    if c.kind.Model? {
      MoveKeeps(after, after.At(p, Confirming(hash)), p, Confirming(hash));
    } else if updated.Some? {
      assert IsAnswer(updated, hash, response);
      MoveKeeps(after, after.Return(p, hash, response), p, Ready);
    } else {
      MoveKeeps(after, after.At(p, Ready), p, Ready);
    }
  }

  lemma StepKeeps<R>(c: Config, s: State<R>, p: string, now: real)
    requires Inv(s)
    ensures Inv(Step(c, s, p, now))
  {
    hide Inv, CircuitBreaker.Admission, CircuitBreaker.AfterSuccess, CircuitBreaker.AfterFailure;
    var s' := Step(c, s, p, now);
    match s.PcOf(p)
    case Asking(hash) => MoveKeeps(s, s', p, s'.procs[p]);
    case Reserving(hash) =>
      if Reserve(s.row, hash).Reserved? {
        ReserveKeeps(s, p, hash);
      } else {
        MoveKeeps(s, s', p, s'.procs[p]);
      }
    case Rereading(hash) => LookupAnswers(s, hash); MoveKeeps(s, s', p, s'.procs[p]);
    case Raced(hash, response) => RacedAnswers(s, p); MoveKeeps(s, s', p, s'.procs[p]);
    case Sending(hash) => SendKeeps(s, p, hash);
    case Answered(hash, response) => MoveKeeps(s, s', p, s'.procs[p]);
    case Committing(hash, response) => CommitKeeps(c, s, p, hash, response);
    case Confirming(hash) => LookupAnswers(s, hash); MoveKeeps(s, s', p, s'.procs[p]);
    case Broken => MoveKeeps(s, s', p, s'.procs[p]);
    case _ =>
  }

  lemma RacedAnswers<R>(s: State<R>, p: string)
    requires Inv(s) && s.PcOf(p).Raced?
    ensures IsAnswer(s.row, s.PcOf(p).hash, s.PcOf(p).response)
  {
  }

  lemma OperatorKeeps<R>(s: State<R>, hash: string, verdict: Verdict<R>)
    requires Inv(s) && Reconcile(s.row, hash, verdict).Success?
    ensures Inv(s.(row := Some(Reconcile(s.row, hash, verdict).value),
                   audit := s.audit + [Reconciliation(hash, verdict)]))
  {
    assert (s.audit + [Reconciliation(hash, verdict)])[..|s.audit|] == s.audit;
  }

  lemma DoKeeps<R>(c: Config, s: State<R>, a: Action<R>)
    requires Inv(s)
    ensures Inv(Do(c, s, a))
  {
    hide Inv, Step;
    var s' := Do(c, s, a);
    match a
    case Call(p, hash) =>
      if s.PcOf(p).Ready? {
        LookupAnswers(s, hash);
        MoveKeeps(s, s', p, s'.procs[p]);
      }
    case Advance(p, now) => StepKeeps(c, s, p, now);
    case Respond(p, response) =>
      if s.PcOf(p).InFlight? {
        MoveKeeps(s, s', p, s'.procs[p]);
      }
    case Trouble(p) =>
      if s.PcOf(p).InFlight? {
        MoveKeeps(s, s', p, Broken);
      }
    case Crash(p) => MoveKeeps(s, s', p, Ready);
    case Operator(hash, verdict) =>
      if Reconcile(s.row, hash, verdict).Success? {
        OperatorKeeps(s, hash, verdict);
      }
    case Elsewhere(call, now) => CircuitOnly(s, s'.circuit);
  }

  lemma CircuitOnly<R>(s: State<R>, circuit: Circuit)
    requires Inv(s)
    ensures Inv(s.(circuit := circuit))
  {
  }

  lemma {:induction false} RunKeeps<R>(c: Config, s: State<R>, actions: seq<Action<R>>)
    requires Inv(s)
    ensures Inv(Run(c, s, actions))
  {
    hide Inv, Do;
    if actions != [] {
      RunKeeps(c, s, actions[..|actions| - 1]);
      DoKeeps(c, Run(c, s, actions[..|actions| - 1]), actions[|actions| - 1]);
    }
  }

  // ---------------------------------------------------------------- the guarantees

  /**
   However processes crash and race and whatever the operator decides, the operation goes out at
   most once plus once per recorded retry authorisation.
   */
  lemma TransmittedAtMost<R>(c: Config, circuit: Circuit, actions: seq<Action<R>>)
    ensures var s := Run(c, Start(circuit), actions);
            s.sent <= 1 + Authorizations(s.audit)
  {
    RunKeeps(c, Start<R>(circuit), actions);
  }

  /** Any two calls that return, return the same response, to callers of the same request. */
  lemma SameResponse<R>(c: Config, circuit: Circuit, actions: seq<Action<R>>, i: nat, j: nat)
    requires i < |Run(c, Start(circuit), actions).returned| && j < |Run(c, Start(circuit), actions).returned|
    ensures var s := Run(c, Start(circuit), actions);
      && s.returned[i] == s.returned[j]
      && s.row == Some(Row(s.returned[i].0, Completed, Some(s.returned[i].1)))
  {
    RunKeeps(c, Start<R>(circuit), actions);
  }

  predicate Settled<R>(row: Option<Row<R>>) {
    row.Some? && (row.value.status.Completed? || row.value.status.Abandoned?)
  }

  lemma SettledStays<R>(c: Config, s: State<R>, a: Action<R>)
    requires Settled(s.row)
    ensures Do(c, s, a).row == s.row
  {
    hide CircuitBreaker.Admission, CircuitBreaker.AfterSuccess, CircuitBreaker.AfterFailure, CircuitBreaker.Apply;
  }

  /** COMPLETED and ABANDONED rows never change again, and an ABANDONED one is never sent again
   once the reservations handed out before are used. */
  lemma {:induction false} SettledIsFinal<R>(c: Config, s: State<R>, actions: seq<Action<R>>)
    requires Settled(s.row)
    ensures Run(c, s, actions).row == s.row
    ensures Run(c, s, actions).sent + |Holding(Run(c, s, actions).procs)| <= s.sent + |Holding(s.procs)|
  {
    hide Do;
    if actions != [] {
      var n := |actions| - 1;
      SettledIsFinal(c, s, actions[..n]);
      SettledStays(c, Run(c, s, actions[..n]), actions[n]);
      SettledSends(c, Run(c, s, actions[..n]), actions[n]);
    }
  }

  /** One step of one process: it sends what it holds, or holds no more than before. */
  lemma SettledStep<R>(c: Config, s: State<R>, p: string, now: real)
    requires Settled(s.row)
    ensures var s' := Step(c, s, p, now);
            s' == s || (s'.procs == s.procs[p := s'.PcOf(p)] && !s'.PcOf(p).Sending?
                        && s'.sent == s.sent + if s.PcOf(p).Sending? then 1 else 0)
  {
    hide CircuitBreaker.Admission, CircuitBreaker.AfterSuccess, CircuitBreaker.AfterFailure;
  }

  lemma SettledSends<R>(c: Config, s: State<R>, a: Action<R>)
    requires Settled(s.row)
    ensures Do(c, s, a).sent + |Holding(Do(c, s, a).procs)| <= s.sent + |Holding(s.procs)|
  {
    hide Step, Holding;
    var s' := Do(c, s, a);
    match a
    case Operator(_, _) =>
    case Elsewhere(_, _) =>
    case Advance(p, now) =>
      SettledStep(c, s, p, now);
      HoldingAt(s.procs, p, s'.PcOf(p));
      HoldingIs(s.procs, p);
    case _ =>
      HoldingAt(s.procs, a.proc, s'.PcOf(a.proc));
  }

  lemma HoldingIs<R>(procs: map<string, Pc<R>>, p: string)
    ensures p in Holding(procs) <==> p in procs && procs[p].Sending?
  {
  }

  // ---------------------------------------------------------------- how a row is completed

  /** Action `n` of the run was the external call's answer to a process that had sent the request. */
  ghost predicate AnsweredAt<R>(c: Config, circuit: Circuit, actions: seq<Action<R>>, n: nat, hash: string, response: R) {
    && n < |actions| && actions[n].Respond? && actions[n].response == response
    && Run(c, Start(circuit), actions[..n]).PcOf(actions[n].proc) == InFlight(hash)
  }

  ghost predicate WasAnswered<R>(c: Config, circuit: Circuit, actions: seq<Action<R>>, hash: string, response: R) {
    exists n | 0 <= n < |actions| :: AnsweredAt(c, circuit, actions, n, hash, response)
  }

  /** Action `n` of the run was the breaker accepting the success of an answered process. */
  ghost predicate CreditedAt<R>(c: Config, circuit: Circuit, actions: seq<Action<R>>, n: nat, hash: string, response: R) {
    && n < |actions| && actions[n].Advance?
    && var before := Run(c, Start(circuit), actions[..n]);
       before.PcOf(actions[n].proc) == Answered(hash, response)
       && CircuitBreaker.AfterSuccess(before.circuit, c.operation, actions[n].now).1.Success?
  }

  ghost predicate WasCredited<R>(c: Config, circuit: Circuit, actions: seq<Action<R>>, hash: string, response: R) {
    exists n | 0 <= n < |actions| :: CreditedAt(c, circuit, actions, n, hash, response)
  }

  predicate WasApproved<R(==)>(audit: seq<Reconciliation<R>>, hash: string, response: R) {
    Reconciliation(hash, Verdict.Complete(response)) in audit
  }

  /** What a run has to show for the places its processes are in and for a completed row. */
  ghost predicate Accounted<R>(c: Config, circuit: Circuit, actions: seq<Action<R>>, s: State<R>) {
    && (forall p | p in s.procs && s.procs[p].Answered? ::
          WasAnswered(c, circuit, actions, s.procs[p].hash, s.procs[p].response))
    && (forall p | p in s.procs && s.procs[p].Committing? ::
          && WasAnswered(c, circuit, actions, s.procs[p].hash, s.procs[p].response)
          && WasCredited(c, circuit, actions, s.procs[p].hash, s.procs[p].response))
    && (s.row.Some? && s.row.value.status.Completed? && s.row.value.response.Some? ==>
          var hash, response := s.row.value.requestHash, s.row.value.response.value;
          || WasApproved(s.audit, hash, response)
          || (WasAnswered(c, circuit, actions, hash, response) && WasCredited(c, circuit, actions, hash, response)))
  }

  lemma HistoryGrows<R>(c: Config, circuit: Circuit, actions: seq<Action<R>>, a: Action<R>, hash: string, response: R)
    ensures WasAnswered(c, circuit, actions, hash, response) ==> WasAnswered(c, circuit, actions + [a], hash, response)
    ensures WasCredited(c, circuit, actions, hash, response) ==> WasCredited(c, circuit, actions + [a], hash, response)
  {
    hide Run, CircuitBreaker.AfterSuccess;
    forall n | 0 <= n < |actions|
      ensures (actions + [a])[..n] == actions[..n]
    {
    }
    if n :| 0 <= n < |actions| && AnsweredAt(c, circuit, actions, n, hash, response) {
      assert AnsweredAt(c, circuit, actions + [a], n, hash, response);
    }
    if n :| 0 <= n < |actions| && CreditedAt(c, circuit, actions, n, hash, response) {
      assert CreditedAt(c, circuit, actions + [a], n, hash, response);
    }
  }

  /** How a process gets to an answer and past the breaker. */
  lemma PcChange<R>(c: Config, s: State<R>, a: Action<R>, p: string)
    requires Do(c, s, a).PcOf(p) != s.PcOf(p)
    ensures var pc := Do(c, s, a).PcOf(p);
      && (pc.Answered? ==> a.Respond? && a.proc == p && a.response == pc.response && s.PcOf(p) == InFlight(pc.hash))
      && (pc.Committing? ==>
            && a.Advance? && a.proc == p && s.PcOf(p) == Answered(pc.hash, pc.response)
            && CircuitBreaker.AfterSuccess(s.circuit, c.operation, a.now).1.Success?)
  {
    hide CircuitBreaker.Admission, CircuitBreaker.AfterSuccess, CircuitBreaker.AfterFailure, CircuitBreaker.Apply,
      Lookup, Reserve, Commit, Reconcile;
  }

  /** Where one action leaves the process that acts. */
  lemma ActorAccounted<R>(c: Config, circuit: Circuit, actions: seq<Action<R>>, a: Action<R>, p: string)
    requires Accounted(c, circuit, actions, Run(c, Start(circuit), actions))
    ensures var pc := Do(c, Run(c, Start(circuit), actions), a).PcOf(p);
      && (pc.Answered? ==> WasAnswered(c, circuit, actions + [a], pc.hash, pc.response))
      && (pc.Committing? ==> WasAnswered(c, circuit, actions + [a], pc.hash, pc.response)
                             && WasCredited(c, circuit, actions + [a], pc.hash, pc.response))
  {
    hide Run, Do, WasAnswered, WasCredited;
    var s := Run(c, Start(circuit), actions);
    var pc := Do(c, s, a).PcOf(p);
    if pc.Answered? || pc.Committing? {
      HistoryGrows(c, circuit, actions, a, pc.hash, pc.response);
      if s.PcOf(p) != pc {
        PcChange(c, s, a, p);
        if pc.Answered? {
          AnsweredNow(c, circuit, actions, a, pc.hash, pc.response);
        } else {
          CreditedNow(c, circuit, actions, a, pc.hash, pc.response);
        }
      }
    }
  }

  lemma AnsweredNow<R>(c: Config, circuit: Circuit, actions: seq<Action<R>>, a: Action<R>, hash: string, response: R)
    requires a.Respond? && a.response == response && Run(c, Start(circuit), actions).PcOf(a.proc) == InFlight(hash)
    ensures WasAnswered(c, circuit, actions + [a], hash, response)
  {
    hide Run;
    assert (actions + [a])[..|actions|] == actions;
    assert AnsweredAt(c, circuit, actions + [a], |actions|, hash, response);
  }

  lemma CreditedNow<R>(c: Config, circuit: Circuit, actions: seq<Action<R>>, a: Action<R>, hash: string, response: R)
    requires a.Advance?
    requires var s := Run(c, Start(circuit), actions);
      s.PcOf(a.proc) == Answered(hash, response) && CircuitBreaker.AfterSuccess(s.circuit, c.operation, a.now).1.Success?
    ensures WasCredited(c, circuit, actions + [a], hash, response)
  {
    hide Run, CircuitBreaker.AfterSuccess;
    assert (actions + [a])[..|actions|] == actions;
    assert CreditedAt(c, circuit, actions + [a], |actions|, hash, response);
  }

  /** Only the update of a credited process and the operator complete a row. */
  lemma RowChange<R>(c: Config, s: State<R>, a: Action<R>)
    requires Do(c, s, a).row != s.row
    requires Do(c, s, a).row.Some? && Do(c, s, a).row.value.status.Completed? && Do(c, s, a).row.value.response.Some?
    ensures var row := Do(c, s, a).row.value;
      || (a.Operator? && Do(c, s, a).audit == s.audit + [Reconciliation(row.requestHash, Verdict.Complete(row.response.value))])
      || (a.Advance? && s.PcOf(a.proc) == Committing(row.requestHash, row.response.value))
  {
    hide CircuitBreaker.Admission, CircuitBreaker.AfterSuccess, CircuitBreaker.AfterFailure, CircuitBreaker.Apply;
  }

  lemma AuditGrows<R>(c: Config, s: State<R>, a: Action<R>)
    ensures s.audit <= Do(c, s, a).audit
  {
    hide CircuitBreaker.Admission, CircuitBreaker.AfterSuccess, CircuitBreaker.AfterFailure, CircuitBreaker.Apply;
  }

  lemma RowAccounted<R>(c: Config, circuit: Circuit, actions: seq<Action<R>>, a: Action<R>)
    requires Accounted(c, circuit, actions, Run(c, Start(circuit), actions))
    ensures var s := Do(c, Run(c, Start(circuit), actions), a);
      s.row.Some? && s.row.value.status.Completed? && s.row.value.response.Some? ==>
        var hash, response := s.row.value.requestHash, s.row.value.response.value;
        || WasApproved(s.audit, hash, response)
        || (WasAnswered(c, circuit, actions + [a], hash, response) && WasCredited(c, circuit, actions + [a], hash, response))
  {
    hide Run, Do, WasAnswered, WasCredited;
    var s := Run(c, Start(circuit), actions);
    var s' := Do(c, s, a);
    if s'.row.Some? && s'.row.value.status.Completed? && s'.row.value.response.Some? {
      var hash, response := s'.row.value.requestHash, s'.row.value.response.value;
      HistoryGrows(c, circuit, actions, a, hash, response);
      AuditGrows(c, s, a);
      if s'.row != s.row {
        RowChange(c, s, a);
        if a.Advance? {
          assert a.proc in s.procs;
        }
      }
    }
  }

  lemma {:induction false} RunAccounted<R>(c: Config, circuit: Circuit, actions: seq<Action<R>>)
    ensures Accounted(c, circuit, actions, Run(c, Start(circuit), actions))
  {
    hide Do, WasAnswered, WasCredited, WasApproved;
    if actions != [] {
      var n := |actions| - 1;
      var before, a := actions[..n], actions[n];
      RunAccounted(c, circuit, before);
      assert before + [a] == actions;
      RowAccounted(c, circuit, before, a);
      var s := Run(c, Start(circuit), actions);
      forall p | p in s.procs
        ensures s.procs[p].Answered? ==> WasAnswered(c, circuit, actions, s.procs[p].hash, s.procs[p].response)
        ensures s.procs[p].Committing? ==>
          WasAnswered(c, circuit, actions, s.procs[p].hash, s.procs[p].response)
          && WasCredited(c, circuit, actions, s.procs[p].hash, s.procs[p].response)
      {
        ActorAccounted(c, circuit, before, a, p);
        assert s.PcOf(p) == s.procs[p];
      }
    }
  }

  /**
   Where a stored answer comes from, in every run: the operator attested it, or the external call gave it to
   a process that had sent the request and the breaker then accepted that process's success.
   */
  lemma CompletedIsEarned<R>(c: Config, circuit: Circuit, actions: seq<Action<R>>)
    requires var s := Run(c, Start(circuit), actions); s.row.Some? && s.row.value.status.Completed?
    ensures var s := Run(c, Start(circuit), actions);
      && s.row.value.response.Some?
      && (|| WasApproved(s.audit, s.row.value.requestHash, s.row.value.response.value)
          || (&& WasAnswered(c, circuit, actions, s.row.value.requestHash, s.row.value.response.value)
              && WasCredited(c, circuit, actions, s.row.value.requestHash, s.row.value.response.value)))
  {
    hide Run, WasAnswered, WasCredited, WasApproved;
    RunAccounted(c, circuit, actions);
    RunKeeps(c, Start<R>(circuit), actions);
  }

  // ---------------------------------------------------------------- a refused success

  /** The process holds a reservation of the row. */
  predicate Engaged<R>(pc: Pc<R>) {
    pc.Sending? || pc.InFlight? || pc.Answered? || pc.Committing?
  }

  /** A PENDING row that nobody is working for any more. */
  ghost predicate Orphaned<R>(s: State<R>) {
    && s.row.Some? && s.row.value.status.Pending?
    && forall p | p in s.procs :: !Engaged(s.procs[p])
  }

  lemma OrphanedStep<R>(c: Config, s: State<R>, a: Action<R>)
    requires Orphaned(s) && !a.Operator?
    ensures var t := Do(c, s, a); t.row == s.row && t.sent == s.sent && forall p :: !Engaged(t.PcOf(p))
  {
    hide CircuitBreaker.Admission, CircuitBreaker.AfterSuccess, CircuitBreaker.AfterFailure, CircuitBreaker.Apply;
    assert forall p :: !Engaged(s.PcOf(p));
  }

  /** Such a row stays PENDING, and is never sent again, until the operator acts. */
  lemma {:induction false} OrphanedStaysPending<R>(c: Config, s: State<R>, actions: seq<Action<R>>)
    requires Orphaned(s) && forall i | 0 <= i < |actions| :: !actions[i].Operator?
    ensures var t := Run(c, s, actions); t.row == s.row && t.sent == s.sent && Orphaned(t)
  {
    hide Do, Engaged;
    if actions != [] {
      var n := |actions| - 1;
      OrphanedStaysPending(c, s, actions[..n]);
      var before := Run(c, s, actions[..n]);
      OrphanedStep(c, before, actions[n]);
      var t := Run(c, s, actions);
      assert forall p | p in t.procs :: t.PcOf(p) == t.procs[p];
    }
  }

  /** When `record_success` of this operation is refused: the circuit is open, or another call is its probe. */
  predicate SuccessRefused(c: Config, circuit: Circuit) {
    || !CircuitBreaker.ValidOperation(c.operation)
    || circuit.row.phase.Open?
    || (circuit.row.phase.HalfOpen? && circuit.row.probe != Some(c.operation))
  }

  /**
   A process with a paid answer, the only one working for a PENDING row: when the circuit refuses its success
   the answer is lost, the row is PENDING from then on and nothing is sent until the operator acts; otherwise
   its next step but one completes the row.
   */
  lemma RefusedSuccessStaysPending<R>(c: Config, s: State<R>, p: string, now: real, actions: seq<Action<R>>)
    requires s.row.Some? && s.row.value.status.Pending? && s.PcOf(p).Answered?
    requires s.row.value.requestHash == s.PcOf(p).hash
    requires forall q | q in s.procs && q != p :: !Engaged(s.procs[q])
    requires forall i | 0 <= i < |actions| :: !actions[i].Operator?
    ensures var t := Step(c, s, p, now);
      if SuccessRefused(c, s.circuit) then
        && Run(c, t, actions).row == s.row && Run(c, t, actions).sent == s.sent && Orphaned(Run(c, t, actions))
      else Step(c, t, p, now).row == Some(Row(s.PcOf(p).hash, Completed, Some(s.PcOf(p).response)))
  {
    hide Run, Engaged;
    var t := Step(c, s, p, now);
    if SuccessRefused(c, s.circuit) {
      assert t.PcOf(p) == Ready && t.row == s.row && t.sent == s.sent;
      forall q | q in t.procs
        ensures !Engaged(t.procs[q])
      {
        if q == p {
          ReadyIsFree(t.procs[q]);
        } else {
          assert t.procs[q] == s.procs[q];
        }
      }
      OrphanedStaysPending(c, t, actions);
    } else {
      assert t.PcOf(p) == Committing(s.PcOf(p).hash, s.PcOf(p).response) && t.row == s.row;
    }
  }

  lemma ReadyIsFree<R>(pc: Pc<R>)
    requires pc.Ready?
    ensures !Engaged(pc)
  {
  }

  // ---------------------------------------------------------------- one uninterrupted call

  lemma RunSnoc<R>(c: Config, s: State<R>, actions: seq<Action<R>>, a: Action<R>)
    ensures Run(c, s, actions + [a]) == Do(c, Run(c, s, actions), a)
  {
    assert (actions + [a])[..|actions|] == actions;
  }

  function ResponseOf<R>(row: Option<Row<R>>): Option<R> {
    if row.Some? then row.value.response else None
  }

  datatype Outcome<R> = Outcome(row: Option<Row<R>>, circuit: Circuit, result: Result<R, OperationError>, sent: bool)

  /**
   `complete` without interruption.  A stored answer is returned and a PENDING or ABANDONED row refused,
   both without calling out; otherwise the call goes out once if the breaker admits it, on a closed circuit
   or as its probe, behind a PENDING row that becomes COMPLETED only when there is an answer and the breaker
   accepts its success.
   */
  function CompleteSpec<R>(settings: Settings, operation: string, row: Option<Row<R>>, circuit: Circuit, hash: string,
                           answer: Option<R>, now: real, later: real): Outcome<R>
  {
    if !CircuitBreaker.ValidOperation(operation) then Outcome(row, circuit, Failure(ContractViolation), false)
    else match Lookup(row, hash)
      case Failure(e) => Outcome(row, circuit, Failure(e), false)
      case Success(Some(cached)) => Outcome(row, circuit, Success(cached), false)
      case Success(None) =>
        var (admitted, gate) := CircuitBreaker.Admission(settings, circuit, operation, now);
        if gate.Failure? then Outcome(row, admitted, Failure(Refused(gate.error)), false)
        else
          var reserved := Some(Row(hash, Pending, ResponseOf(row)));
          if answer.None? then
            Outcome(reserved, CircuitBreaker.AfterFailure(settings, admitted, operation, later).0, Failure(Indeterminate), true)
          else
            var (credited, credit) := CircuitBreaker.AfterSuccess(admitted, operation, later);
            if credit.Failure? then Outcome(reserved, credited, Failure(Refused(credit.error)), true)
            else Outcome(Some(Row(hash, Completed, answer)), credited, Success(answer.value), true)
  }

  /** The table of one database, the operator's audit trail and the circuit it shares. */
  class Operations<R(==)> {
    const kind: Kind
    const breaker: CircuitBreaker.Breaker
    var rows: map<string, Row<R>>
    var audit: seq<(string, Reconciliation<R>)>

    constructor (kind: Kind, breaker: CircuitBreaker.Breaker)
      ensures this.kind == kind && this.breaker == breaker && rows == map[] && audit == []
    {
      this.kind, this.breaker, rows, audit := kind, breaker, map[], [];
    }

    function RowOf(operation: string): Option<Row<R>>
      reads this
    {
      if operation in rows then Some(rows[operation]) else None
    }

    /**
     `complete`, with `answer` the usable response of the external call, if there is one; `now` and `later`
     are the clock readings of the breaker before and after it.  Its outcome is `CompleteSpec`.
     */
    method Complete(operation: string, hash: string, answer: Option<R>, now: real, later: real)
      returns (r: Result<R, OperationError>, sent: bool)
      modifies this`rows, breaker
      ensures forall other :: other != operation ==> RowOf(other) == old(RowOf(other))
      ensures Outcome(RowOf(operation), breaker.Model(), r, sent)
           == CompleteSpec(breaker.settings, operation, old(RowOf(operation)), old(breaker.Model()), hash, answer, now, later)
    {
      sent := false;
      if !CircuitBreaker.ValidOperation(operation) {
        return Failure(ContractViolation), sent;
      }
      var cached := Lookup(RowOf(operation), hash);
      if cached.Failure? {
        return Failure(cached.error), sent;
      }
      if cached.value.Some? {
        return Success(cached.value.value), sent;
      }
      var gate := breaker.BeforeCall(operation, now);
      if gate.Failure? {
        return Failure(Refused(gate.error)), sent;
      }
      var reservation := Reserve(RowOf(operation), hash);
      rows := rows[operation := reservation.row];
      sent := true;
      if answer.None? {
        var _ := breaker.RecordFailure(operation, later);
        return Failure(Indeterminate), sent;
      }
      var credit := breaker.RecordSuccess(operation, later);
      if credit.Failure? {
        return Failure(Refused(credit.error)), sent;
      }
      var updated := Commit(RowOf(operation), hash, answer.value);
      rows := rows[operation := updated.value];
      return Success(answer.value), sent;
    }

    /** `reconcile_operation`: one PENDING row changes and one audit row is written, or neither. */
    method ReconcileOperation(operation: string, hash: string, verdict: Verdict<R>)
      returns (r: Result<Status, OperationError>)
      modifies this`rows, this`audit
      ensures match Reconcile(old(RowOf(operation)), hash, verdict)
        case Success(row) => rows == old(rows)[operation := row] && r == Success(row.status)
                          && audit == old(audit) + [(operation, Reconciliation(hash, verdict))]
        case Failure(e) => rows == old(rows) && audit == old(audit) && r == Failure(e)
    {
      if operation !in rows || rows[operation].requestHash != hash || !rows[operation].status.Pending? {
        return Failure(ContractViolation);
      }
      var row := rows[operation];
      match verdict {
        case Complete(response) => row := row.(status := Completed, response := Some(response));
        case AuthorizeRetry => row := row.(status := RetryAuthorized);
        case Abandon => row := row.(status := Abandoned);
      }
      rows := rows[operation := row];
      audit := audit + [(operation, Reconciliation(hash, verdict))];
      return Success(row.status);
    }
  }

  /** The steps of one call; those after its end change nothing. */
  function Outward<R>(p: string, hash: string, now: real): seq<Action<R>> {
    [Call(p, hash), Advance(p, now), Advance(p, now), Advance(p, now)]
  }

  function Homeward<R>(p: string, answer: Option<R>, later: real): seq<Action<R>> {
    [if answer.Some? then Respond(p, answer.value) else Trouble(p), Advance(p, later), Advance(p, later), Advance(p, later)]
  }

  lemma RunFour<R>(c: Config, s: State<R>, a0: Action<R>, a1: Action<R>, a2: Action<R>, a3: Action<R>)
    ensures Run(c, s, [a0, a1, a2, a3]) == Do(c, Do(c, Do(c, Do(c, s, a0), a1), a2), a3)
  {
    hide Do;
    assert [a0, a1, a2, a3] == [] + [a0] + [a1] + [a2] + [a3];
    RunSnoc(c, s, [], a0);
    RunSnoc(c, s, [] + [a0], a1);
    RunSnoc(c, s, [] + [a0] + [a1], a2);
    RunSnoc(c, s, [] + [a0] + [a1] + [a2], a3);
  }

  /** Two states that differ in the table of processes at most, and there only as `p` is concerned. */
  ghost predicate Leaves<R>(s: State<R>, t: State<R>, p: string, pc: Pc<R>) {
    t.PcOf(p) == pc && t.audit == s.audit && forall q :: q != p ==> t.PcOf(q) == s.PcOf(q)
  }

  /** Up to the transmission: the call has ended without one, or the request is out behind a PENDING row. */
  lemma OutwardSends<R>(c: Config, s: State<R>, p: string, hash: string, now: real)
    requires CircuitBreaker.ValidOperation(c.operation) && s.PcOf(p).Ready?
    ensures var t := Run(c, s, Outward(p, hash, now));
      var (admitted, gate) := CircuitBreaker.Admission(c.settings, s.circuit, c.operation, now);
      if Lookup(s.row, hash) != Success(None) then
        && Leaves(s, t, p, Ready) && t.row == s.row && t.circuit == s.circuit && t.sent == s.sent
        && t.returned == (if Lookup(s.row, hash).Success? then s.returned + [(hash, Lookup(s.row, hash).value.value)]
                          else s.returned)
      else if gate.Failure? then
        Leaves(s, t, p, Ready) && t.row == s.row && t.circuit == admitted && t.sent == s.sent && t.returned == s.returned
      else
        && Leaves(s, t, p, InFlight(hash)) && t.row == Some(Row(hash, Pending, ResponseOf(s.row)))
        && t.circuit == admitted && t.sent == s.sent + 1 && t.returned == s.returned
  {
    hide Run, CircuitBreaker.Admission;
    RunFour(c, s, Call(p, hash), Advance(p, now), Advance(p, now), Advance(p, now));
    if Lookup(s.row, hash) == Success(None) {
      var s2 := Step(c, s.At(p, Asking(hash)), p, now);
      if CircuitBreaker.Admission(c.settings, s.circuit, c.operation, now).1.Success? {
        assert s2.PcOf(p) == Reserving(hash) && s2.row == s.row;
        assert Reserve(s.row, hash) == Reserved(Row(hash, Pending, ResponseOf(s.row)));
        var s3 := Step(c, s2, p, now);
        assert s3.PcOf(p) == Sending(hash);
      } else {
        assert s2.PcOf(p) == Ready;
      }
    } else {
      assert Do(c, s, Call(p, hash)).PcOf(p) == Ready;
    }
  }

  /** From the answer, or its absence, to the end. */
  lemma HomewardStores<R>(c: Config, s: State<R>, p: string, hash: string, answer: Option<R>, later: real)
    requires CircuitBreaker.ValidOperation(c.operation)
    requires s.PcOf(p) == InFlight(hash) && s.row.Some? && s.row.value.requestHash == hash && s.row.value.status.Pending?
    ensures var t := Run(c, s, Homeward(p, answer, later));
      var (credited, credit) := CircuitBreaker.AfterSuccess(s.circuit, c.operation, later);
      && Leaves(s, t, p, Ready) && t.sent == s.sent
      && (if answer.None? then
            && t.row == s.row && t.returned == s.returned
            && t.circuit == CircuitBreaker.AfterFailure(c.settings, s.circuit, c.operation, later).0
          else if credit.Failure? then t.row == s.row && t.returned == s.returned && t.circuit == credited
          else
            && t.row == Some(Row(hash, Completed, answer)) && t.returned == s.returned + [(hash, answer.value)]
            && t.circuit == credited)
  {
    hide Run, CircuitBreaker.AfterSuccess, CircuitBreaker.AfterFailure;
    RunFour(c, s, if answer.Some? then Respond(p, answer.value) else Trouble(p),
            Advance(p, later), Advance(p, later), Advance(p, later));
    if answer.Some? {
      var s2 := Step(c, s.At(p, Answered(hash, answer.value)), p, later);
      if CircuitBreaker.AfterSuccess(s.circuit, c.operation, later).1.Success? {
        assert s2.PcOf(p) == Committing(hash, answer.value) && s2.row == s.row;
        var s3 := Step(c, s2, p, later);
        assert s3.row == Some(Row(hash, Completed, answer));
        if c.kind.Model? {
          assert s3.PcOf(p) == Confirming(hash);
        } else {
          assert s3.PcOf(p) == Ready;
        }
      } else {
        assert s2.PcOf(p) == Ready;
      }
    } else {
      var s2 := Step(c, s.At(p, Broken), p, later);
      assert s2.PcOf(p) == Ready;
    }
  }

  lemma NothingLeft<R>(c: Config, s: State<R>, p: string, answer: Option<R>, later: real)
    requires s.PcOf(p).Ready?
    ensures Run(c, s, Homeward(p, answer, later)) == s
  {
    hide Run;
    RunFour(c, s, if answer.Some? then Respond(p, answer.value) else Trouble(p),
            Advance(p, later), Advance(p, later), Advance(p, later));
  }

  lemma {:induction false} RunOver<R>(c: Config, s: State<R>, before: seq<Action<R>>, after: seq<Action<R>>)
    ensures Run(c, s, before + after) == Run(c, Run(c, s, before), after)
  {
    hide Do;
    if after == [] {
      assert before + after == before;
    } else {
      var n := |after| - 1;
      RunOver(c, s, before, after[..n]);
      RunSnoc(c, s, before + after[..n], after[n]);
      assert before + after == before + after[..n] + [after[n]];
    }
  }

  /**
   One uninterrupted call is a run of the step system, for either kind of transport, on a closed circuit, as a
   half-open probe, refused or failed: so what is proved of every run holds of the calls that processes make.
   */
  lemma CompleteIsARun<R>(c: Config, s: State<R>, p: string, hash: string, answer: Option<R>, now: real, later: real)
    requires CircuitBreaker.ValidOperation(c.operation) && s.PcOf(p).Ready?
    ensures var t := Run(c, s, Outward(p, hash, now) + Homeward(p, answer, later));
      var o := CompleteSpec(c.settings, c.operation, s.row, s.circuit, hash, answer, now, later);
      && Leaves(s, t, p, Ready)
      && t.row == o.row && t.circuit == o.circuit && t.sent == s.sent + (if o.sent then 1 else 0)
      && t.returned == s.returned + (if o.result.Success? then [(hash, o.result.value)] else [])
  {
    hide Run, Outward, Homeward, CircuitBreaker.Admission, CircuitBreaker.AfterSuccess, CircuitBreaker.AfterFailure;
    OutwardSends(c, s, p, hash, now);
    var out := Run(c, s, Outward(p, hash, now));
    RunOver(c, s, Outward(p, hash, now), Homeward(p, answer, later));
    assert s.returned + [] == s.returned;
    if out.PcOf(p).Ready? {
      NothingLeft(c, out, p, answer, later);
    } else {
      HomewardStores(c, out, p, hash, answer, later);
    }
  }

  // ---------------------------------------------------------------- a paid answer that is lost

  /** `n` failures of another operation on the same circuit. */
  function Failures<R>(other: string, now: real, n: nat): seq<Action<R>> {
    if n == 0 then [] else Failures(other, now, n - 1) + [Elsewhere(CircuitBreaker.Fail(other), now)]
  }

  /** They open a closed circuit when there are enough of them, and change nothing else. */
  lemma {:induction false} FailuresOpen<R>(c: Config, s: State<R>, other: string, now: real, n: nat)
    requires CircuitBreaker.ValidOperation(other) && n <= c.settings.threshold
    requires s.circuit.row == CircuitBreaker.INITIAL
    ensures var t := Run(c, s, Failures(other, now, n));
      && t == s.(circuit := t.circuit) && t.circuit.row.failures == n
      && (if n < c.settings.threshold || n == 0 then t.circuit.row.phase.Closed? else t.circuit.row.phase.Open?)
  {
    if n > 0 {
      FailuresOpen(c, s, other, now, n - 1);
      RunSnoc(c, s, Failures(other, now, n - 1), Elsewhere(CircuitBreaker.Fail(other), now));
    }
  }

  /** `p` sends the request, and while the call is out enough other calls fail to open the circuit. */
  function LostRun<R>(c: Config, p: string, hash: string, response: R, other: string, now: real): seq<Action<R>> {
    Outward(p, hash, now) + Failures(other, now, c.settings.threshold) + [Respond(p, response)]
  }

  /**
   It happens, with any settings: a run in which the request has gone out and been paid for, the answer is there,
   and the row stays PENDING under all continuations without the operator.
   */
  lemma PaidAnswerIsLost<R>(c: Config, p: string, hash: string, response: R, other: string, now: real, actions: seq<Action<R>>)
    requires CircuitBreaker.ValidSettings(c.settings)
    requires CircuitBreaker.ValidOperation(c.operation) && CircuitBreaker.ValidOperation(other)
    requires forall i | 0 <= i < |actions| :: !actions[i].Operator?
    ensures var s := Run(c, Start(CircuitBreaker.Circuit(CircuitBreaker.INITIAL, [])), LostRun(c, p, hash, response, other, now));
      && s.PcOf(p) == Answered(hash, response) && s.sent == 1 && s.row == Some(Row(hash, Pending, None))
      && s.circuit.row.phase.Open?
      && Run(c, Step(c, s, p, now), actions).row == s.row && Run(c, Step(c, s, p, now), actions).sent == 1
  {
    hide Run, Outward, Failures, Engaged, Orphaned;
    var start: State<R> := Start(CircuitBreaker.Circuit(CircuitBreaker.INITIAL, []));
    OutwardSends(c, start, p, hash, now);
    var out := Run(c, start, Outward(p, hash, now));
    assert out.circuit == start.circuit && out.PcOf(p) == InFlight(hash);
    FailuresOpen(c, out, other, now, c.settings.threshold);
    var failed := Run(c, out, Failures(other, now, c.settings.threshold));
    RunOver(c, start, Outward(p, hash, now), Failures(other, now, c.settings.threshold));
    RunSnoc(c, start, Outward(p, hash, now) + Failures(other, now, c.settings.threshold), Respond(p, response));
    var s := failed.At(p, Answered(hash, response));
    forall q | q in s.procs && q != p
      ensures !Engaged(s.procs[q])
    {
      assert s.PcOf(q) == out.PcOf(q) == start.PcOf(q) == Ready;
      ReadyIsFree(s.procs[q]);
    }
    RefusedSuccessStaysPending(c, s, p, now, actions);
  }
}
