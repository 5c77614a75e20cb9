/**
 What callers and the operator get from one paid operation, stated in the fields of its row: the
 transports and `operation_recovery.py` under `src/evaluation`.  Over every run of the protocol an
 operation stands for one request; a stored answer is served, an authorised retry really goes out.
 */
module PaidRequests {
  import opened Wrappers
  import CircuitBreaker
  import opened PaidOperations

  // ---------------------------------------------------------------- one request

  /** Every verdict of the operator and every returned answer is for the request of the row. */
  ghost predicate OneRequestRecorded<R>(s: State<R>) {
    && (forall a | a in s.audit :: s.row.Some? && a.requestHash == s.row.value.requestHash)
    && (forall r | r in s.returned :: s.row.Some? && r.0 == s.row.value.requestHash)
  }

  /** Whoever holds a reservation, or has an answer, works for the request of the row. */
  ghost predicate OneRequest<R>(s: State<R>) {
    && (forall p | p in s.procs && Engaged(s.procs[p]) :: s.row.Some? && s.procs[p].hash == s.row.value.requestHash)
    && OneRequestRecorded(s)
    && (forall p | p in s.procs && s.procs[p].Raced? :: s.row.Some? && s.procs[p].hash == s.row.value.requestHash)
  }

  /** The row keeps its request. */
  ghost predicate SameRequest<R>(row: Option<Row<R>>, later: Option<Row<R>>) {
    row.Some? ==> later.Some? && later.value.requestHash == row.value.requestHash
  }

  /** What a single action does to the acting process and the row. */
  ghost predicate Ordered<R>(s: State<R>, t: State<R>, p: string) {
    && SameRequest(s.row, t.row)
    && (forall q | q != p :: t.PcOf(q) == s.PcOf(q))
    && (Engaged(t.PcOf(p)) || t.PcOf(p).Raced? ==> t.row.Some? && t.PcOf(p).hash == t.row.value.requestHash)
    && (forall r | r in t.returned :: r in s.returned || (t.row.Some? && r.0 == t.row.value.requestHash))
    && (forall a | a in t.audit :: a in s.audit || (t.row.Some? && a.requestHash == t.row.value.requestHash))
  }

  lemma EngagedRequest<R>(s: State<R>, p: string)
    requires OneRequest(s) && (Engaged(s.PcOf(p)) || s.PcOf(p).Raced?)
    ensures s.row.Some? && s.PcOf(p).hash == s.row.value.requestHash
  {
  }

  lemma LookupOrders<R>(s: State<R>, p: string, hash: string, missing: Pc<R>)
    requires !Engaged(missing) && !missing.Raced?
    ensures Ordered(s, StepLookup(s, p, hash, missing), p)
  {
  }

  lemma CommitOrders<R>(c: Config, s: State<R>, p: string, hash: string, response: R)
    requires s.row.Some? && s.row.value.requestHash == hash
    ensures Ordered(s, StepCommit(c, s, p, hash, response), p)
  {
  }

  lemma StepOrders<R>(c: Config, s: State<R>, p: string, now: real)
    requires OneRequest(s)
    ensures Ordered(s, Step(c, s, p, now), p)
  {
    hide CircuitBreaker.Admission, CircuitBreaker.AfterSuccess, CircuitBreaker.AfterFailure, OneRequest, StepLookup,
      StepCommit;
    if Engaged(s.PcOf(p)) || s.PcOf(p).Raced? {
      EngagedRequest(s, p);
    }
    match s.PcOf(p)
    case Committing(hash, response) => CommitOrders(c, s, p, hash, response);
    case Confirming(hash) => LookupOrders(s, p, hash, Ready);
    case _ =>
  }

  /** The process that acts; the operator and other operations have none. */
  function Actor<R>(a: Action<R>): string {
    match a
    case Call(p, _) => p
    case Advance(p, _) => p
    case Respond(p, _) => p
    case Trouble(p) => p
    case Crash(p) => p
    case _ => ""
  }

  lemma DoOrders<R>(c: Config, s: State<R>, a: Action<R>)
    requires OneRequest(s)
    ensures Ordered(s, Do(c, s, a), Actor(a))
  {
    hide Step, OneRequest, CircuitBreaker.Apply, StepLookup;
    if Engaged(s.PcOf(Actor(a))) || s.PcOf(Actor(a)).Raced? {
      EngagedRequest(s, Actor(a));
    }
    match a
    case Advance(p, now) => StepOrders(c, s, p, now);
    case Call(p, hash) => LookupOrders(s, p, hash, Asking(hash));
    case _ =>
  }

  lemma OrderedKeeps<R>(s: State<R>, t: State<R>, p: string)
    requires OneRequest(s) && Ordered(s, t, p)
    ensures OneRequest(t)
  {
    forall q | q in t.procs && (Engaged(t.procs[q]) || t.procs[q].Raced?)
      ensures t.row.Some? && t.procs[q].hash == t.row.value.requestHash
    {
      assert t.PcOf(q) == t.procs[q];
      if q != p {
        assert t.PcOf(q) == s.PcOf(q);
        EngagedRequest(s, q);
      }
    }
    RecordsKeep(s, t, p);
  }

  lemma RecordsKeep<R>(s: State<R>, t: State<R>, p: string)
    requires OneRequest(s) && Ordered(s, t, p)
    ensures OneRequestRecorded(t)
  {
    hide Engaged;
  }

  /**
   Over every run an operation stands for one request: the row never changes its request hash, nothing
   is sent, answered, stored or returned for another one, and every operator verdict names it.
   */
  lemma {:induction false} OneRequestForever<R>(c: Config, s: State<R>, actions: seq<Action<R>>)
    requires OneRequest(s)
    ensures OneRequest(Run(c, s, actions)) && SameRequest(s.row, Run(c, s, actions).row)
  {
    hide Do, OneRequest;
    if actions != [] {
      var n := |actions| - 1;
      OneRequestForever(c, s, actions[..n]);
      DoOrders(c, Run(c, s, actions[..n]), actions[n]);
      OrderedKeeps(Run(c, s, actions[..n]), Do(c, Run(c, s, actions[..n]), actions[n]), Actor(actions[n]));
    }
  }

  lemma StartIsOneRequest<R>(circuit: Circuit)
    ensures OneRequest(Start<R>(circuit))
  {
  }

  // ---------------------------------------------------------------- the operator

  /** The operator decides exactly on a PENDING row of the attested request, and every decision is on record. */
  lemma OperatorDecidesExactly<R>(c: Config, s: State<R>, hash: string, verdict: Verdict<R>)
    ensures var t := Do(c, s, Action.Operator(hash, verdict));
      && t.procs == s.procs && t.circuit == s.circuit && t.sent == s.sent && t.returned == s.returned
      && if s.row.Some? && s.row.value.requestHash == hash && s.row.value.status == Pending then
           && t.row.Some? && t.row.value.requestHash == hash
           && t.row.value.status == (match verdict
                                     case Complete(_) => Completed
                                     case AuthorizeRetry => RetryAuthorized
                                     case Abandon => Abandoned)
           && t.row.value.response == (if verdict.Complete? then Some(verdict.response) else s.row.value.response)
           && t.audit == s.audit + [Reconciliation(hash, verdict)]
         else t == s
  {
  }

  // ---------------------------------------------------------------- what a caller gets

  /** The row holds an answer for this request. */
  ghost predicate Stores<R>(row: Option<Row<R>>, hash: string, response: R) {
    row.Some? && row.value.requestHash == hash && row.value.status == Completed && row.value.response == Some(response)
  }

  /** A stored answer is returned to callers of the same request, and nothing is sent. */
  lemma StoredAnswerIsServed<R>(c: Config, s: State<R>, p: string, hash: string, response: R, answer: Option<R>, now: real,
                                later: real)
    requires CircuitBreaker.ValidOperation(c.operation) && s.PcOf(p).Ready? && Stores(s.row, hash, response)
    ensures var t := Run(c, s, Outward(p, hash, now) + Homeward(p, answer, later));
      && t.returned == s.returned + [(hash, response)]
      && t.row == s.row && t.circuit == s.circuit && t.sent == s.sent && t.audit == s.audit
  {
    hide Run, Outward, Homeward, CircuitBreaker.Admission, CircuitBreaker.AfterSuccess, CircuitBreaker.AfterFailure;
    CompleteIsARun(c, s, p, hash, answer, now, later);
  }

  /** Another request under the same id, a row that is still PENDING and an ABANDONED one are refused and not sent. */
  lemma OthersAreRefused<R>(c: Config, s: State<R>, p: string, hash: string, answer: Option<R>, now: real, later: real)
    requires CircuitBreaker.ValidOperation(c.operation) && s.PcOf(p).Ready? && s.row.Some?
    requires s.row.value.requestHash != hash || s.row.value.status == Pending || s.row.value.status == Abandoned
    ensures var t := Run(c, s, Outward(p, hash, now) + Homeward(p, answer, later));
      && t.row == s.row && t.circuit == s.circuit && t.sent == s.sent && t.returned == s.returned && t.audit == s.audit
  {
    hide Run, Outward, Homeward, CircuitBreaker.Admission, CircuitBreaker.AfterSuccess, CircuitBreaker.AfterFailure;
    CompleteIsARun(c, s, p, hash, answer, now, later);
    assert s.returned + [] == s.returned;
  }

  /**
   A new request, and one whose retry the operator has authorised, goes out exactly once while the circuit is
   closed.  With an answer the row is COMPLETED with it and the answer returned; without one the row is PENDING.
   */
  lemma AuthorisedCallGoesOut<R>(c: Config, s: State<R>, p: string, hash: string, answer: Option<R>, now: real, later: real)
    requires CircuitBreaker.ValidOperation(c.operation) && s.PcOf(p).Ready? && s.circuit.row.phase.Closed?
    requires s.row.None? || (s.row.value.requestHash == hash && s.row.value.status == RetryAuthorized)
    ensures var t := Run(c, s, Outward(p, hash, now) + Homeward(p, answer, later));
      && t.sent == s.sent + 1 && t.audit == s.audit && t.row.Some? && t.row.value.requestHash == hash
      && (answer.Some? ==>
            && Stores(t.row, hash, answer.value) && t.returned == s.returned + [(hash, answer.value)]
            && t.circuit.row.phase.Closed? && t.circuit.row.failures == 0)
      && (answer.None? ==>
            && t.row.value.status == Pending && t.returned == s.returned
            && t.circuit.row.failures == s.circuit.row.failures + 1)
  {
    hide Run, Outward, Homeward;
    CompleteIsARun(c, s, p, hash, answer, now, later);
    assert s.returned + [] == s.returned;
  }

  /**
   From a lost answer back to a served one, in every run: once the operator authorises the retry of a PENDING
   row, the next undisturbed call with an answer on a closed circuit completes it, and later callers get that answer.
   */
  lemma RetryRecovers<R>(c: Config, circuit: Circuit, actions: seq<Action<R>>, p: string, q: string, hash: string,
                         answer: R, again: Option<R>, now: real, later: real)
    requires CircuitBreaker.ValidOperation(c.operation)
    requires var s := Run(c, Start(circuit), actions);
      && s.row.Some? && s.row.value.requestHash == hash && s.row.value.status == Pending
      && s.PcOf(p).Ready? && s.PcOf(q).Ready? && s.circuit.row.phase.Closed?
    ensures var s := Run(c, Start(circuit), actions);
      var authorised := Do(c, s, Action.Operator(hash, AuthorizeRetry));
      var t := Run(c, authorised, Outward(p, hash, now) + Homeward(p, Some(answer), later));
      var u := Run(c, t, Outward(q, hash, now) + Homeward(q, again, later));
      && t.sent == u.sent == s.sent + 1
      && u.returned == s.returned + [(hash, answer), (hash, answer)]
      && Stores(u.row, hash, answer)
  {
    hide Run, Do, Outward, Homeward, Stores;
    var s := Run(c, Start(circuit), actions);
    var authorised := Do(c, s, Action.Operator(hash, AuthorizeRetry));
    OperatorDecidesExactly(c, s, hash, AuthorizeRetry);
    AuthorisedCallGoesOut(c, authorised, p, hash, Some(answer), now, later);
    var t := Run(c, authorised, Outward(p, hash, now) + Homeward(p, Some(answer), later));
    CompleteIsARun(c, authorised, p, hash, Some(answer), now, later);
    StoredAnswerIsServed(c, t, q, hash, answer, again, now, later);
    assert s.returned + [(hash, answer)] + [(hash, answer)] == s.returned + [(hash, answer), (hash, answer)];
  }

  // ---------------------------------------------------------------- who comes second

  function Steps<R>(c: Config, s: State<R>, p: string, now: real, n: nat): State<R> {
    if n == 0 then s else Step(c, Steps(c, s, p, now, n - 1), p, now)
  }

  lemma ThreeSteps<R>(c: Config, s: State<R>, p: string, now: real)
    ensures Steps(c, s, p, now, 2) == Step(c, Step(c, s, p, now), p, now)
    ensures Steps(c, s, p, now, 3) == Step(c, Step(c, Step(c, s, p, now), p, now), p, now)
  {
    hide Step;
    assert Steps(c, s, p, now, 1) == Step(c, s, p, now);
  }

  /**
   A process that passed the breaker and finds the answer stored by another one credits the breaker and returns that
   answer, without sending.
   */
  lemma LateAnswerIsServed<R>(c: Config, s: State<R>, p: string, hash: string, response: R, now: real)
    requires CircuitBreaker.ValidOperation(c.operation) && s.PcOf(p) == Reserving(hash) && Stores(s.row, hash, response)
    requires s.circuit.row.phase.Closed? || (s.circuit.row.phase.HalfOpen? && s.circuit.row.probe == Some(c.operation))
    ensures var t := Steps(c, s, p, now, 3);
      && t.PcOf(p) == Ready && t.returned == s.returned + [(hash, response)]
      && t.row == s.row && t.sent == s.sent && t.circuit.row == CircuitBreaker.INITIAL
  {
    ThreeSteps(c, s, p, now);
    hide Steps;
    assert Step(c, s, p, now).PcOf(p) == Rereading(hash);
    assert Step(c, Step(c, s, p, now), p, now).PcOf(p) == Raced(hash, response);
  }

  /** One that finds the row taken by another request, PENDING or ABANDONED sends nothing and counts as a failure. */
  lemma LateCallFails<R>(c: Config, s: State<R>, p: string, hash: string, now: real)
    requires CircuitBreaker.ValidOperation(c.operation) && s.PcOf(p) == Reserving(hash) && s.row.Some?
    requires s.row.value.requestHash != hash || s.row.value.status == Pending || s.row.value.status == Abandoned
    requires s.circuit.row.phase.Closed?
    ensures var t := Steps(c, s, p, now, 3);
      && t.PcOf(p) == Ready && t.returned == s.returned && t.row == s.row && t.sent == s.sent
      && t.circuit.row.failures == s.circuit.row.failures + 1
  {
    ThreeSteps(c, s, p, now);
    hide Steps;
    if s.row.value.requestHash == hash {
      assert Step(c, s, p, now).PcOf(p) == Rereading(hash);
      assert Step(c, Step(c, s, p, now), p, now).PcOf(p) == Broken;
    } else {
      assert Step(c, s, p, now).PcOf(p) == Broken;
      assert Step(c, Step(c, s, p, now), p, now).PcOf(p) == Ready;
    }
  }
}
