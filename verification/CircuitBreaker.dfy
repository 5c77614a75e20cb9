/**
 The persistent breaker of `src/evaluation/circuit_breaker.py`.  Each call is one transaction on
 the circuit row and its event log; processes that share the circuit interleave whole calls.
 */
module CircuitBreaker {
  import opened Wrappers

  datatype Phase = Closed | Open | HalfOpen

  datatype Kind = ProbeAdmitted | ProbeExpired | CallSucceeded | CallFailed

  datatype CircuitEvent = CircuitEvent(kind: Kind, operation: string, prior: Phase, next: Phase, at: real)

  datatype Row = Row(phase: Phase, failures: nat, openedAt: Option<real>,
                     probe: Option<string>, probeStartedAt: Option<real>)

  datatype Settings = Settings(threshold: nat, recovery: real, probeTimeout: real)

  datatype Circuit = Circuit(row: Row, log: seq<CircuitEvent>)

  datatype CircuitError = CircuitOpen | WrongProbe | SuccessWhileOpen | InvalidOperation

  const INITIAL := Row(Closed, 0, None, None, None)

  predicate ValidSettings(c: Settings) {
    c.threshold >= 1 && c.recovery > 0.0 && c.probeTimeout > 0.0
  }

  /** `_operation`. */
  predicate ValidOperation(operation: string) {
    !Blank(operation) && |operation| <= 500
  }

  function OrZero(t: Option<real>): real {
    if t.Some? then t.value else 0.0
  }

  // ---------------------------------------------------------------- the calls

  function Admission(c: Settings, b: Circuit, operation: string, now: real): (Circuit, Result<(), CircuitError>) {
    if !ValidOperation(operation) then (b, Failure(InvalidOperation))
    else match b.row.phase
      case Closed => (b, Success(()))
      case HalfOpen =>
        if now - OrZero(b.row.probeStartedAt) >= c.probeTimeout then
          (Circuit(b.row.(phase := Open, openedAt := Some(now), probe := None, probeStartedAt := None),
                   b.log + [CircuitEvent(ProbeExpired, operation, HalfOpen, Open, now)]),
           Failure(CircuitOpen))
        else (b, Failure(CircuitOpen))
      case Open =>
        if now - OrZero(b.row.openedAt) < c.recovery then (b, Failure(CircuitOpen))
        else
          (Circuit(b.row.(phase := HalfOpen, probe := Some(operation), probeStartedAt := Some(now)),
                   b.log + [CircuitEvent(ProbeAdmitted, operation, Open, HalfOpen, now)]),
           Success(()))
  }

  function AfterSuccess(b: Circuit, operation: string, now: real): (Circuit, Result<(), CircuitError>) {
    if !ValidOperation(operation) then (b, Failure(InvalidOperation))
    else if b.row.phase.HalfOpen? && b.row.probe != Some(operation) then (b, Failure(WrongProbe))
    else if b.row.phase.Open? then (b, Failure(SuccessWhileOpen))
    else
      var logged := b.row.phase != Closed || b.row.failures != 0;
      (Circuit(INITIAL,
               b.log + if logged then [CircuitEvent(CallSucceeded, operation, b.row.phase, Closed, now)] else []),
       Success(()))
  }

  function AfterFailure(c: Settings, b: Circuit, operation: string, now: real): (Circuit, Result<(), CircuitError>) {
    if !ValidOperation(operation) then (b, Failure(InvalidOperation))
    else if b.row.phase.Open? then (b, Success(()))
    else if b.row.phase.HalfOpen? && b.row.probe != Some(operation) then (b, Failure(WrongProbe))
    else
      var failures := b.row.failures + 1;
      var next := if b.row.phase.HalfOpen? || failures >= c.threshold then Open else Closed;
      (Circuit(Row(next, failures, if next.Open? then Some(now) else None, None, None),
               b.log + [CircuitEvent(CallFailed, operation, b.row.phase, next, now)]),
       Success(()))
  }

  datatype Call =
    | Before(operation: string)
    | Succeed(operation: string)
    | Fail(operation: string)

  function Apply(c: Settings, b: Circuit, call: Call, now: real): Circuit {
    match call
    case Before(operation) => Admission(c, b, operation, now).0
    case Succeed(operation) => AfterSuccess(b, operation, now).0
    case Fail(operation) => AfterFailure(c, b, operation, now).0
  }

  /** Any interleaving of calls, each with its own clock reading. */
  function Calls(c: Settings, calls: seq<(Call, real)>): Circuit {
    if calls == [] then Circuit(INITIAL, [])
    else
      var n := |calls| - 1;
      Apply(c, Calls(c, calls[..n]), calls[n].0, calls[n].1)
  }

  // ---------------------------------------------------------------- the log tells everything

  /** The row after one logged event, from the event alone and the row before it. */
  function Replay(row: Row, e: CircuitEvent): Row {
    match e.kind
    case ProbeAdmitted => row.(phase := HalfOpen, probe := Some(e.operation), probeStartedAt := Some(e.at))
    case ProbeExpired => row.(phase := Open, openedAt := Some(e.at), probe := None, probeStartedAt := None)
    case CallSucceeded => INITIAL
    case CallFailed => Row(e.next, row.failures + 1, if e.next.Open? then Some(e.at) else None, None, None)
  }

  function Fold(log: seq<CircuitEvent>): Row {
    if log == [] then INITIAL else Replay(Fold(log[..|log| - 1]), log[|log| - 1])
  }

  /** Each event's prior phase is the previous event's next phase, starting CLOSED. */
  predicate Linked(log: seq<CircuitEvent>) {
    && (log != [] ==> log[0].prior == Closed)
    && forall i | 1 <= i < |log| :: log[i].prior == log[i - 1].next
  }

  predicate RowOk(c: Settings, row: Row) {
    match row.phase
    case Closed => row.failures < c.threshold && row.openedAt.None? && row.probe.None? && row.probeStartedAt.None?
    case Open => row.failures >= 1 && row.openedAt.Some? && row.probe.None? && row.probeStartedAt.None?
    case HalfOpen => row.failures >= 1 && row.openedAt.Some? && row.probe.Some? && row.probeStartedAt.Some?
  }

  ghost predicate Faithful(c: Settings, b: Circuit) {
    && b.row == Fold(b.log)
    && Linked(b.log)
    && b.row.phase == (if b.log == [] then Closed else b.log[|b.log| - 1].next)
    && RowOk(c, b.row)
  }

  lemma FoldSnoc(log: seq<CircuitEvent>, e: CircuitEvent)
    ensures Fold(log + [e]) == Replay(Fold(log), e)
  {
    assert (log + [e])[..|log|] == log;
  }

  lemma LinkedSnoc(log: seq<CircuitEvent>, e: CircuitEvent)
    requires Linked(log) && e.prior == if log == [] then Closed else log[|log| - 1].next
    ensures Linked(log + [e])
  {
    var all := log + [e];
    forall i | 1 <= i < |all| ensures all[i].prior == all[i - 1].next {
      assert all[i - 1] == log[i - 1];
      assert i < |log| ==> all[i] == log[i];
    }
  }

  /** A call writes at most one event, stamped with its own clock reading and linked to the row. */
  lemma ApplyLogs(c: Settings, b: Circuit, call: Call, now: real)
    requires RowOk(c, b.row)
    ensures var b' := Apply(c, b, call, now);
      || b' == b
      || exists e :: b'.log == b.log + [e] && e.at == now && e.prior == b.row.phase
                     && b'.row.phase == e.next && b'.row == Replay(b.row, e)
  {
    var b' := Apply(c, b, call, now);
    assert b.log + [] == b.log;
    if b'.log != b.log {
      var e := b'.log[|b.log|];
      assert b'.log == b.log + [e];
    }
  }

  lemma ApplyRowOk(c: Settings, b: Circuit, call: Call, now: real)
    requires ValidSettings(c) && RowOk(c, b.row)
    ensures RowOk(c, Apply(c, b, call, now).row)
  {
  }

  lemma ApplyFaithful(c: Settings, b: Circuit, call: Call, now: real)
    requires ValidSettings(c) && Faithful(c, b)
    ensures Faithful(c, Apply(c, b, call, now))
  {
    hide Fold, Linked, Apply;
    ApplyLogs(c, b, call, now);
    ApplyRowOk(c, b, call, now);
    var b' := Apply(c, b, call, now);
    if e :| b'.log == b.log + [e] && e.at == now && e.prior == b.row.phase
            && b'.row.phase == e.next && b'.row == Replay(b.row, e) {
      FoldSnoc(b.log, e);
      LinkedSnoc(b.log, e);
    }
  }

  /**
   Folding the event log reproduces the row: phase, consecutive failures, opening time and
   probe.  The log is linked, and a closed circuit is below its failure threshold.
   */
  lemma {:induction false} LogIsFaithful(c: Settings, calls: seq<(Call, real)>)
    requires ValidSettings(c)
    ensures Faithful(c, Calls(c, calls))
  {
    if calls != [] {
      var n := |calls| - 1;
      LogIsFaithful(c, calls[..n]);
      ApplyFaithful(c, Calls(c, calls[..n]), calls[n].0, calls[n].1);
    }
  }

  // ---------------------------------------------------------------- recovery

  /** What the single probe decides: its success closes the circuit, its failure opens it for another cooldown. */
  ghost predicate ProbeDecides(c: Settings, b: Circuit, operation: string) {
    forall later: real ::
      && AfterSuccess(b, operation, later).1 == Success(()) && AfterSuccess(b, operation, later).0.row == INITIAL
      && AfterFailure(c, b, operation, later).1 == Success(())
      && AfterFailure(c, b, operation, later).0.row.phase == Open
      && AfterFailure(c, b, operation, later).0.row.openedAt == Some(later)
  }

  /**
   A circuit that has opened admits a probe exactly when the recovery time has passed since, in every
   reachable state.  The probe is recorded, and its outcome closes the circuit or opens it again.
   */
  lemma OpenCircuitRecovers(c: Settings, calls: seq<(Call, real)>, operation: string, now: real)
    requires ValidSettings(c) && ValidOperation(operation) && Calls(c, calls).row.phase.Open?
    ensures var b := Calls(c, calls); var (after, r) := Admission(c, b, operation, now);
      && b.row.openedAt.Some?
      && (if now - b.row.openedAt.value >= c.recovery then
            && r == Success(()) && after.row.phase == HalfOpen
            && after.row.probe == Some(operation) && after.row.probeStartedAt == Some(now)
            && ProbeDecides(c, after, operation)
          else r == Failure(CircuitOpen) && after == b)
  {
    hide Calls;
    LogIsFaithful(c, calls);
  }

  /** While a probe is out nobody else is let through; once it has had its time the circuit opens for a cooldown. */
  lemma ProbeExpires(c: Settings, calls: seq<(Call, real)>, operation: string, now: real)
    requires ValidSettings(c) && ValidOperation(operation) && Calls(c, calls).row.phase.HalfOpen?
    ensures var b := Calls(c, calls); var (after, r) := Admission(c, b, operation, now);
      && b.row.probeStartedAt.Some? && r == Failure(CircuitOpen)
      && (if now - b.row.probeStartedAt.value >= c.probeTimeout
          then after.row.phase == Open && after.row.openedAt == Some(now) && after.row.probe.None?
          else after == b)
  {
    hide Calls;
    LogIsFaithful(c, calls);
  }

  /** A closed circuit lets every call through and counts consecutive failures up to the threshold. */
  lemma ClosedCircuitCounts(c: Settings, calls: seq<(Call, real)>, operation: string, now: real)
    requires ValidSettings(c) && ValidOperation(operation) && Calls(c, calls).row.phase.Closed?
    ensures var b := Calls(c, calls);
      && Admission(c, b, operation, now) == (b, Success(()))
      && AfterSuccess(b, operation, now).1 == Success(()) && AfterSuccess(b, operation, now).0.row == INITIAL
      && var (after, r) := AfterFailure(c, b, operation, now);
         r == Success(()) && after.row.failures == b.row.failures + 1
         && after.row.phase == (if b.row.failures + 1 < c.threshold then Closed else Open)
         && (after.row.phase.Open? ==> after.row.openedAt == Some(now))
  {
    hide Calls;
    LogIsFaithful(c, calls);
  }

  /** The calls by which any circuit is brought back to normal, with waits in between. */
  function Rescue(c: Settings, b: Circuit, operation: string): seq<(Call, real)> {
    match b.row.phase
    case Closed => [(Succeed(operation), 0.0)]
    case Open =>
      var probed := OrZero(b.row.openedAt) + c.recovery;
      [(Before(operation), probed), (Succeed(operation), probed)]
    case HalfOpen =>
      var expired := OrZero(b.row.probeStartedAt) + c.probeTimeout;
      [(Before(operation), expired), (Before(operation), expired + c.recovery), (Succeed(operation), expired + c.recovery)]
  }

  lemma CallsSnoc(c: Settings, calls: seq<(Call, real)>, call: Call, now: real)
    ensures Calls(c, calls + [(call, now)]) == Apply(c, Calls(c, calls), call, now)
  {
    hide Apply;
    assert (calls + [(call, now)])[..|calls|] == calls;
  }

  /** No circuit is stuck: from every reachable state one operation that works brings it back to its initial row. */
  lemma EveryCircuitRecovers(c: Settings, calls: seq<(Call, real)>, operation: string)
    requires ValidSettings(c) && ValidOperation(operation)
    ensures Calls(c, calls + Rescue(c, Calls(c, calls), operation)).row == INITIAL
  {
    hide Calls, Admission, AfterSuccess, AfterFailure;
    var b := Calls(c, calls);
    var rescue := Rescue(c, b, operation);
    LogIsFaithful(c, calls);
    match b.row.phase {
      case Closed =>
        ClosedCircuitCounts(c, calls, operation, 0.0);
        CallsSnoc(c, calls, Succeed(operation), 0.0);
      case Open =>
        var probed := OrZero(b.row.openedAt) + c.recovery;
        OpenCircuitRecovers(c, calls, operation, probed);
        CallsSnoc(c, calls, Before(operation), probed);
        CallsSnoc(c, calls + [rescue[0]], Succeed(operation), probed);
        assert calls + rescue == calls + [rescue[0]] + [rescue[1]];
      case HalfOpen =>
        var expired := OrZero(b.row.probeStartedAt) + c.probeTimeout;
        ProbeExpires(c, calls, operation, expired);
        CallsSnoc(c, calls, Before(operation), expired);
        OpenCircuitRecovers(c, calls + [rescue[0]], operation, expired + c.recovery);
        CallsSnoc(c, calls + [rescue[0]], Before(operation), expired + c.recovery);
        CallsSnoc(c, calls + [rescue[0]] + [rescue[1]], Succeed(operation), expired + c.recovery);
        assert calls + rescue == calls + [rescue[0]] + [rescue[1]] + [rescue[2]];
    }
  }

  // ---------------------------------------------------------------- pacing

  /** A probe is admitted a full recovery time after the event that opened the circuit. */
  predicate Cooled(c: Settings, log: seq<CircuitEvent>) {
    forall i | 1 <= i < |log| && log[i].kind.ProbeAdmitted? :: log[i].at - log[i - 1].at >= c.recovery
  }

  predicate Chronological(log: seq<CircuitEvent>) {
    forall i | 1 <= i < |log| :: log[i - 1].at <= log[i].at
  }

  function Probes(log: seq<CircuitEvent>): nat {
    if log == [] then 0
    else Probes(log[..|log| - 1]) + if log[|log| - 1].kind.ProbeAdmitted? then 1 else 0
  }

  /** While OPEN, the opening time is the time of the last event. */
  predicate OpenedLast(b: Circuit) {
    b.row.phase.Open? ==> b.log != [] && b.row.openedAt == Some(b.log[|b.log| - 1].at)
  }

  lemma ProbeCools(c: Settings, b: Circuit, call: Call, now: real)
    requires ValidSettings(c) && RowOk(c, b.row) && OpenedLast(b)
    ensures OpenedLast(Apply(c, b, call, now))
    ensures var b' := Apply(c, b, call, now);
      |b.log| < |b'.log| && b'.log[|b.log|].kind.ProbeAdmitted? ==>
        b.log != [] && b'.log[|b.log|].at - b.log[|b.log| - 1].at >= c.recovery
  {
  }

  lemma {:induction false} ProbesCool(c: Settings, calls: seq<(Call, real)>)
    requires ValidSettings(c)
    ensures Cooled(c, Calls(c, calls).log) && OpenedLast(Calls(c, calls))
  {
    hide Apply, OpenedLast;
    if calls != [] {
      var n := |calls| - 1;
      ProbesCool(c, calls[..n]);
      LogIsFaithful(c, calls[..n]);
      var b, b' := Calls(c, calls[..n]), Calls(c, calls);
      ApplyLogs(c, b, calls[n].0, calls[n].1);
      ProbeCools(c, b, calls[n].0, calls[n].1);
      forall i | 1 <= i < |b'.log| && b'.log[i].kind.ProbeAdmitted?
        ensures b'.log[i].at - b'.log[i - 1].at >= c.recovery
      {
        if i < |b.log| {
          assert b'.log[i] == b.log[i] && b'.log[i - 1] == b.log[i - 1];
        }
      }
    } else {
      StartsCool(c);
    }
  }

  lemma StartsCool(c: Settings)
    ensures OpenedLast(Calls(c, []))
  {
  }

  /** `k` recovery times. */
  function Recoveries(c: Settings, k: int): real {
    k as real * c.recovery
  }

  lemma RecoveriesStep(c: Settings, k: int)
    ensures Recoveries(c, k + 1) == Recoveries(c, k) + c.recovery
  {
  }

  lemma {:induction false} CooledSpan(c: Settings, log: seq<CircuitEvent>, i: nat, j: nat)
    requires ValidSettings(c) && i <= j < |log| && Cooled(c, log) && Chronological(log)
    ensures log[j].at - log[i].at >= Recoveries(c, Probes(log[i + 1..j + 1]))
    decreases j
  {
    hide Recoveries;
    if i < j {
      CooledSpan(c, log, i, j - 1);
      var span := log[i + 1..j + 1];
      assert span[..j - i - 1] == log[i + 1..j] && span[j - i - 1] == log[j];
      RecoveriesStep(c, Probes(log[i + 1..j]));
    } else {
      NoRecoveries(c);
    }
  }

  lemma NoRecoveries(c: Settings)
    ensures Recoveries(c, 0) == 0.0
  {
  }

  /**
   However many processes share the circuit, `k` admitted probes span at least `k - 1` recovery
   times on a clock that does not run backwards, whatever closed or failed in between.
   */
  lemma ProbesArePaced(c: Settings, calls: seq<(Call, real)>, i: nat, j: nat)
    requires ValidSettings(c)
    requires forall m, n | 0 <= m < n < |calls| :: calls[m].1 <= calls[n].1
    requires i <= j < |Calls(c, calls).log| && Calls(c, calls).log[i].kind.ProbeAdmitted?
    ensures var log := Calls(c, calls).log;
            log[j].at - log[i].at >= Recoveries(c, Probes(log[i..j + 1]) - 1)
  {
    hide Recoveries;
    var log := Calls(c, calls).log;
    ProbesCool(c, calls);
    ClockOrdersLog(c, calls);
    CooledSpan(c, log, i, j);
    ProbesHead(log[i..j + 1]);
    assert log[i..j + 1][1..] == log[i + 1..j + 1];
  }

  lemma {:induction false} ProbesHead(log: seq<CircuitEvent>)
    requires log != []
    ensures Probes(log) == Probes(log[1..]) + if log[0].kind.ProbeAdmitted? then 1 else 0
  {
    if |log| > 1 {
      ProbesHead(log[..|log| - 1]);
      assert log[..|log| - 1][1..] == log[1..][..|log| - 2];
    }
  }

  lemma ChronologicalSnoc(log: seq<CircuitEvent>, e: CircuitEvent)
    requires Chronological(log) && (log != [] ==> log[|log| - 1].at <= e.at)
    ensures Chronological(log + [e])
  {
    var all := log + [e];
    forall i | 1 <= i < |all| ensures all[i - 1].at <= all[i].at {
      assert all[i - 1] == log[i - 1];
      assert i < |log| ==> all[i] == log[i];
    }
  }

  /** A clock that does not run backwards across calls gives a chronological log. */
  lemma {:induction false} ClockOrdersLog(c: Settings, calls: seq<(Call, real)>)
    requires ValidSettings(c)
    requires forall i, j | 0 <= i < j < |calls| :: calls[i].1 <= calls[j].1
    ensures Chronological(Calls(c, calls).log)
    ensures calls != [] && Calls(c, calls).log != [] ==>
      Calls(c, calls).log[|Calls(c, calls).log| - 1].at <= calls[|calls| - 1].1
  {
    hide Apply, Chronological;
    if calls != [] {
      var n := |calls| - 1;
      ClockOrdersLog(c, calls[..n]);
      var b := Calls(c, calls[..n]);
      LogIsFaithful(c, calls[..n]);
      ApplyLogs(c, b, calls[n].0, calls[n].1);
      if b.log != [] && n > 0 {
        assert b.log[|b.log| - 1].at <= calls[..n][n - 1].1 <= calls[n].1;
      }
      if e :| Calls(c, calls).log == b.log + [e] && e.at == calls[n].1 {
        ChronologicalSnoc(b.log, e);
      }
    } else {
      NoCalls(c);
    }
  }

  lemma NoCalls(c: Settings)
    ensures Calls(c, []).log == [] && Chronological([])
  {
  }

  // ---------------------------------------------------------------- the object

  class Breaker {
    const settings: Settings
    var phase: Phase
    var failures: nat
    var openedAt: Option<real>
    var probe: Option<string>
    var probeStartedAt: Option<real>
    var log: seq<CircuitEvent>

    constructor (settings: Settings)
      ensures this.settings == settings && Model() == Circuit(INITIAL, [])
    {
      this.settings := settings;
      phase, failures, openedAt, probe, probeStartedAt, log := Closed, 0, None, None, None, [];
    }

    ghost function Model(): Circuit
      reads this
    {
      Circuit(Row(phase, failures, openedAt, probe, probeStartedAt), log)
    }

    /** Admit a call on a closed circuit, or lease the single half-open probe. */
    method BeforeCall(operation: string, now: real) returns (r: Result<(), CircuitError>)
      modifies this
      ensures (Model(), r) == Admission(settings, old(Model()), operation, now)
    {
      if !ValidOperation(operation) {
        return Failure(InvalidOperation);
      }
      if phase.Closed? {
        return Success(());
      }
      if phase.HalfOpen? {
        if now - OrZero(probeStartedAt) >= settings.probeTimeout {
          phase, openedAt, probe, probeStartedAt := Open, Some(now), None, None;
          log := log + [CircuitEvent(ProbeExpired, operation, HalfOpen, Open, now)];
        }
        return Failure(CircuitOpen);
      }
      if now - OrZero(openedAt) < settings.recovery {
        return Failure(CircuitOpen);
      }
      phase, probe, probeStartedAt := HalfOpen, Some(operation), Some(now);
      log := log + [CircuitEvent(ProbeAdmitted, operation, Open, HalfOpen, now)];
      return Success(());
    }

    method RecordSuccess(operation: string, now: real) returns (r: Result<(), CircuitError>)
      modifies this
      ensures (Model(), r) == AfterSuccess(old(Model()), operation, now)
    {
      if !ValidOperation(operation) {
        return Failure(InvalidOperation);
      }
      if phase.HalfOpen? && probe != Some(operation) {
        return Failure(WrongProbe);
      }
      if phase.Open? {
        return Failure(SuccessWhileOpen);
      }
      assert log + [] == log;
      if !phase.Closed? || failures != 0 {
        log := log + [CircuitEvent(CallSucceeded, operation, phase, Closed, now)];
      }
      phase, failures, openedAt, probe, probeStartedAt := Closed, 0, None, None, None;
      return Success(());
    }

    method RecordFailure(operation: string, now: real) returns (r: Result<(), CircuitError>)
      modifies this
      ensures (Model(), r) == AfterFailure(settings, old(Model()), operation, now)
    {
      if !ValidOperation(operation) {
        return Failure(InvalidOperation);
      }
      if phase.Open? {
        return Success(());
      }
      if phase.HalfOpen? && probe != Some(operation) {
        return Failure(WrongProbe);
      }
      var prior := phase;
      failures := failures + 1;
      phase := if prior.HalfOpen? || failures >= settings.threshold then Open else Closed;
      openedAt := if phase.Open? then Some(now) else None;
      probe, probeStartedAt := None, None;
      log := log + [CircuitEvent(CallFailed, operation, prior, phase, now)];
      return Success(());
    }
  }
}
