/**
 The delayed-credit policy memory of `src/learning/policy_store.py`, for one tenant: strategies
 earn their status from independently evaluated outcomes in other task families.  Each operation
 is one transaction together with its outbox row; the key of an outbox row is unique, so an
 operation that would repeat one is rolled back.
 */
module PolicyMemory {
  import opened Wrappers
  import opened WilsonBound

  datatype Status = Candidate | Active | Suspended | Retired
  datatype Evaluator = KnownAnswer | ExpertBlind | TemporalHoldout | Unlisted(name: string)

  datatype Strategy = Strategy(key: string, sourceJob: string, sourceFamily: string, status: Status)
  datatype Application = Application(
    strategyId: string, targetJob: string, targetFamily: string, queryHash: string, key: string)
  datatype Outcome = Outcome(
    evaluator: Evaluator, success: bool, falseGapAvoided: bool, delta: real, calls: int, tokens: int,
    evidence: string)

  /** The content that the idempotency key of a status change is a digest of. */
  datatype Move = Move(id: string, from: Status, to: Status, evaluations: nat, successes: nat, lower: real)

  /** The key of an outbox row. */
  datatype NoticeKey =
    | Proposed(strategyId: string)
    | Recorded(applicationId: string)
    | Credited(applicationId: string)
    | Changed(move: Move)

  datatype Memory = Memory(
    strategies: map<string, Strategy>, applications: map<string, Application>,
    outcomes: map<string, Outcome>, outbox: seq<NoticeKey>)

  datatype PolicyError =
    | InvalidInput | IdTaken | UnknownStrategy | RetiredStrategy | UnknownApplication
    | CreditConflict | NoticeRepeated | InvalidThresholds

  type Bound = (nat, nat) -> real

  /** The thresholds of `refresh_statuses`, and the rounded lower bound of successes among evaluations. */
  datatype Rule = Rule(minEvaluations: int, activation: real, suspension: real, bound: Bound)

  /** The bound that the code uses: Wilson's, over a given square root, as it is rounded. */
  function WilsonRule(minEvaluations: int, activation: real, suspension: real,
                      root: real -> real, round: real -> real): Rule {
    Rule(minEvaluations, activation, suspension, (successes: nat, evaluations: nat) => round(Wilson(root, Z, successes, evaluations)))
  }

  const EMPTY := Memory(map[], map[], map[], [])

  predicate ValidRule(rule: Rule) {
    rule.minEvaluations >= 1 && 0.0 <= rule.suspension <= rule.activation <= 1.0
  }

  // ---------------------------------------------------------------- scores

  /** The outcomes that count for a strategy: those of its applications to other task families. */
  function Credits(m: Memory, id: string): set<string> {
    set a | a in m.outcomes && a in m.applications && m.applications[a].strategyId == id
            && id in m.strategies && m.applications[a].targetFamily != m.strategies[id].sourceFamily
  }

  function Wins(m: Memory, id: string): set<string> {
    set a | a in Credits(m, id) && m.outcomes[a].success
  }

  function Target(rule: Rule, evaluations: nat, successes: nat): Status {
    if evaluations < rule.minEvaluations then Candidate
    else if rule.bound(successes, evaluations) >= rule.activation then Active
    else if rule.bound(successes, evaluations) < rule.suspension then Suspended
    else Candidate
  }

  function TargetOf(m: Memory, rule: Rule, id: string): Status {
    Target(rule, |Credits(m, id)|, |Wins(m, id)|)
  }

  // ---------------------------------------------------------------- the operations

  /** Insert one outbox row, or roll the transaction back. */
  function Noted(m: Memory, key: NoticeKey): Result<Memory, PolicyError> {
    if key in m.outbox then Failure(NoticeRepeated) else Success(m.(outbox := m.outbox + [key]))
  }

  predicate KeyKnown(m: Memory, key: string) {
    exists s | s in m.strategies :: m.strategies[s].key == key
  }

  /** `propose_strategy`; `key` is the digest of kind and normalised pattern. */
  function AfterProposal(m: Memory, id: string, kindAllowed: bool, key: string, pattern: string,
                         sourceJob: string, sourceFamily: string): Result<Memory, PolicyError>
  {
    if !kindAllowed || Blank(pattern) || Blank(sourceJob) || Blank(sourceFamily) then Failure(InvalidInput)
    else if KeyKnown(m, key) then Success(m)
    else if id in m.strategies then Failure(IdTaken)
    else
      var s := Strategy(key, sourceJob, sourceFamily, Candidate);
      Noted(m.(strategies := m.strategies[id := s]), Proposed(id))
  }

  predicate AppliedAs(m: Memory, key: string, a: string) {
    a in m.applications && m.applications[a].key == key
  }

  /** `record_application` of the rendered `query`, whose digest is in `app`. */
  function AfterApplication(m: Memory, id: string, app: Application, query: string): Result<Memory, PolicyError> {
    if app.strategyId !in m.strategies then Failure(UnknownStrategy)
    else if m.strategies[app.strategyId].status.Retired? then Failure(RetiredStrategy)
    else if Blank(app.targetJob) || Blank(app.targetFamily) || Blank(query) then Failure(InvalidInput)
    else if exists a | a in m.applications :: AppliedAs(m, app.key, a) then
      if exists a | a in m.applications :: AppliedAs(m, app.key, a) && m.applications[a] != app
      then Failure(CreditConflict) else Success(m)
    else if id in m.applications then Failure(IdTaken)
    else Noted(m.(applications := m.applications[id := app]), Recorded(id))
  }

  /** `record_outcome`. */
  function AfterOutcome(m: Memory, id: string, outcome: Outcome): Result<Memory, PolicyError> {
    if outcome.evaluator.Unlisted? || outcome.calls < 0 || outcome.tokens < 0 || Blank(outcome.evidence) then
      Failure(InvalidInput)
    else if id !in m.applications then Failure(UnknownApplication)
    else if id in m.outcomes then
      if m.outcomes[id] != outcome then Failure(CreditConflict) else Success(m)
    else Noted(m.(outcomes := m.outcomes[id := outcome]), Credited(id))
  }

  predicate Moves(m: Memory, rule: Rule, id: string) {
    id in m.strategies && !m.strategies[id].status.Retired? && TargetOf(m, rule, id) != m.strategies[id].status
  }

  function MoveOf(m: Memory, rule: Rule, id: string): Move
    requires id in m.strategies
  {
    var e, w := |Credits(m, id)|, |Wins(m, id)|;
    Move(id, m.strategies[id].status, TargetOf(m, rule, id), e, w, rule.bound(w, e))
  }

  /** The moves of a refresh over `order`, every score being read before the first update. */
  function MovesOver(m: Memory, rule: Rule, order: seq<string>): seq<NoticeKey> {
    if order == [] then []
    else
      var n := |order| - 1;
      MovesOver(m, rule, order[..n])
      + if Moves(m, rule, order[n]) then [Changed(MoveOf(m, rule, order[n]))] else []
  }

  function Restated(m: Memory, rule: Rule, some: set<string>): map<string, Strategy> {
    map id | id in m.strategies ::
      if id in some && !m.strategies[id].status.Retired?
      then m.strategies[id].(status := TargetOf(m, rule, id)) else m.strategies[id]
  }

  predicate Repeats(outbox: seq<NoticeKey>, more: seq<NoticeKey>) {
    exists k :: 0 <= k < |more| && more[k] in outbox
  }

  /** `refresh_statuses`; `order` lists the strategies as the query does. */
  function AfterRefresh(m: Memory, rule: Rule, order: seq<string>): Result<Memory, PolicyError> {
    if !ValidRule(rule) then Failure(InvalidThresholds)
    else if Repeats(m.outbox, MovesOver(m, rule, order)) then Failure(NoticeRepeated)
    else Success(m.(strategies := Restated(m, rule, m.strategies.Keys), outbox := m.outbox + MovesOver(m, rule, order)))
  }

  ghost predicate Enumerates(order: seq<string>, keys: set<string>) {
    (forall id :: id in order <==> id in keys) && forall i, j | 0 <= i < j < |order| :: order[i] != order[j]
  }

  // ---------------------------------------------------------------- status follows credit

  lemma SameCredits(m: Memory, n: Memory, id: string)
    requires m.applications == n.applications && m.outcomes == n.outcomes
    requires id in m.strategies <==> id in n.strategies
    requires id in m.strategies ==> m.strategies[id].sourceFamily == n.strategies[id].sourceFamily
    ensures Credits(m, id) == Credits(n, id) && Wins(m, id) == Wins(n, id)
  {
  }

  /** After a refresh the status of a strategy is a function of its cross-family outcomes alone. */
  lemma StatusFollowsCredit(m: Memory, rule: Rule, order: seq<string>, id: string)
    requires AfterRefresh(m, rule, order).Success? && id in m.strategies && !m.strategies[id].status.Retired?
    ensures var n := AfterRefresh(m, rule, order).value;
      && id in n.strategies
      && n.strategies[id].status == TargetOf(n, rule, id) == TargetOf(m, rule, id)
      && Credits(n, id) == Credits(m, id)
      && (n.strategies[id].status.Active? <==>
            |Credits(m, id)| >= rule.minEvaluations && rule.bound(|Wins(m, id)|, |Credits(m, id)|) >= rule.activation)
      && (n.strategies[id].status.Suspended? <==>
            |Credits(m, id)| >= rule.minEvaluations && rule.bound(|Wins(m, id)|, |Credits(m, id)|) < rule.suspension)
      && !n.strategies[id].status.Retired?
  {
    hide MovesOver, Repeats, Credits, Wins;
    SameCredits(m, AfterRefresh(m, rule, order).value, id);
  }

  lemma {:induction false} NothingMoves(m: Memory, rule: Rule, order: seq<string>)
    requires forall id | id in order :: !Moves(m, rule, id)
    ensures MovesOver(m, rule, order) == []
  {
    hide Moves, MoveOf;
    if order != [] {
      NothingMoves(m, rule, order[..|order| - 1]);
    }
  }

  /** A second refresh with the same thresholds changes no row and enqueues nothing. */
  lemma RefreshIsIdempotent(m: Memory, rule: Rule, order: seq<string>, again: seq<string>)
    requires AfterRefresh(m, rule, order).Success?
    ensures var n := AfterRefresh(m, rule, order).value; AfterRefresh(n, rule, again) == Success(n)
  {
    hide Credits, Wins, Target, MovesOver, Repeats;
    var n := AfterRefresh(m, rule, order).value;
    forall id | id in n.strategies && !n.strategies[id].status.Retired?
      ensures n.strategies[id].status == TargetOf(n, rule, id)
    {
      StatusFollowsCredit(m, rule, order, id);
    }
    NothingMoves(n, rule, again);
    NoRepeat(n.outbox);
    assert Restated(n, rule, n.strategies.Keys) == n.strategies;
    assert n.outbox + [] == n.outbox;
  }

  lemma NoRepeat(outbox: seq<NoticeKey>)
    ensures !Repeats(outbox, [])
  {
  }

  // ---------------------------------------------------------------- promotion is monotone

  ghost predicate GrowingRule(rule: Rule) {
    forall s: nat, t: nat, n: nat | s <= t <= n :: rule.bound(s, n) <= rule.bound(t, n)
  }

  function Standing(status: Status): int {
    match status
    case Active => 2
    case Candidate => 1
    case _ => 0
  }

  /** With as many evaluations, more successes never demote a strategy. */
  lemma MoreSuccessesNeverDemote(rule: Rule, evaluations: nat, successes: nat, more: nat)
    requires ValidRule(rule) && GrowingRule(rule) && successes <= more <= evaluations
    ensures Standing(Target(rule, evaluations, successes)) <= Standing(Target(rule, evaluations, more))
  {
    assert rule.bound(successes, evaluations) <= rule.bound(more, evaluations);
  }

  /** The rule of the code is such a rule, for any monotone rounding. */
  lemma WilsonRuleGrows(minEvaluations: int, activation: real, suspension: real, root: real -> real, round: real -> real)
    requires IsRoot(root) && forall x, y | x <= y :: round(x) <= round(y)
    ensures GrowingRule(WilsonRule(minEvaluations, activation, suspension, root, round))
  {
    hide Wilson;
    var rule := WilsonRule(minEvaluations, activation, suspension, root, round);
    forall s: nat, t: nat, n: nat | s <= t <= n
      ensures rule.bound(s, n) <= rule.bound(t, n)
    {
      if n > 0 {
        WilsonGrows(root, Z, s, t, n);
      }
    }
  }

  // ---------------------------------------------------------------- credit only grows

  /** Outcomes are never taken back or rewritten, so evaluations of a strategy never decrease. */
  lemma OutcomeGrowsCredit(m: Memory, app: string, outcome: Outcome, id: string)
    requires AfterOutcome(m, app, outcome).Success?
    ensures var n := AfterOutcome(m, app, outcome).value;
      && (forall a | a in m.outcomes :: a in n.outcomes && n.outcomes[a] == m.outcomes[a])
      && Credits(m, id) <= Credits(n, id) <= Credits(m, id) + {app}
      && (Credits(n, id) == Credits(m, id) ==> Wins(n, id) == Wins(m, id))
  {
    hide Blank;
    var n := AfterOutcome(m, app, outcome).value;
    if n != m && Credits(n, id) == Credits(m, id) {
      assert app !in Credits(m, id);
      assert Wins(n, id) == Wins(m, id);
    }
  }

  /** Self-approval earns nothing: an outcome in the strategy's own task family moves no score. */
  lemma OwnFamilyEarnsNothing(m: Memory, app: string, outcome: Outcome, rule: Rule, id: string)
    requires AfterOutcome(m, app, outcome).Success?
    requires app in m.applications
    requires m.applications[app].strategyId == id ==>
               id in m.strategies && m.applications[app].targetFamily == m.strategies[id].sourceFamily
    ensures TargetOf(AfterOutcome(m, app, outcome).value, rule, id) == TargetOf(m, rule, id)
  {
    hide Blank, Target;
    var n := AfterOutcome(m, app, outcome).value;
    assert Credits(n, id) == Credits(m, id);
    assert Wins(n, id) == Wins(m, id);
  }

  /** The outcome is the first of `app`, an application of `id` in another task family. */
  ghost predicate EarnsCredit(m: Memory, app: string, id: string) {
    && app !in m.outcomes && app in m.applications && m.applications[app].strategyId == id
    && id in m.strategies && m.applications[app].targetFamily != m.strategies[id].sourceFamily
  }

  /** What an outcome does to a score: one more evaluation, and one more success if it was one. */
  lemma OutcomeScores(m: Memory, app: string, outcome: Outcome, id: string)
    requires AfterOutcome(m, app, outcome).Success?
    ensures var n := AfterOutcome(m, app, outcome).value;
      && |Credits(n, id)| == |Credits(m, id)| + (if EarnsCredit(m, app, id) then 1 else 0)
      && |Wins(n, id)| == |Wins(m, id)| + (if EarnsCredit(m, app, id) && outcome.success then 1 else 0)
  {
    hide Blank;
    var n := AfterOutcome(m, app, outcome).value;
    if app !in m.outcomes {
      var added := if EarnsCredit(m, app, id) then {app} else {};
      CreditsAfter(m, n, app, outcome, id, added);
      assert app !in Credits(m, id) && app !in Wins(m, id);
    }
  }

  lemma CreditsAfter(m: Memory, n: Memory, app: string, outcome: Outcome, id: string, added: set<string>)
    requires n.strategies == m.strategies && n.applications == m.applications && n.outcomes == m.outcomes[app := outcome]
    requires app !in m.outcomes && added == if EarnsCredit(m, app, id) then {app} else {}
    ensures Credits(n, id) == Credits(m, id) + added
    ensures Wins(n, id) == Wins(m, id) + if outcome.success then added else {}
  {
  }

  /**
   A strategy none of whose counted applications succeeded is never promoted by the rule of the code,
   and is suspended once it was evaluated often enough.
   */
  lemma FailuresAreSuspended(m: Memory, minEvaluations: int, activation: real, suspension: real, root: real -> real,
                             round: real -> real, order: seq<string>, id: string)
    requires IsRoot(root) && round(0.0) == 0.0
    requires id in m.strategies && !m.strategies[id].status.Retired?
    requires forall a | a in m.outcomes && a in m.applications && m.applications[a].strategyId == id
                        && m.applications[a].targetFamily != m.strategies[id].sourceFamily :: !m.outcomes[a].success
    requires AfterRefresh(m, WilsonRule(minEvaluations, activation, suspension, root, round), order).Success?
    ensures var n := AfterRefresh(m, WilsonRule(minEvaluations, activation, suspension, root, round), order).value;
      && id in n.strategies
      && (activation > 0.0 ==> !n.strategies[id].status.Active?)
      && (suspension > 0.0 ==>
            (n.strategies[id].status.Suspended? <==> |Credits(m, id)| >= minEvaluations))
  {
    var rule := WilsonRule(minEvaluations, activation, suspension, root, round);
    assert Wins(m, id) == {};
    NoneSucceeded(root, |Credits(m, id)|);
    assert rule.bound(0, |Credits(m, id)|) == 0.0;
    hide AfterRefresh, Credits, Wins, Wilson;
    StatusFollowsCredit(m, rule, order, id);
  }

  lemma NoneSucceeded(root: real -> real, trials: nat)
    requires IsRoot(root)
    ensures Wilson(root, Z, 0, trials) == 0.0
  {
    if trials > 0 {
      hide Wilson;
      WilsonBounds(root, Z, 0, trials);
    }
  }

  // ---------------------------------------------------------------- whole runs

  datatype Action =
    | Propose(id: string, kindAllowed: bool, key: string, pattern: string, sourceJob: string, sourceFamily: string)
    | Apply(id: string, app: Application, query: string)
    | Record(id: string, outcome: Outcome)
    | Refresh(minEvaluations: int, activation: real, suspension: real, order: seq<string>)

  /** The thresholds of one refresh, with the bound that the code has. */
  function RuleOf(bound: Bound, a: Action): Rule
    requires a.Refresh?
  {
    Rule(a.minEvaluations, a.activation, a.suspension, bound)
  }

  function Attempt(m: Memory, bound: Bound, a: Action): Result<Memory, PolicyError> {
    match a
    case Propose(id, kindAllowed, key, pattern, sourceJob, sourceFamily) =>
      AfterProposal(m, id, kindAllowed, key, pattern, sourceJob, sourceFamily)
    case Apply(id, app, query) => AfterApplication(m, id, app, query)
    case Record(id, outcome) => AfterOutcome(m, id, outcome)
    case Refresh(_, _, _, order) => AfterRefresh(m, RuleOf(bound, a), order)
  }

  /** A refused operation is rolled back. */
  function Do(m: Memory, bound: Bound, a: Action): Memory {
    var r := Attempt(m, bound, a);
    if r.Success? then r.value else m
  }

  function Run(m: Memory, bound: Bound, actions: seq<Action>): Memory {
    if actions == [] then m else Do(Run(m, bound, actions[..|actions| - 1]), bound, actions[|actions| - 1])
  }

  /** Every refresh has the thresholds of `fixed`, if there is such a rule. */
  predicate Keeps(fixed: Option<Rule>, a: Action) {
    a.Refresh? && fixed.Some? ==>
      a.minEvaluations == fixed.value.minEvaluations && a.activation == fixed.value.activation
      && a.suspension == fixed.value.suspension
  }

  /**
   A recorded move belongs to the past: it was made on no more evaluations than there are now, and under
   fixed thresholds on fewer or towards the status held now.
   */
  ghost predicate Past(m: Memory, bound: Bound, fixed: Option<Rule>, v: Move) {
    && v.id in m.strategies
    && v.evaluations <= |Credits(m, v.id)|
    && v.lower == bound(v.successes, v.evaluations)
    && (fixed.Some? && v.evaluations == |Credits(m, v.id)| && !m.strategies[v.id].status.Retired? ==>
          m.strategies[v.id].status == TargetOf(m, fixed.value, v.id))
  }

  ghost predicate Founded(m: Memory, key: NoticeKey) {
    match key
    case Proposed(id) => id in m.strategies
    case Recorded(a) => a in m.applications
    case Credited(a) => a in m.outcomes
    case Changed(_) => true
  }

  ghost predicate Inv(m: Memory, bound: Bound, fixed: Option<Rule>) {
    && (forall a | a in m.applications :: m.applications[a].strategyId in m.strategies)
    && (forall k | k in m.outbox :: Founded(m, k))
    && (forall k | k in m.outbox && k.Changed? :: Past(m, bound, fixed, k.move))
  }

  /** Growth of one strategy's record that keeps a past move in the past. */
  lemma PastStands(m: Memory, n: Memory, bound: Bound, fixed: Option<Rule>, v: Move)
    requires Past(m, bound, fixed, v)
    requires v.id in n.strategies && n.strategies[v.id] == m.strategies[v.id]
    requires Credits(m, v.id) <= Credits(n, v.id)
    requires Credits(n, v.id) == Credits(m, v.id) ==> Wins(n, v.id) == Wins(m, v.id)
    ensures Past(n, bound, fixed, v)
  {
    hide Credits, Wins, Target;
    SubsetSize(Credits(m, v.id), Credits(n, v.id));
  }

  lemma SubsetSize(a: set<string>, b: set<string>)
    requires a <= b
    ensures |a| <= |b|
    ensures |a| == |b| ==> a == b
  {
    var extra := b - a;
    assert b == a + extra;
    assert |b| == |a| + |extra|;
  }

  lemma ProposalKeeps(m: Memory, bound: Bound, fixed: Option<Rule>, a: Action)
    requires Inv(m, bound, fixed) && a.Propose?
    ensures Inv(Do(m, bound, a), bound, fixed)
  {
    hide Blank, KeyKnown, Past, Target;
    var n := Do(m, bound, a);
    if n != m {
      assert Proposed(a.id) !in m.outbox;
      forall k | k in n.outbox && k.Changed?
        ensures Past(n, bound, fixed, k.move)
      {
        assert k in m.outbox;
        assert k.move.id in m.strategies by { PastKnown(m, bound, fixed, k.move); }
        SameCredits(m, n, k.move.id);
        PastStands(m, n, bound, fixed, k.move);
      }
    }
  }

  lemma PastKnown(m: Memory, bound: Bound, fixed: Option<Rule>, v: Move)
    requires Past(m, bound, fixed, v)
    ensures v.id in m.strategies
  {
  }

  lemma ApplicationKeeps(m: Memory, bound: Bound, fixed: Option<Rule>, a: Action)
    requires Inv(m, bound, fixed) && a.Apply?
    ensures Inv(Do(m, bound, a), bound, fixed)
  {
    hide Blank, AppliedAs, Past, Target;
    var n := Do(m, bound, a);
    if n != m {
      forall k | k in n.outbox && k.Changed?
        ensures Past(n, bound, fixed, k.move)
      {
        assert k in m.outbox;
        PastKnown(m, bound, fixed, k.move);
        assert Credits(m, k.move.id) <= Credits(n, k.move.id);
        if Credits(n, k.move.id) == Credits(m, k.move.id) {
          SameWins(m, n, k.move.id);
        }
        PastStands(m, n, bound, fixed, k.move);
      }
    }
  }

  lemma SameWins(m: Memory, n: Memory, id: string)
    requires Credits(n, id) == Credits(m, id) && m.outcomes == n.outcomes
    ensures Wins(n, id) == Wins(m, id)
  {
  }

  lemma OutcomeKeeps(m: Memory, bound: Bound, fixed: Option<Rule>, a: Action)
    requires Inv(m, bound, fixed) && a.Record?
    ensures Inv(Do(m, bound, a), bound, fixed)
  {
    hide Blank, Past, Target, Credits, Wins;
    var n := Do(m, bound, a);
    if n != m {
      forall k | k in n.outbox && k.Changed?
        ensures Past(n, bound, fixed, k.move)
      {
        assert k in m.outbox;
        PastKnown(m, bound, fixed, k.move);
        OutcomeGrowsCredit(m, a.id, a.outcome, k.move.id);
        PastStands(m, n, bound, fixed, k.move);
      }
    }
  }

  lemma {:induction false} MovesOverAre(m: Memory, rule: Rule, order: seq<string>, k: NoticeKey)
    requires k in MovesOver(m, rule, order)
    ensures k.Changed? && Moves(m, rule, k.move.id) && k.move == MoveOf(m, rule, k.move.id)
  {
    hide Moves, TargetOf, Credits, Wins;
    var n := |order| - 1;
    if k in MovesOver(m, rule, order[..n]) {
      MovesOverAre(m, rule, order[..n], k);
    } else {
      assert Moves(m, rule, order[n]) by { MovesKnown(m, rule, order[n]); }
    }
  }

  lemma MovesKnown(m: Memory, rule: Rule, id: string)
    ensures Moves(m, rule, id) ==> id in m.strategies
  {
  }

  /** Under fixed thresholds no move repeats an earlier one: the earlier one is past, this one is due. */
  lemma DueMovesAreNew(m: Memory, rule: Rule, order: seq<string>)
    requires Inv(m, rule.bound, Some(rule))
    ensures !Repeats(m.outbox, MovesOver(m, rule, order))
  {
    hide MovesOver, Credits, Wins, Target;
    var more := MovesOver(m, rule, order);
    forall k | 0 <= k < |more|
      ensures more[k] !in m.outbox
    {
      MovesOverAre(m, rule, order, more[k]);
      assert more[k] in m.outbox ==> Past(m, rule.bound, Some(rule), more[k].move);
    }
  }

  lemma RefreshKeeps(m: Memory, bound: Bound, fixed: Option<Rule>, a: Action)
    requires Inv(m, bound, fixed) && a.Refresh? && Keeps(fixed, a) && (fixed.Some? ==> fixed.value.bound == bound)
    ensures Inv(Do(m, bound, a), bound, fixed)
  {
    hide MovesOver, Repeats, Past, Credits, Wins, Target;
    var n, rule := Do(m, bound, a), RuleOf(bound, a);
    if Attempt(m, bound, a).Success? {
      forall k | k in n.outbox && k.Changed?
        ensures Past(n, bound, fixed, k.move)
      {
        RefreshedPast(m, bound, fixed, rule, a.order, k);
      }
      forall k | k in n.outbox
        ensures Founded(n, k)
      {
        if k !in m.outbox {
          MovesOverAre(m, rule, a.order, k);
        }
      }
    }
  }

  lemma RefreshedPast(m: Memory, bound: Bound, fixed: Option<Rule>, rule: Rule, order: seq<string>, k: NoticeKey)
    requires Inv(m, bound, fixed) && rule.bound == bound && (fixed.None? || fixed.value == rule)
    requires AfterRefresh(m, rule, order).Success?
    requires k in AfterRefresh(m, rule, order).value.outbox && k.Changed?
    ensures Past(AfterRefresh(m, rule, order).value, bound, fixed, k.move)
  {
    hide MovesOver, Repeats, Credits, Wins, Target;
    var n := AfterRefresh(m, rule, order).value;
    var id := k.move.id;
    if k !in m.outbox {
      MovesOverAre(m, rule, order, k);
    } else {
      assert Past(m, bound, fixed, k.move);
    }
    SameCredits(m, n, id);
    if !m.strategies[id].status.Retired? {
      StatusFollowsCredit(m, rule, order, id);
    }
  }

  lemma {:induction false} RunKeeps(m: Memory, bound: Bound, fixed: Option<Rule>, actions: seq<Action>)
    requires Inv(m, bound, fixed) && (fixed.Some? ==> fixed.value.bound == bound)
    requires forall a | a in actions :: Keeps(fixed, a)
    ensures Inv(Run(m, bound, actions), bound, fixed)
  {
    hide Inv, Do, Keeps;
    if actions != [] {
      var before, a := Run(m, bound, actions[..|actions| - 1]), actions[|actions| - 1];
      assert a in actions;
      RunKeeps(m, bound, fixed, actions[..|actions| - 1]);
      match a {
        case Propose(_, _, _, _, _, _) => ProposalKeeps(before, bound, fixed, a);
        case Apply(_, _, _) => ApplicationKeeps(before, bound, fixed, a);
        case Record(_, _) => OutcomeKeeps(before, bound, fixed, a);
        case Refresh(_, _, _, _) => RefreshKeeps(before, bound, fixed, a);
      }
    }
  }

  /** As long as the thresholds stay the same no refresh of a run is rolled back for repeating an outbox key. */
  lemma FixedThresholdsNeverJam(rule: Rule, actions: seq<Action>, order: seq<string>)
    requires ValidRule(rule) && forall a | a in actions :: Keeps(Some(rule), a)
    ensures AfterRefresh(Run(EMPTY, rule.bound, actions), rule, order).Success?
  {
    hide Inv, Repeats, MovesOver, Run, Keeps;
    assert Inv(EMPTY, rule.bound, Some(rule)) by { EmptyInv(rule.bound, Some(rule)); }
    RunKeeps(EMPTY, rule.bound, Some(rule), actions);
    DueMovesAreNew(Run(EMPTY, rule.bound, actions), rule, order);
  }

  lemma EmptyInv(bound: Bound, fixed: Option<Rule>)
    ensures Inv(EMPTY, bound, fixed)
  {
  }

  // ---------------------------------------------------------------- every key once

  predicate Unrepeated(keys: seq<NoticeKey>) {
    forall i, j | 0 <= i < j < |keys| :: keys[i] != keys[j]
  }

  predicate ListsOnce(order: seq<string>) {
    forall i, j | 0 <= i < j < |order| :: order[i] != order[j]
  }

  lemma {:induction false} MovesOverOnce(m: Memory, rule: Rule, order: seq<string>)
    requires ListsOnce(order)
    ensures Unrepeated(MovesOver(m, rule, order))
  {
    hide Moves, MoveOf;
    if order != [] {
      var n := |order| - 1;
      MovesOverOnce(m, rule, order[..n]);
      var before, all := MovesOver(m, rule, order[..n]), MovesOver(m, rule, order);
      forall i, j | 0 <= i < j < |all|
        ensures all[i] != all[j]
      {
        if j == |before| {
          MovesWithin(m, rule, order[..n], all[i]);
          IdOfMove(m, rule, order[n]);
        }
      }
    }
  }

  lemma IdOfMove(m: Memory, rule: Rule, id: string)
    requires Moves(m, rule, id)
    ensures MoveOf(m, rule, id).id == id
  {
  }

  lemma UnrepeatedTogether(a: seq<NoticeKey>, b: seq<NoticeKey>)
    requires Unrepeated(a) && Unrepeated(b) && forall k | 0 <= k < |b| :: b[k] !in a
    ensures Unrepeated(a + b)
  {
  }

  /** An operation adds to the outbox, and adds nothing that is there. */
  lemma DoEnqueuesOnce(m: Memory, bound: Bound, a: Action)
    requires Unrepeated(m.outbox) && (a.Refresh? ==> ListsOnce(a.order))
    ensures m.outbox <= Do(m, bound, a).outbox && Unrepeated(Do(m, bound, a).outbox)
  {
    hide Blank, KeyKnown, AppliedAs, MovesOver;
    if a.Refresh? && Attempt(m, bound, a).Success? {
      var rule := RuleOf(bound, a);
      MovesOverOnce(m, rule, a.order);
      UnrepeatedTogether(m.outbox, MovesOver(m, rule, a.order));
    }
  }

  /** In every run no key is enqueued twice, whatever the thresholds. */
  lemma {:induction false} NoticesAreUnique(bound: Bound, actions: seq<Action>)
    requires forall a | a in actions && a.Refresh? :: ListsOnce(a.order)
    ensures Unrepeated(Run(EMPTY, bound, actions).outbox)
  {
    hide Do, Unrepeated, ListsOnce;
    if actions == [] {
      NothingEnqueued();
    } else {
      var n := |actions| - 1;
      NoticesAreUnique(bound, actions[..n]);
      assert actions[n] in actions;
      DoEnqueuesOnce(Run(EMPTY, bound, actions[..n]), bound, actions[n]);
    }
  }

  lemma NothingEnqueued()
    ensures Unrepeated(EMPTY.outbox)
  {
  }

  // ---------------------------------------------------------------- what is on record

  /** Keys identify rows, and every outcome is an independent evaluation of a recorded application. */
  ghost predicate SoundRecord(m: Memory) {
    && (forall s, t | s in m.strategies && t in m.strategies && m.strategies[s].key == m.strategies[t].key :: s == t)
    && (forall a, b | a in m.applications && b in m.applications && m.applications[a].key == m.applications[b].key :: a == b)
    && (forall a | a in m.outcomes ::
          && a in m.applications && m.outcomes[a].evaluator in {KnownAnswer, ExpertBlind, TemporalHoldout}
          && m.outcomes[a].calls >= 0 && m.outcomes[a].tokens >= 0 && !Blank(m.outcomes[a].evidence))
  }

  lemma AppliedKeepsRecord(m: Memory, id: string, app: Application, query: string)
    requires SoundRecord(m) && AfterApplication(m, id, app, query).Success?
    ensures SoundRecord(AfterApplication(m, id, app, query).value)
  {
    hide Blank;
    assert forall b | b in m.applications && !AppliedAs(m, app.key, b) :: m.applications[b].key != app.key;
  }

  lemma RestatedKeepsRecord(m: Memory, rule: Rule, order: seq<string>)
    requires SoundRecord(m) && AfterRefresh(m, rule, order).Success?
    ensures SoundRecord(AfterRefresh(m, rule, order).value)
  {
    hide Blank, MovesOver, Repeats, TargetOf;
  }

  lemma DoKeepsRecord(m: Memory, bound: Bound, a: Action)
    requires SoundRecord(m)
    ensures SoundRecord(Do(m, bound, a))
  {
    hide Blank, AfterApplication, AfterRefresh;
    if Attempt(m, bound, a).Success? {
      match a
      case Apply(id, app, query) => AppliedKeepsRecord(m, id, app, query);
      case Refresh(_, _, _, order) => RestatedKeepsRecord(m, RuleOf(bound, a), order);
      case _ =>
    }
  }

  /** In every run keys are unique and credit comes from the three independent evaluators alone. */
  lemma {:induction false} RecordIsSound(bound: Bound, actions: seq<Action>)
    ensures SoundRecord(Run(EMPTY, bound, actions))
  {
    hide Do, SoundRecord;
    if actions == [] {
      NothingRecorded();
    } else {
      var n := |actions| - 1;
      RecordIsSound(bound, actions[..n]);
      DoKeepsRecord(Run(EMPTY, bound, actions[..n]), bound, actions[n]);
    }
  }

  lemma NothingRecorded()
    ensures SoundRecord(EMPTY)
  {
  }

  /** In every run: which proposals are accepted, and what they leave behind. */
  lemma ProposalIsRecordedExactly(bound: Bound, actions: seq<Action>, id: string, kindAllowed: bool, key: string,
                                  pattern: string, job: string, family: string)
    ensures var m := Run(EMPTY, bound, actions); var r := AfterProposal(m, id, kindAllowed, key, pattern, job, family);
      var known := exists s | s in m.strategies :: m.strategies[s].key == key;
      && (r.Success? <==> kindAllowed && !Blank(pattern) && !Blank(job) && !Blank(family) && (known || id !in m.strategies))
      && (r.Success? && known ==> r.value == m)
      && (r.Success? && !known ==>
            && r.value.strategies == m.strategies[id := Strategy(key, job, family, Candidate)]
            && r.value.applications == m.applications && r.value.outcomes == m.outcomes
            && r.value.outbox == m.outbox + [Proposed(id)])
  {
    hide Run, Blank, Past;
    ReachedInv(bound, actions);
    var m := Run(EMPTY, bound, actions);
    assert Proposed(id) in m.outbox ==> Founded(m, Proposed(id));
  }

  /** In every run: which applications are accepted, and what they leave behind. */
  lemma ApplicationIsRecordedExactly(bound: Bound, actions: seq<Action>, id: string, app: Application, query: string)
    ensures var m := Run(EMPTY, bound, actions); var r := AfterApplication(m, id, app, query);
      var open := app.strategyId in m.strategies && m.strategies[app.strategyId].status != Retired
                  && !Blank(app.targetJob) && !Blank(app.targetFamily) && !Blank(query);
      var used := exists a | a in m.applications :: m.applications[a].key == app.key;
      && (r.Success? <==> open && if used then app in m.applications.Values else id !in m.applications)
      && (r.Success? && used ==> r.value == m)
      && (r.Success? && !used ==>
            && r.value.applications == m.applications[id := app]
            && r.value.strategies == m.strategies && r.value.outcomes == m.outcomes
            && r.value.outbox == m.outbox + [Recorded(id)])
  {
    hide Run, Blank, Past;
    ReachedInv(bound, actions);
    RecordIsSound(bound, actions);
    var m := Run(EMPTY, bound, actions);
    assert Recorded(id) in m.outbox ==> Founded(m, Recorded(id));
    assert (exists a | a in m.applications :: m.applications[a].key == app.key)
       <==> (exists a | a in m.applications :: AppliedAs(m, app.key, a));
  }

  /** In every run: which outcomes are accepted, and what they leave behind. */
  lemma OutcomeIsRecordedExactly(bound: Bound, actions: seq<Action>, app: string, outcome: Outcome)
    ensures var m := Run(EMPTY, bound, actions); var r := AfterOutcome(m, app, outcome);
      && (r.Success? <==>
            && outcome.evaluator in {KnownAnswer, ExpertBlind, TemporalHoldout}
            && outcome.calls >= 0 && outcome.tokens >= 0 && !Blank(outcome.evidence)
            && app in m.applications && (app in m.outcomes ==> m.outcomes[app] == outcome))
      && (r.Success? && app in m.outcomes ==> r.value == m)
      && (r.Success? && app !in m.outcomes ==>
            && r.value.outcomes == m.outcomes[app := outcome]
            && r.value.strategies == m.strategies && r.value.applications == m.applications
            && r.value.outbox == m.outbox + [Credited(app)])
  {
    hide Run, Blank, Past;
    ReachedInv(bound, actions);
    var m := Run(EMPTY, bound, actions);
    assert Credited(app) in m.outbox ==> Founded(m, Credited(app));
  }

  // ---------------------------------------------------------------- changing the thresholds

  /** `k` is the notice of an earlier change of `id` between the same statuses, on the same counts. */
  ghost predicate SameChange(m: Memory, rule: Rule, id: string, k: NoticeKey)
    requires id in m.strategies
  {
    && k.Changed? && k.move.id == id
    && k.move.from == m.strategies[id].status && k.move.to == TargetOf(m, rule, id)
    && k.move.evaluations == |Credits(m, id)| && k.move.successes == |Wins(m, id)|
  }

  /** The strategy is due to move, and has moved like that before. */
  ghost predicate Blocked(m: Memory, rule: Rule, id: string) {
    Moves(m, rule, id) && exists k | k in m.outbox :: SameChange(m, rule, id, k)
  }

  /**
   In every run, with thresholds that vary from refresh to refresh: a refresh is rolled back exactly when
   some strategy that is due to move has made the same move before on the same counts.
   */
  lemma RolledBackExactly(bound: Bound, actions: seq<Action>, rule: Rule, order: seq<string>)
    requires ValidRule(rule) && rule.bound == bound
    requires Enumerates(order, Run(EMPTY, bound, actions).strategies.Keys)
    ensures var m := Run(EMPTY, bound, actions); var r := AfterRefresh(m, rule, order);
      && (r.Failure? <==> exists id | id in m.strategies :: Blocked(m, rule, id))
      && (r.Failure? ==> r == Failure(NoticeRepeated))
  {
    hide Inv, MovesOver, Run, Credits, Wins, Target, Moves;
    var m := Run(EMPTY, bound, actions);
    ReachedInv(bound, actions);
    if Repeats(m.outbox, MovesOver(m, rule, order)) {
      var more := MovesOver(m, rule, order);
      var k :| 0 <= k < |more| && more[k] in m.outbox;
      MovesOverAre(m, rule, order, more[k]);
      MovesKnown(m, rule, more[k].move.id);
      assert SameChange(m, rule, more[k].move.id, more[k]);
      assert Blocked(m, rule, more[k].move.id);
    }
    if id :| id in m.strategies && Blocked(m, rule, id) {
      BlockedRepeats(m, rule, order, id);
    }
  }

  lemma ReachedInv(bound: Bound, actions: seq<Action>)
    ensures Inv(Run(EMPTY, bound, actions), bound, None)
  {
    hide Inv, Run;
    EmptyInv(bound, None);
    RunKeeps(EMPTY, bound, None, actions);
  }

  lemma BlockedRepeats(m: Memory, rule: Rule, order: seq<string>, id: string)
    requires Inv(m, rule.bound, None) && Enumerates(order, m.strategies.Keys)
    requires id in m.strategies && Blocked(m, rule, id)
    ensures Repeats(m.outbox, MovesOver(m, rule, order))
  {
    hide MovesOver, Credits, Wins, Target, Moves, Repeats;
    var k :| k in m.outbox && SameChange(m, rule, id, k);
    assert Past(m, rule.bound, None, k.move);
    assert k == Changed(MoveOf(m, rule, id));
    MoveListed(m, rule, order, id);
    Repeated(m.outbox, MovesOver(m, rule, order), k);
  }

  /** New credit unblocks a strategy, whatever the thresholds: it never was on so many evaluations. */
  lemma NewCreditUnblocks(bound: Bound, actions: seq<Action>, app: string, outcome: Outcome, rule: Rule, id: string)
    requires var m := Run(EMPTY, bound, actions);
      AfterOutcome(m, app, outcome).Success? && Credits(AfterOutcome(m, app, outcome).value, id) != Credits(m, id)
    ensures !Blocked(AfterOutcome(Run(EMPTY, bound, actions), app, outcome).value, rule, id)
  {
    hide Credits, Wins, Target, Moves, Run, Blank;
    var m := Run(EMPTY, bound, actions);
    var n := AfterOutcome(m, app, outcome).value;
    ReachedInv(bound, actions);
    OutcomeGrowsCredit(m, app, outcome, id);
    SubsetSize(Credits(m, id), Credits(n, id));
    MovesKnown(n, rule, id);
    forall k | id in n.strategies && k in n.outbox
      ensures !SameChange(n, rule, id, k)
    {
      if k.Changed? && k.move.id == id {
        assert k in m.outbox;
        assert Past(m, bound, None, k.move);
      }
    }
  }

  /**
   With varying thresholds a refresh can jam: promoted under one rule, demoted under another and
   due for the same promotion again, the strategy repeats the key of its first promotion.
   */
  lemma ChangedThresholdsJam(m: Memory, a: Rule, b: Rule, order: seq<string>, id: string)
    requires ValidRule(a) && ValidRule(b) && Enumerates(order, m.strategies.Keys)
    requires id in m.strategies && m.strategies[id].status.Candidate?
    requires TargetOf(m, a, id).Active? && TargetOf(m, b, id).Candidate?
    requires AfterRefresh(m, a, order).Success?
    requires AfterRefresh(AfterRefresh(m, a, order).value, b, order).Success?
    ensures AfterRefresh(AfterRefresh(AfterRefresh(m, a, order).value, b, order).value, a, order)
         == Failure(NoticeRepeated)
  {
    hide MovesOver, Repeats, Credits, Wins, Target;
    var n := AfterRefresh(m, a, order).value;
    var o := AfterRefresh(n, b, order).value;
    SameCredits(m, n, id);
    SameCredits(n, o, id);
    StatusFollowsCredit(m, a, order, id);
    StatusFollowsCredit(n, b, order, id);
    var key := Changed(MoveOf(m, a, id));
    MoveListed(m, a, order, id);
    MoveListed(o, a, order, id);
    assert MoveOf(o, a, id) == MoveOf(m, a, id);
    assert key in n.outbox && key in o.outbox;
    Repeated(o.outbox, MovesOver(o, a, order), key);
  }

  lemma Repeated(outbox: seq<NoticeKey>, more: seq<NoticeKey>, key: NoticeKey)
    requires key in outbox && key in more
    ensures Repeats(outbox, more)
  {
    var k :| 0 <= k < |more| && more[k] == key;
  }

  lemma {:induction false} MoveListed(m: Memory, rule: Rule, order: seq<string>, id: string)
    requires id in order && Moves(m, rule, id)
    ensures Changed(MoveOf(m, rule, id)) in MovesOver(m, rule, order)
  {
    hide Moves, TargetOf, Credits, Wins;
    MovesKnown(m, rule, id);
    var n := |order| - 1;
    if order[n] != id {
      MoveListed(m, rule, order[..n], id);
    }
  }

  function App(key: string): Application {
    Application("s", "job", "beta", "q", key)
  }

  const WON := Outcome(KnownAnswer, true, true, 1.0, 1, 1, "ref")
  const APPS: map<string, Application> := map["1" := App("k"), "2" := App("l"), "3" := App("n")]
  const LISTED: map<string, Strategy> := map["s" := Strategy("key", "job0", "alpha", Candidate)]

  /** Three successful applications of one strategy in another family. */
  function PromisingRun(): seq<Action> {
    [Propose("s", true, "key", "pattern", "job0", "alpha"),
     Apply("1", App("k"), "query"),
     Apply("2", App("l"), "query"),
     Apply("3", App("n"), "query"),
     Record("1", WON),
     Record("2", WON),
     Record("3", WON)]
  }

  /** The memory it leaves. */
  function Promising(): Memory {
    Memory(LISTED, APPS, map["1" := WON, "2" := WON, "3" := WON],
           [Proposed("s"), Recorded("1"), Recorded("2"), Recorded("3"), Credited("1"), Credited("2"), Credited("3")])
  }

  lemma Listed(bound: Bound)
    ensures Attempt(EMPTY, bound, Propose("s", true, "key", "pattern", "job0", "alpha"))
         == Success(Memory(LISTED, map[], map[],
                       [Proposed("s")]))
  {
    assert "pattern"[0] == 'p' && "job0"[0] == 'j' && "alpha"[0] == 'a';
    var r := Attempt(EMPTY, bound, Propose("s", true, "key", "pattern", "job0", "alpha"));
    assert r.Success? && r.value.strategies == LISTED
           && r.value.outbox == [Proposed("s")];
  }

  lemma FirstApplied(bound: Bound)
    ensures Attempt(Memory(LISTED, map[], map[],
                       [Proposed("s")]), bound, Apply("1", App("k"), "query"))
         == Success(Memory(LISTED, map["1" := App("k")], map[],
                       [Proposed("s"), Recorded("1")]))
  {
    assert "job"[0] == 'j' && "beta"[0] == 'b' && "query"[0] == 'q';
    var r := Attempt(Memory(LISTED, map[], map[],
                       [Proposed("s")]), bound, Apply("1", App("k"), "query"));
    assert r.Success? && r.value.applications == map["1" := App("k")]
           && r.value.outbox == [Proposed("s"), Recorded("1")];
  }

  lemma SecondApplied(bound: Bound)
    ensures Attempt(Memory(LISTED, map["1" := App("k")], map[],
                       [Proposed("s"), Recorded("1")]), bound, Apply("2", App("l"), "query"))
         == Success(Memory(LISTED, map["1" := App("k"), "2" := App("l")], map[],
                       [Proposed("s"), Recorded("1"), Recorded("2")]))
  {
    assert "job"[0] == 'j' && "beta"[0] == 'b' && "query"[0] == 'q';
    assert "k"[0] != "l"[0] && "k"[0] != "n"[0] && "l"[0] != "n"[0];
    assert "1"[0] != "2"[0] && "1"[0] != "3"[0] && "2"[0] != "3"[0];
    var r := Attempt(Memory(LISTED, map["1" := App("k")], map[],
                       [Proposed("s"), Recorded("1")]), bound, Apply("2", App("l"), "query"));
    assert r.Success? && r.value.applications == map["1" := App("k"), "2" := App("l")]
           && r.value.outbox == [Proposed("s"), Recorded("1"), Recorded("2")];
  }

  lemma ThirdApplied(bound: Bound)
    ensures Attempt(Memory(LISTED, map["1" := App("k"), "2" := App("l")], map[],
                       [Proposed("s"), Recorded("1"), Recorded("2")]), bound, Apply("3", App("n"), "query"))
         == Success(Memory(LISTED, APPS, map[],
                       [Proposed("s"), Recorded("1"), Recorded("2"), Recorded("3")]))
  {
    assert "job"[0] == 'j' && "beta"[0] == 'b' && "query"[0] == 'q';
    assert "k"[0] != "l"[0] && "k"[0] != "n"[0] && "l"[0] != "n"[0];
    assert "1"[0] != "2"[0] && "1"[0] != "3"[0] && "2"[0] != "3"[0];
    var r := Attempt(Memory(LISTED, map["1" := App("k"), "2" := App("l")], map[],
                       [Proposed("s"), Recorded("1"), Recorded("2")]), bound, Apply("3", App("n"), "query"));
    assert r.Success? && r.value.applications == APPS
           && r.value.outbox == [Proposed("s"), Recorded("1"), Recorded("2"), Recorded("3")];
  }

  lemma FirstWon(bound: Bound)
    ensures Attempt(Memory(LISTED, APPS, map[],
                       [Proposed("s"), Recorded("1"), Recorded("2"), Recorded("3")]), bound, Record("1", WON))
         == Success(Memory(LISTED, APPS, map["1" := WON],
                       [Proposed("s"), Recorded("1"), Recorded("2"), Recorded("3"), Credited("1")]))
  {
    assert "ref"[0] == 'r';
    var r := Attempt(Memory(LISTED, APPS, map[],
                       [Proposed("s"), Recorded("1"), Recorded("2"), Recorded("3")]), bound, Record("1", WON));
    assert r.Success? && r.value.outcomes == map["1" := WON]
           && r.value.outbox == [Proposed("s"), Recorded("1"), Recorded("2"), Recorded("3"), Credited("1")];
  }

  lemma SecondWon(bound: Bound)
    ensures Attempt(Memory(LISTED, APPS, map["1" := WON],
                       [Proposed("s"), Recorded("1"), Recorded("2"), Recorded("3"), Credited("1")]), bound, Record("2", WON))
         == Success(Memory(LISTED, APPS, map["1" := WON, "2" := WON],
                       [Proposed("s"), Recorded("1"), Recorded("2"), Recorded("3"), Credited("1"), Credited("2")]))
  {
    assert "ref"[0] == 'r';
    assert "1"[0] != "2"[0] && "1"[0] != "3"[0] && "2"[0] != "3"[0];
    var r := Attempt(Memory(LISTED, APPS, map["1" := WON],
                       [Proposed("s"), Recorded("1"), Recorded("2"), Recorded("3"), Credited("1")]), bound, Record("2", WON));
    assert r.Success? && r.value.outcomes == map["1" := WON, "2" := WON]
           && r.value.outbox == [Proposed("s"), Recorded("1"), Recorded("2"), Recorded("3"), Credited("1"), Credited("2")];
  }

  lemma ThirdWon(bound: Bound)
    ensures Attempt(Memory(LISTED, APPS, map["1" := WON, "2" := WON],
                       [Proposed("s"), Recorded("1"), Recorded("2"), Recorded("3"), Credited("1"), Credited("2")]), bound, Record("3", WON))
         == Success(Promising())
  {
    assert "ref"[0] == 'r';
    assert "1"[0] != "2"[0] && "1"[0] != "3"[0] && "2"[0] != "3"[0];
    var r := Attempt(Memory(LISTED, APPS, map["1" := WON, "2" := WON],
                       [Proposed("s"), Recorded("1"), Recorded("2"), Recorded("3"), Credited("1"), Credited("2")]), bound, Record("3", WON));
    assert r.Success? && r.value.outcomes == map["1" := WON, "2" := WON, "3" := WON]
           && r.value.outbox == [Proposed("s"), Recorded("1"), Recorded("2"), Recorded("3"), Credited("1"), Credited("2"), Credited("3")];
  }

  lemma RunStep(bound: Bound, actions: seq<Action>, n: nat, before: Memory, after: Memory)
    requires n < |actions| && Run(EMPTY, bound, actions[..n]) == before
    requires Attempt(before, bound, actions[n]) == Success(after)
    ensures Run(EMPTY, bound, actions[..n + 1]) == after
  {
    hide Attempt;
    assert actions[..n + 1][..n] == actions[..n];
  }

  lemma PromisingIsReached(bound: Bound)
    ensures Run(EMPTY, bound, PromisingRun()) == Promising()
  {
    hide Run, Attempt;
    var run := PromisingRun();
    assert Run(EMPTY, bound, run[..0]) == EMPTY by { NothingRun(bound, run); }
    Listed(bound);
    RunStep(bound, run, 0, EMPTY, Memory(LISTED, map[], map[],
                       [Proposed("s")]));
    FirstApplied(bound);
    RunStep(bound, run, 1, Memory(LISTED, map[], map[],
                       [Proposed("s")]), Memory(LISTED, map["1" := App("k")], map[],
                       [Proposed("s"), Recorded("1")]));
    SecondApplied(bound);
    RunStep(bound, run, 2, Memory(LISTED, map["1" := App("k")], map[],
                       [Proposed("s"), Recorded("1")]), Memory(LISTED, map["1" := App("k"), "2" := App("l")], map[],
                       [Proposed("s"), Recorded("1"), Recorded("2")]));
    ThirdApplied(bound);
    RunStep(bound, run, 3, Memory(LISTED, map["1" := App("k"), "2" := App("l")], map[],
                       [Proposed("s"), Recorded("1"), Recorded("2")]), Memory(LISTED, APPS, map[],
                       [Proposed("s"), Recorded("1"), Recorded("2"), Recorded("3")]));
    FirstWon(bound);
    RunStep(bound, run, 4, Memory(LISTED, APPS, map[],
                       [Proposed("s"), Recorded("1"), Recorded("2"), Recorded("3")]), Memory(LISTED, APPS, map["1" := WON],
                       [Proposed("s"), Recorded("1"), Recorded("2"), Recorded("3"), Credited("1")]));
    SecondWon(bound);
    RunStep(bound, run, 5, Memory(LISTED, APPS, map["1" := WON],
                       [Proposed("s"), Recorded("1"), Recorded("2"), Recorded("3"), Credited("1")]), Memory(LISTED, APPS, map["1" := WON, "2" := WON],
                       [Proposed("s"), Recorded("1"), Recorded("2"), Recorded("3"), Credited("1"), Credited("2")]));
    ThirdWon(bound);
    RunStep(bound, run, 6, Memory(LISTED, APPS, map["1" := WON, "2" := WON],
                       [Proposed("s"), Recorded("1"), Recorded("2"), Recorded("3"), Credited("1"), Credited("2")]), Promising());
    assert run[..7] == run;
  }

  lemma NothingRun(bound: Bound, actions: seq<Action>)
    ensures Run(EMPTY, bound, actions[..0]) == EMPTY
  {
  }

  lemma PromisingCredits()
    ensures |Credits(Promising(), "s")| == 3 && Wins(Promising(), "s") == Credits(Promising(), "s")
  {
    assert Credits(Promising(), "s") == {"1", "2", "3"};
    assert "1"[0] != "2"[0] && "2"[0] != "3"[0] && "1"[0] != "3"[0];
  }

  /** Three successes, and refreshes with activation at 0.2 and at 0.9. */
  function JammingRun(): seq<Action> {
    PromisingRun() + [Refresh(3, 0.2, 0.05, ["s"]), Refresh(3, 0.9, 0.05, ["s"])]
  }

  /** A first refresh promotes the strategy and a second one with a high threshold takes that back. */
  lemma BothRefreshesPass(m: Memory, a: Rule, b: Rule, id: string)
    requires ValidRule(a) && ValidRule(b) && id in m.strategies && m.strategies[id].status.Candidate?
    requires TargetOf(m, a, id).Active? && TargetOf(m, b, id).Candidate?
    requires forall k | k in m.outbox :: !k.Changed?
    ensures var first := AfterRefresh(m, a, [id]); first.Success? && AfterRefresh(first.value, b, [id]).Success?
  {
    hide Credits, Wins, TargetOf, MovesOver;
    OneMove(m, a, id);
    var n := AfterRefresh(m, a, [id]).value;
    assert MovesOver(m, a, [id]) == [Changed(MoveOf(m, a, id))];
    OneMove(n, b, id);
    StatusFollowsCredit(m, a, [id], id);
    if Moves(n, b, id) {
      assert MoveOf(n, b, id).from != MoveOf(m, a, id).from;
    }
  }

  lemma PromisingTargets(bound: Bound)
    requires 0.2 <= bound(3, 3) < 0.9
    ensures TargetOf(Promising(), Rule(3, 0.2, 0.05, bound), "s").Active?
    ensures TargetOf(Promising(), Rule(3, 0.9, 0.05, bound), "s").Candidate?
  {
    hide Credits, Wins;
    PromisingCredits();
  }

  /** Where the bound of three successes in three lies between the two, a third refresh, at 0.2 again, is rolled back. */
  lemma RunJams(bound: Bound)
    requires 0.2 <= bound(3, 3) < 0.9
    ensures AfterRefresh(Run(EMPTY, bound, JammingRun()), Rule(3, 0.2, 0.05, bound), ["s"]) == Failure(NoticeRepeated)
  {
    hide TargetOf, Run, AfterRefresh;
    var a, b := Rule(3, 0.2, 0.05, bound), Rule(3, 0.9, 0.05, bound);
    var m, run := Promising(), JammingRun();
    PromisingIsReached(bound);
    PromisingTargets(bound);
    BothRefreshesPass(m, a, b, "s");
    var n := AfterRefresh(m, a, ["s"]).value;
    assert run[..7] == PromisingRun();
    RunStep(bound, run, 7, m, n);
    RunStep(bound, run, 8, n, AfterRefresh(n, b, ["s"]).value);
    assert run[..9] == run;
    ChangedThresholdsJam(m, a, b, ["s"], "s");
  }

  /** The bound of the code lies there. */
  lemma WilsonOfThree(root: real -> real)
    requires IsRoot(root)
    ensures 0.4 < Wilson(root, Z, 3, 3) < 0.5
  {
    hide Wilson;
    WilsonOfPerfect(root, Z, 3);
  }

  /** So it happens: under the bound of the code and any rounding to six digits. */
  lemma JamWitness(root: real -> real, round: real -> real)
    requires IsRoot(root) && forall x :: -0.0000005 <= round(x) - x <= 0.0000005
    ensures var rule := WilsonRule(3, 0.2, 0.05, root, round);
      AfterRefresh(Run(EMPTY, rule.bound, JammingRun()), rule, ["s"]) == Failure(NoticeRepeated)
  {
    hide Wilson, Run, AfterRefresh;
    var rule := WilsonRule(3, 0.2, 0.05, root, round);
    WilsonOfThree(root);
    assert rule.bound(3, 3) == round(Wilson(root, Z, 3, 3));
    RunJams(rule.bound);
  }

  lemma OneMove(m: Memory, rule: Rule, id: string)
    ensures MovesOver(m, rule, [id]) == if Moves(m, rule, id) then [Changed(MoveOf(m, rule, id))] else []
  {
    assert [id][..0] == [];
  }

  // ---------------------------------------------------------------- the store in place

  /** A transaction either commits the specified state or leaves everything as it was. */
  predicate Committed(before: Memory, spec: Result<Memory, PolicyError>, r: Option<PolicyError>, after: Memory) {
    match spec
    case Success(m) => r == None && after == m
    case Failure(e) => r == Some(e) && after == before
  }

  /** One row of `_score_rows`. */
  datatype Score = Score(id: string, status: Status, evaluations: nat, successes: nat, lower: real)

  lemma {:induction false} MovesOverPrefix(m: Memory, rule: Rule, order: seq<string>, k: nat)
    requires k <= |order|
    ensures MovesOver(m, rule, order[..k]) <= MovesOver(m, rule, order)
    decreases |order|
  {
    hide Moves, MoveOf;
    if k < |order| {
      assert order[..|order| - 1][..k] == order[..k];
      MovesOverPrefix(m, rule, order[..|order| - 1], k);
    } else {
      assert order[..k] == order;
    }
  }

  class PolicyStore {
    var strategies: map<string, Strategy>
    var applications: map<string, Application>
    var outcomes: map<string, Outcome>
    var outbox: seq<NoticeKey>

    function Contents(): Memory
      reads this
    {
      Memory(strategies, applications, outcomes, outbox)
    }

    constructor ()
      ensures Contents() == EMPTY
    {
      strategies, applications, outcomes, outbox := map[], map[], map[], [];
    }

    /** `_enqueue` inside the transaction of the caller. */
    method Enqueue(key: NoticeKey, saved: Memory) returns (r: Option<PolicyError>)
      modifies this
      ensures Committed(saved, Noted(old(Contents()), key), r, Contents())
    {
      if key in outbox {
        strategies, applications, outcomes, outbox :=
          saved.strategies, saved.applications, saved.outcomes, saved.outbox;
        return Some(NoticeRepeated);
      }
      outbox := outbox + [key];
      r := None;
    }

    method ProposeStrategy(id: string, kindAllowed: bool, key: string, pattern: string, sourceJob: string,
                           sourceFamily: string)
      returns (r: Option<PolicyError>)
      modifies this
      ensures Committed(old(Contents()),
                        AfterProposal(old(Contents()), id, kindAllowed, key, pattern, sourceJob, sourceFamily), r, Contents())
    {
      if !kindAllowed || Blank(pattern) || Blank(sourceJob) || Blank(sourceFamily) {
        return Some(InvalidInput);
      }
      var saved := Contents();
      if KeyKnown(saved, key) {
        return None;
      }
      if id in strategies {
        return Some(IdTaken);
      }
      strategies := strategies[id := Strategy(key, sourceJob, sourceFamily, Candidate)];
      r := Enqueue(Proposed(id), saved);
    }

    method RecordApplication(id: string, app: Application, query: string) returns (r: Option<PolicyError>)
      modifies this
      ensures Committed(old(Contents()), AfterApplication(old(Contents()), id, app, query), r, Contents())
    {
      if app.strategyId !in strategies {
        return Some(UnknownStrategy);
      }
      if strategies[app.strategyId].status.Retired? {
        return Some(RetiredStrategy);
      }
      if Blank(app.targetJob) || Blank(app.targetFamily) || Blank(query) {
        return Some(InvalidInput);
      }
      var saved := Contents();
      if exists a | a in applications :: AppliedAs(saved, app.key, a) {
        return if exists a | a in applications :: AppliedAs(saved, app.key, a) && applications[a] != app
               then Some(CreditConflict) else None;
      }
      if id in applications {
        return Some(IdTaken);
      }
      applications := applications[id := app];
      r := Enqueue(Recorded(id), saved);
    }

    method RecordOutcome(id: string, outcome: Outcome) returns (r: Option<PolicyError>)
      modifies this
      ensures Committed(old(Contents()), AfterOutcome(old(Contents()), id, outcome), r, Contents())
    {
      if outcome.evaluator.Unlisted? || outcome.calls < 0 || outcome.tokens < 0 || Blank(outcome.evidence) {
        return Some(InvalidInput);
      }
      if id !in applications {
        return Some(UnknownApplication);
      }
      var saved := Contents();
      if id in outcomes {
        return if outcomes[id] != outcome then Some(CreditConflict) else None;
      }
      outcomes := outcomes[id := outcome];
      r := Enqueue(Credited(id), saved);
    }

    /** `_score_rows`. */
    method ScoreRows(rule: Rule, order: seq<string>) returns (scores: seq<Score>)
      requires Enumerates(order, strategies.Keys)
      ensures |scores| == |order|
      ensures forall i | 0 <= i < |order| ::
        order[i] in strategies
        && scores[i] == (var e, w := |Credits(Contents(), order[i])|, |Wins(Contents(), order[i])|;
                         Score(order[i], strategies[order[i]].status, e, w, rule.bound(w, e)))
    {
      hide Credits, Wins;
      scores := [];
      var m := Contents();
      for i := 0 to |order|
        invariant |scores| == i
        invariant forall j | 0 <= j < i ::
          scores[j] == (var e, w := |Credits(m, order[j])|, |Wins(m, order[j])|;
                        Score(order[j], strategies[order[j]].status, e, w, rule.bound(w, e)))
      {
        var e, w := |Credits(m, order[i])|, |Wins(m, order[i])|;
        scores := scores + [Score(order[i], strategies[order[i]].status, e, w, rule.bound(w, e))];
      }
    }

    /** How far a refresh over `order` has come after `i` strategies. */
    ghost predicate Halfway(saved: Memory, rule: Rule, order: seq<string>, i: nat)
      requires i <= |order|
      reads this
    {
      && applications == saved.applications && outcomes == saved.outcomes
      && strategies == Restated(saved, rule, Elements(order[..i]))
      && outbox == saved.outbox + MovesOver(saved, rule, order[..i])
      && !Repeats(saved.outbox, MovesOver(saved, rule, order[..i]))
    }

    /** One turn of the refresh loop. */
    method RefreshOne(saved: Memory, rule: Rule, score: Score, ghost order: seq<string>, ghost i: nat)
      returns (r: Option<PolicyError>)
      requires Enumerates(order, saved.strategies.Keys) && i < |order|
      requires order[i] in saved.strategies && Halfway(saved, rule, order, i)
      requires score == (var e, w := |Credits(saved, order[i])|, |Wins(saved, order[i])|;
                         Score(order[i], saved.strategies[order[i]].status, e, w, rule.bound(w, e)))
      modifies this
      ensures r.None? ==> Halfway(saved, rule, order, i + 1)
      ensures r.Some? ==>
        r == Some(NoticeRepeated) && Contents() == saved && Repeats(saved.outbox, MovesOver(saved, rule, order))
    {
      hide Credits, Wins, Repeats, MovesOver, Restated, Elements, Enumerates;
      OneMoreMove(saved, rule, order, i);
      OneMoreStatus(saved, rule, order, i);
      if score.status.Retired? {
        return None;
      }
      var target :=
        if score.evaluations < rule.minEvaluations then Candidate
        else if score.lower >= rule.activation then Active
        else if score.lower < rule.suspension then Suspended
        else Candidate;
      if target == score.status {
        return None;
      }
      strategies := strategies[score.id := strategies[score.id].(status := target)];
      var key := Changed(Move(score.id, score.status, target, score.evaluations, score.successes, score.lower));
      KeyIsNew(saved, rule, order, i, key);
      r := Enqueue(key, saved);
      if r.Some? {
        MovesOverPrefix(saved, rule, order, i + 1);
        assert MovesOver(saved, rule, order)[|MovesOver(saved, rule, order[..i])|] == key;
        Repeated(saved.outbox, MovesOver(saved, rule, order), key);
      }
    }

    /** `refresh_statuses`. */
    method RefreshStatuses(rule: Rule, order: seq<string>) returns (r: Option<PolicyError>)
      requires Enumerates(order, strategies.Keys)
      modifies this
      ensures Committed(old(Contents()), AfterRefresh(old(Contents()), rule, order), r, Contents())
    {
      hide Credits, Wins, Repeats, MovesOver, Restated, Elements;
      if !ValidRule(rule) {
        return Some(InvalidThresholds);
      }
      var saved := Contents();
      var scores := ScoreRows(rule, order);
      StartOfRefresh(saved, rule, order);
      for i := 0 to |scores|
        invariant Halfway(saved, rule, order, i)
      {
        r := RefreshOne(saved, rule, scores[i], order, i);
        if r.Some? {
          return;
        }
      }
      AllElements(order, saved.strategies.Keys);
      assert order[..|order|] == order;
      r := None;
    }
  }

  function Elements(order: seq<string>): set<string> {
    set id | id in order
  }

  lemma AllElements(order: seq<string>, keys: set<string>)
    requires Enumerates(order, keys)
    ensures Elements(order) == keys
  {
  }

  lemma StartOfRefresh(m: Memory, rule: Rule, order: seq<string>)
    ensures Restated(m, rule, Elements(order[..0])) == m.strategies
    ensures MovesOver(m, rule, order[..0]) == [] && !Repeats(m.outbox, MovesOver(m, rule, order[..0]))
    ensures m.outbox + [] == m.outbox
  {
    hide TargetOf;
  }

  lemma OneMoreMove(m: Memory, rule: Rule, order: seq<string>, i: nat)
    requires i < |order| && order[i] in m.strategies
    ensures MovesOver(m, rule, order[..i + 1])
         == MovesOver(m, rule, order[..i]) + if Moves(m, rule, order[i]) then [Changed(MoveOf(m, rule, order[i]))] else []
    ensures !Repeats(m.outbox, MovesOver(m, rule, order[..i]))
            && (Moves(m, rule, order[i]) ==> Changed(MoveOf(m, rule, order[i])) !in m.outbox) ==>
      !Repeats(m.outbox, MovesOver(m, rule, order[..i + 1]))
    ensures m.outbox + (MovesOver(m, rule, order[..i]) + []) == m.outbox + MovesOver(m, rule, order[..i])
  {
    hide Moves, MoveOf;
    assert order[..i + 1][..i] == order[..i];
  }

  lemma OneMoreStatus(m: Memory, rule: Rule, order: seq<string>, i: nat)
    requires Enumerates(order, m.strategies.Keys) && i < |order| && order[i] in m.strategies
    ensures var id, before := order[i], Restated(m, rule, Elements(order[..i]));
      && id in before && before[id] == m.strategies[id]
      && Restated(m, rule, Elements(order[..i + 1]))
         == if Moves(m, rule, id) then before[id := m.strategies[id].(status := TargetOf(m, rule, id))] else before
  {
    hide TargetOf;
    assert order[..i + 1] == order[..i] + [order[i]];
    assert Elements(order[..i + 1]) == Elements(order[..i]) + {order[i]};
    assert order[i] !in order[..i];
  }

  /** Within one refresh the keys differ, so only an earlier refresh can have used one. */
  lemma KeyIsNew(m: Memory, rule: Rule, order: seq<string>, i: nat, key: NoticeKey)
    requires Enumerates(order, m.strategies.Keys) && i < |order| && key.Changed? && key.move.id == order[i]
    ensures key in m.outbox + MovesOver(m, rule, order[..i]) <==> key in m.outbox
  {
    hide Moves, MoveOf;
    if key in MovesOver(m, rule, order[..i]) {
      MovesWithin(m, rule, order[..i], key);
    }
  }

  lemma {:induction false} MovesWithin(m: Memory, rule: Rule, order: seq<string>, k: NoticeKey)
    requires k in MovesOver(m, rule, order)
    ensures k.Changed? && k.move.id in order
  {
    hide Moves, TargetOf, Credits, Wins;
    var n := |order| - 1;
    MovesKnown(m, rule, order[n]);
    if k in MovesOver(m, rule, order[..n]) {
      MovesWithin(m, rule, order[..n], k);
    }
  }
}
