/**
 The transactional outbox of `src/learning/policy_store.py` and the bridge of
 `src/learning/audit.py`: at-least-once dispatch made exactly-once by the ledger's idempotency
 keys.  One tenant, one audit job; any number of flushers, each of which may crash between any two
 steps, while policy operations go on enqueueing.
 */
module PolicyOutbox {
  import opened Wrappers
  import opened KeyedLog
  import EventLedger

  /** An event as the ledger's idempotency rule sees it. */
  type Notice = Entry<EventLedger.Semantics<string>>

  datatype Row = Row(id: string, notice: Notice, dispatched: bool)

  // ---------------------------------------------------------------- the table

  /** The table in `(created_at, event_id)` order. */
  ghost predicate Distinct(outbox: seq<Row>) {
    forall i, j | 0 <= i < j < |outbox| ::
      outbox[i].id != outbox[j].id && outbox[i].notice.key != outbox[j].notice.key
  }

  function Undispatched(outbox: seq<Row>): (rows: seq<Row>)
    ensures |rows| <= |outbox|
  {
    if outbox == [] then []
    else (if outbox[0].dispatched then [] else [outbox[0]]) + Undispatched(outbox[1..])
  }

  /** `pending_events`. */
  function Pending(outbox: seq<Row>, limit: nat): (rows: seq<Row>)
    ensures |rows| <= limit
  {
    var all := Undispatched(outbox);
    all[..Min(limit, |all|)]
  }

  predicate Taken(outbox: seq<Row>, id: string, key: string) {
    exists k :: 0 <= k < |outbox| && (outbox[k].id == id || outbox[k].notice.key == key)
  }

  /** `_enqueue`; clocks are arbitrary, so a row may land anywhere.  A taken id or key rolls back. */
  function Enqueued(outbox: seq<Row>, at: nat, id: string, notice: Notice): seq<Row> {
    if at > |outbox| || Taken(outbox, id, notice.key) then outbox
    else outbox[..at] + [Row(id, notice, false)] + outbox[at..]
  }

  predicate Known(outbox: seq<Row>, id: string) {
    exists k :: 0 <= k < |outbox| && outbox[k].id == id
  }

  /** `mark_dispatched`. */
  function Marked(outbox: seq<Row>, id: string): (rows: seq<Row>)
    ensures |rows| == |outbox|
  {
    seq(|outbox|, k requires 0 <= k < |outbox| =>
      if outbox[k].id == id then outbox[k].(dispatched := true) else outbox[k])
  }

  // ---------------------------------------------------------------- the step system

  /** Where a flusher is; each constructor names its next atomic step. */
  datatype Pc =
    | Resting
    | Fetching(batch: nat)
    | Sending(batch: nat, pending: seq<Row>, i: nat)
    | Marking(batch: nat, pending: seq<Row>, i: nat)
    | Verifying
    | Finished

  datatype State = State(outbox: seq<Row>, log: seq<Notice>, flushers: map<string, Pc>) {
    function PcOf(f: string): Pc {
      if f in flushers then flushers[f] else Resting
    }

    function At(f: string, pc: Pc): State {
      this.(flushers := flushers[f := pc])
    }
  }

  datatype Action =
    | Enqueue(at: nat, id: string, notice: Notice)
    | Begin(f: string, batch: nat)
    | Advance(f: string)
    | Crash(f: string)

  function Step(s: State, f: string): State {
    match s.PcOf(f)
    case Resting => s
    case Finished => s
    case Fetching(batch) =>
      var pending := Pending(s.outbox, batch);
      s.At(f, if pending == [] then Verifying else Sending(batch, pending, 0))
    case Sending(batch, pending, i) =>
      if i >= |pending| then s.At(f, if |pending| < batch then Verifying else Fetching(batch))
      else if Clash(s.log, pending[i].notice) then s.At(f, Resting)
      else s.(log := Put(s.log, pending[i].notice)).At(f, Marking(batch, pending, i))
    case Marking(batch, pending, i) =>
      if i >= |pending| || !Known(s.outbox, pending[i].id) then s.At(f, Resting)
      else s.(outbox := Marked(s.outbox, pending[i].id)).At(f, Sending(batch, pending, i + 1))
    case Verifying => s.At(f, Finished)
  }

  function Do(s: State, a: Action): State {
    match a
    case Enqueue(at, id, notice) => s.(outbox := Enqueued(s.outbox, at, id, notice))
    case Begin(f, batch) => if batch < 1 then s else s.At(f, Fetching(batch))
    case Advance(f) => Step(s, f)
    case Crash(f) => s.At(f, Resting)
  }

  function Run(s: State, actions: seq<Action>): State {
    if actions == [] then s else Do(Run(s, actions[..|actions| - 1]), actions[|actions| - 1])
  }

  const START := State([], [], map[])

  // ---------------------------------------------------------------- the invariant

  ghost predicate Holds(outbox: seq<Row>, id: string, notice: Notice) {
    exists k :: 0 <= k < |outbox| && outbox[k].id == id && outbox[k].notice == notice
  }

  /** Everything dispatched is in the ledger, and nothing is in the ledger but outbox rows, once each. */
  ghost predicate Tidy(outbox: seq<Row>, log: seq<Notice>) {
    && Distinct(outbox)
    && UniqueKeys(log)
    && (forall k | 0 <= k < |outbox| && outbox[k].dispatched :: outbox[k].notice in log)
    && (forall n | n in log :: exists id :: Holds(outbox, id, n))
  }

  ghost predicate PcOk(outbox: seq<Row>, log: seq<Notice>, pc: Pc) {
    match pc
    case Sending(_, pending, i) => AllHeld(outbox, pending)
    case Marking(_, pending, i) => i < |pending| && AllHeld(outbox, pending) && pending[i].notice in log
    case _ => true
  }

  ghost predicate AllHeld(outbox: seq<Row>, pending: seq<Row>) {
    forall j | 0 <= j < |pending| :: Holds(outbox, pending[j].id, pending[j].notice)
  }

  ghost predicate Inv(s: State) {
    Tidy(s.outbox, s.log) && forall f | f in s.flushers :: PcOk(s.outbox, s.log, s.flushers[f])
  }

  lemma {:induction false} UndispatchedHeld(outbox: seq<Row>)
    ensures AllHeld(outbox, Undispatched(outbox))
  {
    if outbox != [] {
      var tail, rows := outbox[1..], Undispatched(outbox);
      UndispatchedHeld(tail);
      forall j | 0 <= j < |rows|
        ensures Holds(outbox, rows[j].id, rows[j].notice)
      {
        if !outbox[0].dispatched && j == 0 {
          assert outbox[0] == rows[j];
        } else {
          var m := if outbox[0].dispatched then j else j - 1;
          assert rows[j] == Undispatched(tail)[m];
          var k :| 0 <= k < |tail| && tail[k].id == rows[j].id && tail[k].notice == rows[j].notice;
          assert outbox[k + 1] == tail[k];
        }
      }
    }
  }

  lemma MarkedHolds(outbox: seq<Row>, id: string, other: string, notice: Notice)
    ensures Holds(Marked(outbox, id), other, notice) <==> Holds(outbox, other, notice)
  {
    var after := Marked(outbox, id);
    if k :| 0 <= k < |outbox| && outbox[k].id == other && outbox[k].notice == notice {
      assert after[k].id == other;
    }
    if k :| 0 <= k < |after| && after[k].id == other && after[k].notice == notice {
      assert outbox[k].id == other;
    }
  }

  lemma EnqueuedHolds(outbox: seq<Row>, at: nat, id: string, notice: Notice, other: string, n: Notice)
    requires Holds(outbox, other, n)
    ensures Holds(Enqueued(outbox, at, id, notice), other, n)
  {
    var after := Enqueued(outbox, at, id, notice);
    var k :| 0 <= k < |outbox| && outbox[k].id == other && outbox[k].notice == n;
    if after != outbox {
      assert after[if k < at then k else k + 1] == outbox[k];
    }
  }

  lemma EnqueueKeepsTidy(outbox: seq<Row>, log: seq<Notice>, at: nat, id: string, notice: Notice)
    requires Tidy(outbox, log)
    ensures Tidy(Enqueued(outbox, at, id, notice), log)
  {
    var after := Enqueued(outbox, at, id, notice);
    if after != outbox {
      forall i, j | 0 <= i < j < |after|
        ensures after[i].id != after[j].id && after[i].notice.key != after[j].notice.key
      {
        var a, b := if i < at then i else i - 1, if j < at then j else j - 1;
        if i == at {
          assert after[j] == outbox[b] && !Taken(outbox, id, notice.key);
        } else if j == at {
          assert after[i] == outbox[a] && !Taken(outbox, id, notice.key);
        } else {
          assert after[i] == outbox[a] && after[j] == outbox[b];
        }
      }
      forall n | n in log
        ensures exists other :: Holds(after, other, n)
      {
        var other :| Holds(outbox, other, n);
        EnqueuedHolds(outbox, at, id, notice, other, n);
      }
      forall k | 0 <= k < |after| && after[k].dispatched
        ensures after[k].notice in log
      {
        assert after[k] == outbox[if k < at then k else k - 1];
      }
    }
  }

  /** A row of the outbox is never refused by the ledger. */
  lemma NeverRefused(outbox: seq<Row>, log: seq<Notice>, id: string, notice: Notice)
    requires Tidy(outbox, log) && Holds(outbox, id, notice)
    ensures !Clash(log, notice)
  {
    forall i | 0 <= i < |log| && log[i].key == notice.key
      ensures log[i] == notice
    {
      assert log[i] in log;
      var other :| Holds(outbox, other, log[i]);
    }
  }

  lemma AppendKeepsTidy(outbox: seq<Row>, log: seq<Notice>, id: string, notice: Notice)
    requires Tidy(outbox, log) && Holds(outbox, id, notice)
    ensures Tidy(outbox, Put(log, notice)) && notice in Put(log, notice) && log <= Put(log, notice)
  {
    hide Holds, Distinct;
    NeverRefused(outbox, log, id, notice);
    var after := Put(log, notice);
    if Has(log, notice.key) {
      var i :| 0 <= i < |log| && log[i].key == notice.key;
      assert log[i] == notice;
    } else {
      assert after[|log|] == notice;
      forall n | n in after
        ensures exists other :: Holds(outbox, other, n)
      {
        if n !in log {
          assert n == notice;
        }
      }
    }
  }

  lemma MarkKeepsTidy(outbox: seq<Row>, log: seq<Notice>, id: string, notice: Notice)
    requires Tidy(outbox, log) && Holds(outbox, id, notice) && notice in log
    ensures Tidy(Marked(outbox, id), log)
  {
    var after := Marked(outbox, id);
    forall k | 0 <= k < |after| && after[k].dispatched
      ensures after[k].notice in log
    {
      if outbox[k].id == id {
        var b :| 0 <= b < |outbox| && outbox[b].id == id && outbox[b].notice == notice;
        assert k == b;
      }
    }
    forall n | n in log
      ensures exists other :: Holds(after, other, n)
    {
      var other :| Holds(outbox, other, n);
      MarkedHolds(outbox, id, other, n);
    }
  }

  /** What a flusher relies on survives whatever the others do to the table and the ledger. */
  lemma PcStands(outbox: seq<Row>, log: seq<Notice>, more: seq<Row>, longer: seq<Notice>, pc: Pc)
    requires PcOk(outbox, log, pc) && log <= longer
    requires forall id, n | Holds(outbox, id, n) :: Holds(more, id, n)
    ensures PcOk(more, longer, pc)
  {
    hide Holds;
    if pc.Marking? {
      var k :| 0 <= k < |log| && log[k] == pc.pending[pc.i].notice;
      assert longer[k] == log[k];
    }
  }

  /** The others stand, and the one that moved is where it should be. */
  lemma MovedKeeps(s: State, t: State, f: string)
    requires Inv(s) && Tidy(t.outbox, t.log) && s.log <= t.log
    requires forall id, n | Holds(s.outbox, id, n) :: Holds(t.outbox, id, n)
    requires t.flushers == s.flushers[f := t.PcOf(f)] || t.flushers == s.flushers
    requires PcOk(t.outbox, t.log, t.PcOf(f))
    ensures Inv(t)
  {
    hide Holds, PcOk, Tidy;
    forall g | g in t.flushers
      ensures PcOk(t.outbox, t.log, t.flushers[g])
    {
      if g != f {
        PcStands(s.outbox, s.log, t.outbox, t.log, s.flushers[g]);
      }
    }
  }

  lemma SendKeeps(s: State, f: string)
    requires Inv(s) && s.PcOf(f).Sending?
    ensures Inv(Step(s, f))
    ensures s.PcOf(f).i < |s.PcOf(f).pending| ==> Step(s, f).PcOf(f).Marking?
  {
    hide Tidy, Holds, Put, Clash;
    var pc := s.PcOf(f);
    if pc.i < |pc.pending| {
      var row := pc.pending[pc.i];
      NeverRefused(s.outbox, s.log, row.id, row.notice);
      AppendKeepsTidy(s.outbox, s.log, row.id, row.notice);
    }
    MovedKeeps(s, Step(s, f), f);
  }

  lemma MarkKeeps(s: State, f: string)
    requires Inv(s) && s.PcOf(f).Marking?
    ensures Inv(Step(s, f)) && Step(s, f).PcOf(f).Sending?
  {
    hide Tidy, Marked;
    var pc := s.PcOf(f);
    var row := pc.pending[pc.i];
    MarkKeepsTidy(s.outbox, s.log, row.id, row.notice);
    forall id, n | Holds(s.outbox, id, n)
      ensures Holds(Marked(s.outbox, row.id), id, n)
    {
      MarkedHolds(s.outbox, row.id, id, n);
    }
    forall j | 0 <= j < |pc.pending|
      ensures Holds(Marked(s.outbox, row.id), pc.pending[j].id, pc.pending[j].notice)
    {
      MarkedHolds(s.outbox, row.id, pc.pending[j].id, pc.pending[j].notice);
    }
    HeldIsKnown(s.outbox, row.id, row.notice);
    MovedKeeps(s, Step(s, f), f);
  }

  lemma HeldIsKnown(outbox: seq<Row>, id: string, notice: Notice)
    requires Holds(outbox, id, notice)
    ensures Known(outbox, id)
  {
  }

  /** No step of any flusher is ever refused, and every action keeps the invariant. */
  lemma DoKeeps(s: State, a: Action)
    requires Inv(s)
    ensures Inv(Do(s, a))
  {
    hide Tidy, Holds, Enqueued, Inv;
    match a {
      case Enqueue(at, id, notice) =>
        TidyOf(s);
        EnqueueKeepsTidy(s.outbox, s.log, at, id, notice);
        forall other, n | Holds(s.outbox, other, n)
          ensures Holds(Enqueued(s.outbox, at, id, notice), other, n)
        {
          EnqueuedHolds(s.outbox, at, id, notice, other, n);
        }
        PcOkFor(s, "", Enqueued(s.outbox, at, id, notice));
        MovedKeeps(s, Do(s, a), "");
      case Begin(f, batch) => TidyOf(s); MovedKeeps(s, s.At(f, Fetching(batch)), f);
      case Crash(f) => TidyOf(s); MovedKeeps(s, Do(s, a), f);
      case Advance(f) =>
        TidyOf(s);
        match s.PcOf(f) {
          case Sending(_, _, _) => SendKeeps(s, f);
          case Marking(_, _, _) => MarkKeeps(s, f);
          case Fetching(batch) =>
            UndispatchedHeld(s.outbox);
            MovedKeeps(s, Do(s, a), f);
          case Verifying => MovedKeeps(s, Do(s, a), f);
          case _ =>
        }
    }
  }

  lemma TidyOf(s: State)
    requires Inv(s)
    ensures Tidy(s.outbox, s.log)
  {
  }

  lemma PcOkFor(s: State, f: string, more: seq<Row>)
    requires Inv(s)
    requires forall id, n | Holds(s.outbox, id, n) :: Holds(more, id, n)
    ensures PcOk(more, s.log, s.PcOf(f))
  {
    hide Holds, Tidy;
    PcStands(s.outbox, s.log, more, s.log, s.PcOf(f));
  }

  lemma {:induction false} RunKeeps(s: State, actions: seq<Action>)
    requires Inv(s)
    ensures Inv(Run(s, actions))
  {
    hide Inv;
    if actions != [] {
      RunKeeps(s, actions[..|actions| - 1]);
      DoKeeps(Run(s, actions[..|actions| - 1]), actions[|actions| - 1]);
    }
  }

  /**
   Exactly once: over any schedule of enqueues, concurrent flushers and crashes, the ledger holds
   every key at most once, every dispatched row is in it, and it holds nothing but outbox rows.
   */
  lemma EachNoticeExactlyOnce(actions: seq<Action>)
    ensures var s := Run(START, actions);
      && UniqueKeys(s.log)
      && (forall k | 0 <= k < |s.outbox| && s.outbox[k].dispatched :: s.outbox[k].notice in s.log)
      && (forall n | n in s.log :: exists id :: Holds(s.outbox, id, n))
  {
    RunKeeps(START, actions);
  }

  lemma StartInv()
    ensures Inv(START)
  {
  }

  /** In no reachable state does the ledger refuse the row a flusher is about to append. */
  lemma AppendIsNeverRefused(actions: seq<Action>, f: string)
    requires Run(START, actions).PcOf(f).Sending?
    requires Run(START, actions).PcOf(f).i < |Run(START, actions).PcOf(f).pending|
    ensures var s := Run(START, actions); var pc := s.PcOf(f);
      !Clash(s.log, pc.pending[pc.i].notice) && Do(s, Advance(f)).PcOf(f).Marking?
  {
    hide Run, Tidy, Holds, Clash, Put;
    StartInv();
    RunKeeps(START, actions);
    var s := Run(START, actions);
    var pc := s.PcOf(f);
    assert f in s.flushers && PcOk(s.outbox, s.log, s.flushers[f]);
    assert Holds(s.outbox, pc.pending[pc.i].id, pc.pending[pc.i].notice);
    NeverRefused(s.outbox, s.log, pc.pending[pc.i].id, pc.pending[pc.i].notice);
  }

  // ---------------------------------------------------------------- a finished flush has delivered all

  /** The rows still to send cover all that is undispatched. */
  ghost predicate Covers(outbox: seq<Row>, pending: seq<Row>, i: nat) {
    forall k | 0 <= k < |outbox| && !outbox[k].dispatched ::
      exists j :: i <= j < |pending| && pending[j].id == outbox[k].id
  }

  predicate AllDispatched(outbox: seq<Row>) {
    forall k | 0 <= k < |outbox| :: outbox[k].dispatched
  }

  ghost predicate Drains(outbox: seq<Row>, pc: Pc) {
    match pc
    case Fetching(batch) => batch >= 1
    case Sending(batch, pending, i) => batch >= 1 && (|pending| < batch ==> Covers(outbox, pending, i))
    case Marking(batch, pending, i) => batch >= 1 && (|pending| < batch ==> Covers(outbox, pending, i))
    case Verifying => AllDispatched(outbox)
    case Finished => AllDispatched(outbox)
    case _ => true
  }

  lemma {:induction false} UndispatchedCovers(outbox: seq<Row>)
    ensures Covers(outbox, Undispatched(outbox), 0)
  {
    if outbox != [] {
      var tail, rows := outbox[1..], Undispatched(outbox);
      var shift := if outbox[0].dispatched then 0 else 1;
      UndispatchedCovers(tail);
      forall k | 0 <= k < |outbox| && !outbox[k].dispatched
        ensures exists j :: 0 <= j < |rows| && rows[j].id == outbox[k].id
      {
        if k == 0 {
          assert rows[0] == outbox[0];
        } else {
          assert tail[k - 1] == outbox[k];
          var j :| 0 <= j < |Undispatched(tail)| && Undispatched(tail)[j].id == outbox[k].id;
          assert rows[j + shift] == Undispatched(tail)[j];
        }
      }
    }
  }

  lemma MarkDrains(outbox: seq<Row>, id: string, pc: Pc)
    requires Drains(outbox, pc)
    ensures Drains(Marked(outbox, id), pc)
  {
    var after := Marked(outbox, id);
    forall k | 0 <= k < |after| && !after[k].dispatched
      ensures !outbox[k].dispatched && after[k].id == outbox[k].id
    {
    }
  }

  lemma OwnMarkDrains(outbox: seq<Row>, pc: Pc)
    requires pc.Marking? && pc.i < |pc.pending| && Drains(outbox, pc)
    ensures Drains(Marked(outbox, pc.pending[pc.i].id), Sending(pc.batch, pc.pending, pc.i + 1))
  {
    var id := pc.pending[pc.i].id;
    var after := Marked(outbox, id);
    if |pc.pending| < pc.batch {
      forall k | 0 <= k < |after| && !after[k].dispatched
        ensures exists j :: pc.i + 1 <= j < |pc.pending| && pc.pending[j].id == after[k].id
      {
        assert outbox[k].id != id && !outbox[k].dispatched;
        var j :| pc.i <= j < |pc.pending| && pc.pending[j].id == outbox[k].id;
        assert j != pc.i;
      }
    }
  }

  lemma DoDrains(s: State, a: Action, f: string)
    requires !a.Enqueue? && Drains(s.outbox, s.PcOf(f))
    ensures Drains(Do(s, a).outbox, Do(s, a).PcOf(f))
  {
    hide Marked, Undispatched;
    match a {
      case Advance(g) =>
        var pc := s.PcOf(g);
        match pc {
          case Marking(batch, pending, i) =>
            if i < |pending| {
              MarkDrains(s.outbox, pending[i].id, s.PcOf(f));
              if g == f {
                OwnMarkDrains(s.outbox, pc);
              }
            }
          case Fetching(batch) =>
            UndispatchedCovers(s.outbox);
            if |Pending(s.outbox, batch)| < batch {
              assert Pending(s.outbox, batch) == Undispatched(s.outbox);
            }
          case _ =>
        }
      case _ =>
    }
  }

  lemma {:induction false} RunDrains(s: State, actions: seq<Action>, f: string)
    requires forall i | 0 <= i < |actions| :: !actions[i].Enqueue?
    requires Drains(s.outbox, s.PcOf(f))
    ensures Drains(Run(s, actions).outbox, Run(s, actions).PcOf(f))
  {
    hide Drains, Do;
    if actions != [] {
      RunDrains(s, actions[..|actions| - 1], f);
      DoDrains(Run(s, actions[..|actions| - 1]), actions[|actions| - 1], f);
    }
  }

  /**
   A flush that finishes with nothing newly enqueued has delivered every row of the outbox, also
   the ones earlier flushers left behind when they crashed, and whatever the others did meanwhile.
   */
  lemma FinishedFlushDeliveredAll(before: seq<Action>, during: seq<Action>, f: string)
    requires Run(START, before).PcOf(f).Resting?
    requires forall i | 0 <= i < |during| :: !during[i].Enqueue?
    requires Run(Run(START, before), during).PcOf(f).Finished?
    ensures var s := Run(Run(START, before), during);
      && AllDispatched(s.outbox)
      && (forall k | 0 <= k < |s.outbox| :: s.outbox[k].notice in s.log)
      && UniqueKeys(s.log)
  {
    hide Run, Holds;
    RunKeeps(START, before);
    RunKeeps(Run(START, before), during);
    RunDrains(Run(START, before), during, f);
  }

  // ---------------------------------------------------------------- a flush left alone

  lemma {:induction false} RunOver(s: State, a: seq<Action>, b: seq<Action>)
    ensures Run(s, a + b) == Run(Run(s, a), b)
  {
    hide Do;
    if b == [] {
      assert a + b == a;
    } else {
      var n := |b| - 1;
      RunOver(s, a, b[..n]);
      assert (a + b)[..|a + b| - 1] == a + b[..n];
    }
  }

  lemma OneStep(s: State, a: Action)
    ensures Run(s, [a]) == Do(s, a)
  {
    hide Do;
    assert [a][..0] == [];
  }

  function Advances(f: string, n: nat): (actions: seq<Action>)
    ensures |actions| == n && forall i | 0 <= i < n :: actions[i] == Advance(f)
  {
    if n == 0 then [] else Advances(f, n - 1) + [Advance(f)]
  }

  lemma AdvanceOnce(s: State, f: string, n: nat)
    ensures Run(s, Advances(f, n + 1)) == Step(Run(s, Advances(f, n)), f)
  {
    hide Step;
    assert Advances(f, n + 1)[..n] == Advances(f, n);
  }

  lemma {:induction false} AdvancesTogether(s: State, f: string, m: nat, n: nat)
    ensures Run(s, Advances(f, m + n)) == Run(Run(s, Advances(f, m)), Advances(f, n))
  {
    hide Step, Run;
    if n == 0 {
      NothingRun(Run(s, Advances(f, m)), f);
    } else {
      AdvancesTogether(s, f, m, n - 1);
      AdvanceOnce(s, f, m + n - 1);
      AdvanceOnce(Run(s, Advances(f, m)), f, n - 1);
    }
  }

  lemma NothingRun(s: State, f: string)
    ensures Run(s, Advances(f, 0)) == s
  {
  }

  /** An append and an acknowledgement for every row of the batch. */
  lemma {:induction false} BatchIsSent(s: State, f: string, batch: nat, pending: seq<Row>, i: nat)
    requires Inv(s) && s.PcOf(f) == Sending(batch, pending, 0) && i <= |pending|
    ensures var t := Run(s, Advances(f, 2 * i)); Inv(t) && t.PcOf(f) == Sending(batch, pending, i)
  {
    hide Inv, Run, Put, Clash;
    if i == 0 {
      NothingRun(s, f);
    } else {
      BatchIsSent(s, f, batch, pending, i - 1);
      var t := Run(s, Advances(f, 2 * (i - 1)));
      AdvanceOnce(s, f, 2 * (i - 1));
      AdvanceOnce(s, f, 2 * (i - 1) + 1);
      SendKeeps(t, f);
      MarkKeeps(Step(t, f), f);
      assert 2 * (i - 1) + 1 + 1 == 2 * i;
    }
  }

  /** A flush of everything there is, from wherever `f` was left when it crashed. */
  function FlushOf(s: State, f: string): (actions: seq<Action>)
    ensures forall i | 0 <= i < |actions| :: !actions[i].Enqueue?
  {
    var n := |Undispatched(s.outbox)|;
    [Begin(f, n + 1)] + Advances(f, 2 * n + 3)
  }

  /** Left alone, such a flush finishes, whatever crashed flushes left behind. */
  lemma FlushFinishes(s: State, f: string)
    requires Inv(s)
    ensures Run(s, FlushOf(s, f)).PcOf(f).Finished?
  {
    hide Inv, Run, Undispatched, Put, Clash, Known, Marked, Enqueued, Advances;
    var pending := Undispatched(s.outbox);
    var n := |pending|;
    RunOver(s, [Begin(f, n + 1)], Advances(f, 2 * n + 3));
    OneStep(s, Begin(f, n + 1));
    DoKeeps(s, Begin(f, n + 1));
    var u := Do(s, Begin(f, n + 1));
    var v := Step(u, f);
    DoKeeps(u, Advance(f));
    AdvancesTogether(u, f, 1, 2 * n + 2);
    AdvanceOnce(u, f, 0);
    NothingRun(u, f);
    assert pending[..n] == pending;
    if n == 0 {
      AdvanceOnce(v, f, 0);
      NothingRun(v, f);
      AdvanceOnce(v, f, 1);
    } else {
      AdvancesTogether(v, f, 2 * n, 2);
      BatchIsSent(v, f, n + 1, pending, n);
      var w := Run(v, Advances(f, 2 * n));
      AdvanceOnce(w, f, 0);
      NothingRun(w, f);
      AdvanceOnce(w, f, 1);
    }
  }

  // ---------------------------------------------------------------- flush as a loop

  /** The ledger after one append per row, in order. */
  function PutAll(log: seq<Notice>, rows: seq<Row>): seq<Notice>
    decreases |rows|
  {
    if rows == [] then log else PutAll(Put(log, rows[0].notice), rows[1..])
  }

  ghost predicate SameRows(before: seq<Row>, after: seq<Row>) {
    |before| == |after|
    && forall k | 0 <= k < |before| :: after[k].id == before[k].id && after[k].notice == before[k].notice
  }

  lemma MarkedElsewhere(outbox: seq<Row>, id: string)
    requires !Known(outbox, id)
    ensures Marked(outbox, id) == outbox
  {
  }

  /** Marking the first undispatched row takes exactly it off the queue. */
  lemma {:induction false} MarkFirst(outbox: seq<Row>)
    requires Distinct(outbox) && Undispatched(outbox) != []
    ensures Known(outbox, Undispatched(outbox)[0].id)
    ensures Undispatched(Marked(outbox, Undispatched(outbox)[0].id)) == Undispatched(outbox)[1..]
  {
    var head, tail := outbox[0], outbox[1..];
    if head.dispatched {
      MarkFirst(tail);
      var id := Undispatched(tail)[0].id;
      var k :| 0 <= k < |tail| && tail[k].id == id;
      assert outbox[k + 1].id == id;
      assert Marked(outbox, id)[0] == head && Marked(outbox, id)[1..] == Marked(tail, id);
    } else {
      assert outbox[0].id == head.id;
      assert !Known(tail, head.id) by {
        if k :| 0 <= k < |tail| && tail[k].id == head.id {
          assert outbox[k + 1].id == head.id;
        }
      }
      MarkedElsewhere(tail, head.id);
      assert Marked(outbox, head.id)[1..] == tail;
    }
  }

  lemma {:induction false} NothingUndispatched(outbox: seq<Row>)
    requires Undispatched(outbox) == []
    ensures AllDispatched(outbox)
  {
    if outbox != [] {
      NothingUndispatched(outbox[1..]);
      forall k | 0 <= k < |outbox|
        ensures outbox[k].dispatched
      {
        if k > 0 {
          assert outbox[1..][k - 1] == outbox[k];
        }
      }
    }
  }

  lemma NextPending(pending: seq<Row>, i: nat, rest: seq<Row>)
    requires i < |pending|
    ensures pending[i..] + rest != [] && (pending[i..] + rest)[0] == pending[i]
    ensures (pending[i..] + rest)[1..] == pending[i + 1..] + rest
  {
    var all, more := pending[i..] + rest, pending[i + 1..] + rest;
    assert |all| == |more| + 1;
    assert forall k | 0 <= k < |more| :: all[k + 1] == more[k];
  }

  class PolicyAuditBridge {
    var outbox: seq<Row>
    var log: seq<Notice>

    constructor (outbox: seq<Row>, log: seq<Notice>)
      ensures this.outbox == outbox && this.log == log
    {
      this.outbox, this.log := outbox, log;
    }

    /**
     One append and one acknowledgement.  The first undispatched row reaches the ledger and leaves
     the queue; a row that reached the ledger before a crash is not appended twice.
     */
    method Dispatch(row: Row)
      requires Tidy(outbox, log) && Undispatched(outbox) != [] && row == Undispatched(outbox)[0]
      modifies this
      ensures Tidy(outbox, log) && SameRows(old(outbox), outbox)
      ensures log == Put(old(log), row.notice)
      ensures Undispatched(outbox) == old(Undispatched(outbox))[1..]
    {
      hide Undispatched, Put, Holds;
      UndispatchedHeld(outbox);
      NeverRefused(outbox, log, row.id, row.notice);
      AppendKeepsTidy(outbox, log, row.id, row.notice);
      log := Put(log, row.notice);
      MarkFirst(outbox);
      MarkKeepsTidy(outbox, log, row.id, row.notice);
      outbox := Marked(outbox, row.id);
    }

    /**
     `flush`, from any state a crash may have left.  It terminates, delivers every undispatched row
     in outbox order whatever the batch size, and reports how many it acknowledged.
     */
    method Flush(batch: int) returns (dispatched: Option<nat>)
      requires Tidy(outbox, log)
      modifies this
      ensures batch < 1 ==> dispatched == None && outbox == old(outbox) && log == old(log)
      ensures batch >= 1 ==> dispatched == Some(|old(Undispatched(outbox))|) && AllDispatched(outbox)
      ensures batch >= 1 ==> log == PutAll(old(log), old(Undispatched(outbox)))
      ensures Tidy(outbox, log) && SameRows(old(outbox), outbox)
    {
      hide Tidy, Undispatched, Put;
      if batch < 1 {
        return None;
      }
      var count := 0;
      while true
        invariant Tidy(outbox, log) && SameRows(old(outbox), outbox)
        invariant PutAll(log, Undispatched(outbox)) == PutAll(old(log), old(Undispatched(outbox)))
        invariant count + |Undispatched(outbox)| == |old(Undispatched(outbox))|
        decreases |Undispatched(outbox)|
      {
        var pending := Pending(outbox, batch);
        if pending == [] {
          break;
        }
        ghost var rest := Undispatched(outbox)[|pending|..];
        for i := 0 to |pending|
          invariant Tidy(outbox, log) && SameRows(old(outbox), outbox)
          invariant Undispatched(outbox) == pending[i..] + rest
          invariant PutAll(log, Undispatched(outbox)) == PutAll(old(log), old(Undispatched(outbox)))
          invariant count + |Undispatched(outbox)| == |old(Undispatched(outbox))|
        {
          NextPending(pending, i, rest);
          Dispatch(pending[i]);
          count := count + 1;
        }
        if |pending| < batch {
          assert rest == [];
          break;
        }
      }
      assert Undispatched(outbox) == [];
      NothingUndispatched(outbox);
      dispatched := Some(count);
    }
  }
}
