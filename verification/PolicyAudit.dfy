/**
 The policy store and its audit bridge together.  Every policy operation enqueues its notice in its own
 transaction, while flushers deliver what is there and may crash between any two steps: the outbox of the
 bridge is at every moment exactly what the policy operations committed.
 */
module PolicyAudit {
  import opened Wrappers
  import opened KeyedLog
  import M = PolicyMemory
  import O = PolicyOutbox
  import Decimal
  import EventLedger

  /** How a notice is rendered: its idempotency key, its row id and the event it becomes. */
  datatype Rendering = Rendering(id: M.NoticeKey -> string, notice: M.NoticeKey -> O.Notice)

  /** Different notices among `keys` have different row ids and different idempotency keys. */
  ghost predicate Injective(r: Rendering, keys: seq<M.NoticeKey>) {
    forall k, l | k in keys && l in keys && k != l :: r.id(k) != r.id(l) && r.notice(k).key != r.notice(l).key
  }

  lemma InjectivePart(r: Rendering, part: seq<M.NoticeKey>, keys: seq<M.NoticeKey>)
    requires Injective(r, keys) && part <= keys
    ensures Injective(r, part)
  {
    assert forall k | k in part :: k in keys;
  }

  datatype Joint =
    | Policy(operation: M.Action, at: nat)    // its notices land at this place of the clock order, if there is one
    | Bridge(step: O.Action)

  /** A refresh lists every strategy once; the bridge does not enqueue. */
  predicate Proper(j: Joint) {
    match j
    case Policy(a, _) => a.Refresh? ==> M.ListsOnce(a.order)
    case Bridge(b) => !b.Enqueue?
  }

  function MemoryAfter(bound: M.Bound, js: seq<Joint>): M.Memory {
    if js == [] then M.EMPTY
    else
      var m := MemoryAfter(bound, js[..|js| - 1]);
      match js[|js| - 1]
      case Policy(a, _) => M.Do(m, bound, a)
      case Bridge(_) => m
  }

  /** What an operation added to the outbox. */
  function NewNotices(m: M.Memory, n: M.Memory): seq<M.NoticeKey> {
    if |m.outbox| <= |n.outbox| then n.outbox[|m.outbox|..] else []
  }

  function Enqueues(r: Rendering, keys: seq<M.NoticeKey>, at: nat, size: nat): seq<O.Action> {
    if keys == [] then []
    else
      var n := |keys| - 1;
      Enqueues(r, keys[..n], at, size) + [O.Enqueue(Min(at, size + n), r.id(keys[n]), r.notice(keys[n]))]
  }

  /** The joint run as the bridge sees it. */
  function Trace(bound: M.Bound, r: Rendering, js: seq<Joint>): seq<O.Action> {
    if js == [] then []
    else
      var before, m := js[..|js| - 1], MemoryAfter(bound, js[..|js| - 1]);
      Trace(bound, r, before)
      + match js[|js| - 1]
        case Policy(a, at) => Enqueues(r, NewNotices(m, M.Do(m, bound, a)), at, |m.outbox|)
        case Bridge(b) => [b]
  }

  // ---------------------------------------------------------------- the two outboxes agree

  /** The rows of the bridge are the notices of the store, each once. */
  ghost predicate Mirrors(r: Rendering, keys: seq<M.NoticeKey>, outbox: seq<O.Row>) {
    && |outbox| == |keys|
    && (forall k | k in keys :: O.Holds(outbox, r.id(k), r.notice(k)))
    && (forall i | 0 <= i < |outbox| :: Renders(r, keys, outbox[i]))
  }

  ghost predicate Renders(r: Rendering, keys: seq<M.NoticeKey>, row: O.Row) {
    exists k | k in keys :: row.id == r.id(k) && row.notice == r.notice(k)
  }

  lemma NotTaken(r: Rendering, keys: seq<M.NoticeKey>, outbox: seq<O.Row>, k: M.NoticeKey)
    requires Injective(r, keys + [k]) && Mirrors(r, keys, outbox) && k !in keys
    ensures !O.Taken(outbox, r.id(k), r.notice(k).key)
  {
    forall i | 0 <= i < |outbox|
      ensures outbox[i].id != r.id(k) && outbox[i].notice.key != r.notice(k).key
    {
      assert Renders(r, keys, outbox[i]);
      var l :| l in keys && outbox[i].id == r.id(l) && outbox[i].notice == r.notice(l);
      assert l != k && l in keys + [k] && k in keys + [k];
    }
  }

  lemma EnqueueMirrors(r: Rendering, keys: seq<M.NoticeKey>, outbox: seq<O.Row>, k: M.NoticeKey, at: nat)
    requires Injective(r, keys + [k]) && Mirrors(r, keys, outbox) && k !in keys && at <= |outbox|
    ensures Mirrors(r, keys + [k], O.Enqueued(outbox, at, r.id(k), r.notice(k)))
  {
    hide Injective, O.Holds, Renders;
    NotTaken(r, keys, outbox, k);
    var after := O.Enqueued(outbox, at, r.id(k), r.notice(k));
    forall l | l in keys + [k]
      ensures O.Holds(after, r.id(l), r.notice(l))
    {
      if l == k {
        HeldAt(after, at);
      } else {
        O.EnqueuedHolds(outbox, at, r.id(k), r.notice(k), r.id(l), r.notice(l));
      }
    }
    forall i | 0 <= i < |after|
      ensures Renders(r, keys + [k], after[i])
    {
      if i == at {
        RendersItself(r, keys + [k], k, after[i]);
      } else {
        RendersMore(r, keys, k, outbox[if i < at then i else i - 1]);
      }
    }
  }

  lemma HeldAt(outbox: seq<O.Row>, i: nat)
    requires i < |outbox|
    ensures O.Holds(outbox, outbox[i].id, outbox[i].notice)
  {
  }

  lemma RendersItself(r: Rendering, keys: seq<M.NoticeKey>, k: M.NoticeKey, row: O.Row)
    requires k in keys && row.id == r.id(k) && row.notice == r.notice(k)
    ensures Renders(r, keys, row)
  {
  }

  lemma RendersMore(r: Rendering, keys: seq<M.NoticeKey>, k: M.NoticeKey, row: O.Row)
    requires Renders(r, keys, row)
    ensures Renders(r, keys + [k], row)
  {
  }

  lemma {:induction false} EnqueuesMirror(r: Rendering, keys: seq<M.NoticeKey>, s: O.State, more: seq<M.NoticeKey>, at: nat)
    requires Injective(r, keys + more) && Mirrors(r, keys, s.outbox) && M.Unrepeated(keys + more)
    ensures Mirrors(r, keys + more, O.Run(s, Enqueues(r, more, at, |keys|)).outbox)
  {
    hide Injective, Mirrors, O.Enqueued, O.Run, M.Unrepeated;
    if more == [] {
      assert keys + more == keys;
      NoStep(s);
    } else {
      var n := |more| - 1;
      LastIsNew(keys, more);
      assert keys + more == keys + more[..n] + [more[n]];
      InjectivePart(r, keys + more[..n], keys + more);
      EnqueuesMirror(r, keys, s, more[..n], at);
      var before := Enqueues(r, more[..n], at, |keys|);
      var e := O.Enqueue(Min(at, |keys| + n), r.id(more[n]), r.notice(more[n]));
      O.RunOver(s, before, [e]);
      O.OneStep(O.Run(s, before), e);
      MirrorSize(r, keys + more[..n], O.Run(s, before).outbox);
      EnqueueMirrors(r, keys + more[..n], O.Run(s, before).outbox, more[n], Min(at, |keys| + n));
      assert keys + more == keys + more[..n] + [more[n]];
    }
  }

  lemma NoStep(s: O.State)
    ensures O.Run(s, []) == s
  {
  }

  lemma LastIsNew(keys: seq<M.NoticeKey>, more: seq<M.NoticeKey>)
    requires M.Unrepeated(keys + more) && more != []
    ensures var n := |more| - 1; M.Unrepeated(keys + more[..n]) && more[n] !in keys + more[..n]
  {
    var n := |more| - 1;
    var all, before := keys + more, keys + more[..n];
    assert all[|all| - 1] == more[n];
    assert before == all[..|all| - 1];
    forall i | 0 <= i < |before|
      ensures before[i] != more[n]
    {
      assert before[i] == all[i];
    }
  }

  lemma MirrorSize(r: Rendering, keys: seq<M.NoticeKey>, outbox: seq<O.Row>)
    requires Mirrors(r, keys, outbox)
    ensures |outbox| == |keys|
  {
  }

  lemma BridgeMirrors(r: Rendering, keys: seq<M.NoticeKey>, s: O.State, b: O.Action)
    requires Mirrors(r, keys, s.outbox) && !b.Enqueue?
    ensures Mirrors(r, keys, O.Do(s, b).outbox)
  {
    hide Put, Clash, O.Pending, O.Known;
    var after := O.Do(s, b).outbox;
    assert |after| == |s.outbox|;
    assert forall i | 0 <= i < |after| :: after[i].id == s.outbox[i].id && after[i].notice == s.outbox[i].notice;
    forall k | k in keys
      ensures O.Holds(after, r.id(k), r.notice(k))
    {
      var i :| 0 <= i < |s.outbox| && s.outbox[i].id == r.id(k) && s.outbox[i].notice == r.notice(k);
      assert after[i].id == r.id(k);
    }
    forall i | 0 <= i < |after|
      ensures Renders(r, keys, after[i])
    {
      assert Renders(r, keys, s.outbox[i]);
    }
  }

  // ---------------------------------------------------------------- joint runs

  lemma ShorterIsProper(js: seq<Joint>, n: nat)
    requires n <= |js| && forall j | j in js :: Proper(j)
    ensures forall j | j in js[..n] :: Proper(j)
  {
  }

  lemma NewAre(m: M.Memory, n: M.Memory)
    requires m.outbox <= n.outbox
    ensures m.outbox + NewNotices(m, n) == n.outbox
  {
  }

  /** No notice is committed twice. */
  lemma {:induction false} CommittedOnce(bound: M.Bound, js: seq<Joint>)
    requires forall j | j in js :: Proper(j)
    ensures M.Unrepeated(MemoryAfter(bound, js).outbox)
  {
    hide M.Do, M.Unrepeated, M.ListsOnce;
    if js == [] {
      M.NothingEnqueued();
    } else {
      var n := |js| - 1;
      ShorterIsProper(js, n);
      CommittedOnce(bound, js[..n]);
      assert Proper(js[n]);
      if js[n].Policy? {
        M.DoEnqueuesOnce(MemoryAfter(bound, js[..n]), bound, js[n].operation);
      }
    }
  }

  /**
   In every joint run, whatever crashes and races there are: the rows of the bridge's outbox are the notices
   that the policy operations committed, each exactly once; none is lost or refused as taken.
   */
  lemma {:induction false} OutboxesAgree(bound: M.Bound, r: Rendering, js: seq<Joint>)
    requires (forall j | j in js :: Proper(j)) && Injective(r, MemoryAfter(bound, js).outbox)
    ensures M.Unrepeated(MemoryAfter(bound, js).outbox)
    ensures Mirrors(r, MemoryAfter(bound, js).outbox, O.Run(O.START, Trace(bound, r, js)).outbox)
  {
    hide M.Do, M.Unrepeated, M.ListsOnce, Injective, Mirrors, Enqueues, NewNotices, O.Run, O.Do;
    CommittedOnce(bound, js);
    if js == [] {
      NothingYet(r);
    } else {
      var n := |js| - 1;
      ShorterIsProper(js, n);
      CommittedOnce(bound, js[..n]);
      var m, s := MemoryAfter(bound, js[..n]), O.Run(O.START, Trace(bound, r, js[..n]));
      assert Proper(js[n]);
      match js[n] {
        case Policy(a, at) =>
          M.DoEnqueuesOnce(m, bound, a);
          InjectivePart(r, m.outbox, M.Do(m, bound, a).outbox);
          OutboxesAgree(bound, r, js[..n]);
          NewAre(m, M.Do(m, bound, a));
          var more := NewNotices(m, M.Do(m, bound, a));
          EnqueuesMirror(r, m.outbox, s, more, at);
          O.RunOver(O.START, Trace(bound, r, js[..n]), Enqueues(r, more, at, |m.outbox|));
        case Bridge(b) =>
          OutboxesAgree(bound, r, js[..n]);
          BridgeMirrors(r, m.outbox, s, b);
          O.RunOver(O.START, Trace(bound, r, js[..n]), [b]);
          O.OneStep(s, b);
      }
    }
  }

  lemma NothingYet(r: Rendering)
    ensures M.Unrepeated(M.EMPTY.outbox) && Mirrors(r, M.EMPTY.outbox, O.Run(O.START, []).outbox)
  {
  }

  lemma {:induction false} BridgeStepsMirror(r: Rendering, keys: seq<M.NoticeKey>, s: O.State, during: seq<O.Action>)
    requires Mirrors(r, keys, s.outbox) && forall i | 0 <= i < |during| :: !during[i].Enqueue?
    ensures Mirrors(r, keys, O.Run(s, during).outbox)
  {
    hide O.Do, Mirrors;
    if during != [] {
      var n := |during| - 1;
      BridgeStepsMirror(r, keys, s, during[..n]);
      BridgeMirrors(r, keys, O.Run(s, during[..n]), during[n]);
    }
  }

  /** The event of every notice is in the ledger, and the ledger holds nothing else; each is there once. */
  ghost predicate Audited(r: Rendering, keys: seq<M.NoticeKey>, log: seq<O.Notice>) {
    && UniqueKeys(log)
    && (forall k | k in keys :: r.notice(k) in log)
    && (forall n | n in log :: exists k | k in keys :: n == r.notice(k))
  }

  /**
   Exactly once, from the policy operation to the ledger: after any joint run, a flush that finishes with no
   operation in between leaves a ledger with the event of every committed notice, once, and of nothing else.
   */
  lemma EveryNoticeIsAudited(bound: M.Bound, r: Rendering, js: seq<Joint>, during: seq<O.Action>, f: string)
    requires (forall j | j in js :: Proper(j)) && Injective(r, MemoryAfter(bound, js).outbox)
    requires forall i | 0 <= i < |during| :: !during[i].Enqueue?
    requires O.Run(O.START, Trace(bound, r, js)).PcOf(f).Resting?
    requires O.Run(O.Run(O.START, Trace(bound, r, js)), during).PcOf(f).Finished?
    ensures Audited(r, MemoryAfter(bound, js).outbox, O.Run(O.Run(O.START, Trace(bound, r, js)), during).log)
  {
    hide O.Run, Trace, MemoryAfter, Injective, O.AllDispatched, O.Holds, Renders;
    var keys, before := MemoryAfter(bound, js).outbox, O.Run(O.START, Trace(bound, r, js));
    var s := O.Run(before, during);
    OutboxesAgree(bound, r, js);
    BridgeStepsMirror(r, keys, before, during);
    O.FinishedFlushDeliveredAll(Trace(bound, r, js), during, f);
    O.RunOver(O.START, Trace(bound, r, js), during);
    O.EachNoticeExactlyOnce(Trace(bound, r, js) + during);
    forall k | k in keys
      ensures r.notice(k) in s.log
    {
      var i := RowOf(s.outbox, r.id(k), r.notice(k));
    }
    forall n | n in s.log
      ensures exists k | k in keys :: n == r.notice(k)
    {
      var id :| O.Holds(s.outbox, id, n);
      var i := RowOf(s.outbox, id, n);
      NoticeOfRow(r, keys, s.outbox[i]);
    }
  }

  lemma RowOf(outbox: seq<O.Row>, id: string, n: O.Notice) returns (i: nat)
    requires O.Holds(outbox, id, n)
    ensures i < |outbox| && outbox[i].id == id && outbox[i].notice == n
  {
    i :| 0 <= i < |outbox| && outbox[i].id == id && outbox[i].notice == n;
  }

  lemma NoticeOfRow(r: Rendering, keys: seq<M.NoticeKey>, row: O.Row)
    requires Renders(r, keys, row)
    ensures exists k | k in keys :: row.notice == r.notice(k)
  {
  }

  /** After any joint run such a flush is to be had: the flusher starts over and is left alone. */
  lemma AuditRecovers(bound: M.Bound, r: Rendering, js: seq<Joint>, f: string)
    requires (forall j | j in js :: Proper(j)) && Injective(r, MemoryAfter(bound, js).outbox)
    ensures var s := O.Do(O.Run(O.START, Trace(bound, r, js)), O.Crash(f));
      Audited(r, MemoryAfter(bound, js).outbox, O.Run(s, O.FlushOf(s, f)).log)
  {
    hide O.Run, MemoryAfter, Injective, O.FlushOf, Audited, O.Inv, Proper;
    var again := js + [Bridge(O.Crash(f))];
    var s := O.Do(O.Run(O.START, Trace(bound, r, js)), O.Crash(f));
    OneMoreBridge(bound, r, js, O.Crash(f));
    CrashIsProper(f);
    O.StartInv();
    O.RunKeeps(O.START, Trace(bound, r, again));
    O.FlushFinishes(s, f);
    EveryNoticeIsAudited(bound, r, again, O.FlushOf(s, f), f);
  }

  lemma CrashIsProper(f: string)
    ensures Proper(Bridge(O.Crash(f)))
  {
  }

  lemma OneMoreBridge(bound: M.Bound, r: Rendering, js: seq<Joint>, b: O.Action)
    ensures MemoryAfter(bound, js + [Bridge(b)]) == MemoryAfter(bound, js)
    ensures O.Run(O.START, Trace(bound, r, js + [Bridge(b)])) == O.Do(O.Run(O.START, Trace(bound, r, js)), b)
  {
    hide O.Do, O.Run;
    assert (js + [Bridge(b)])[..|js|] == js;
    O.RunOver(O.START, Trace(bound, r, js), [b]);
    O.OneStep(O.Run(O.START, Trace(bound, r, js)), b);
  }

  // ---------------------------------------------------------------- renderings exist

  function IndexOf(keys: seq<M.NoticeKey>, k: M.NoticeKey): (i: nat)
    ensures k in keys ==> i < |keys| && keys[i] == k
  {
    if keys == [] || keys[0] == k then 0 else 1 + IndexOf(keys[1..], k)
  }

  /** Ids and keys by position among `keys`. */
  function ByPosition(keys: seq<M.NoticeKey>): Rendering {
    Rendering((k: M.NoticeKey) => Decimal.Numeral(IndexOf(keys, k)),
              (k: M.NoticeKey) => Entry(Decimal.Numeral(IndexOf(keys, k)), EventLedger.Semantics("", "", "", "", "", "")))
  }

  /** For every run there is a rendering that tells its notices apart, and under it they are all audited. */
  lemma EveryRunCanBeAudited(bound: M.Bound, js: seq<Joint>, f: string)
    requires forall j | j in js :: Proper(j)
    ensures var keys := MemoryAfter(bound, js).outbox;
      var s := O.Do(O.Run(O.START, Trace(bound, ByPosition(keys), js)), O.Crash(f));
      Injective(ByPosition(keys), keys) && Audited(ByPosition(keys), keys, O.Run(s, O.FlushOf(s, f)).log)
  {
    hide O.Run, MemoryAfter, Trace, O.FlushOf, Audited, Proper;
    var keys := MemoryAfter(bound, js).outbox;
    ByPositionIsInjective(keys);
    AuditRecovers(bound, ByPosition(keys), js, f);
  }

  lemma ByPositionIsInjective(keys: seq<M.NoticeKey>)
    ensures Injective(ByPosition(keys), keys)
  {
    forall k, l | k in keys && l in keys && k != l
      ensures Decimal.Numeral(IndexOf(keys, k)) != Decimal.Numeral(IndexOf(keys, l))
    {
      if Decimal.Numeral(IndexOf(keys, k)) == Decimal.Numeral(IndexOf(keys, l)) {
        Decimal.NumeralInjective(IndexOf(keys, k), IndexOf(keys, l));
      }
    }
  }

  /** A proposal, three applications with their outcomes, and the refresh that promotes the strategy. */
  function Promotion(): seq<M.Action> {
    M.PromisingRun() + [M.Refresh(3, 0.2, 0.05, ["s"])]
  }

  function Policies(actions: seq<M.Action>): (js: seq<Joint>)
    ensures |js| == |actions| && forall i | 0 <= i < |js| :: js[i] == Policy(actions[i], 0)
  {
    seq(|actions|, i requires 0 <= i < |actions| => Policy(actions[i], 0))
  }

  lemma {:induction false} PoliciesRun(bound: M.Bound, actions: seq<M.Action>)
    ensures MemoryAfter(bound, Policies(actions)) == M.Run(M.EMPTY, bound, actions)
  {
    hide M.Do;
    if actions != [] {
      var n := |actions| - 1;
      PoliciesRun(bound, actions[..n]);
      assert Policies(actions)[..n] == Policies(actions[..n]);
    }
  }

  /** Eight notices, the change of status among them, committed and audited. */
  lemma PromotionIsAudited(bound: M.Bound, f: string)
    requires 0.2 <= bound(3, 3) < 0.9
    ensures var keys := MemoryAfter(bound, Policies(Promotion())).outbox;
      var s := O.Do(O.Run(O.START, Trace(bound, ByPosition(keys), Policies(Promotion()))), O.Crash(f));
      && |keys| == 8 && keys[7].Changed?
      && Audited(ByPosition(keys), keys, O.Run(s, O.FlushOf(s, f)).log)
  {
    hide O.Run, MemoryAfter, Trace, O.FlushOf, Audited, M.Run, M.TargetOf, M.MovesOver, O.Do, ByPosition, Injective;
    var actions, m, rule := Promotion(), M.Promising(), M.Rule(3, 0.2, 0.05, bound);
    PoliciesRun(bound, actions);
    M.PromisingIsReached(bound);
    M.PromisingTargets(bound);
    M.BothRefreshesPass(m, rule, M.Rule(3, 0.9, 0.05, bound), "s");
    M.OneMove(m, rule, "s");
    assert M.MovesOver(m, rule, ["s"]) == [M.Changed(M.MoveOf(m, rule, "s"))];
    assert actions[..7] == M.PromisingRun();
    M.RunStep(bound, actions, 7, m, M.AfterRefresh(m, rule, ["s"]).value);
    assert actions[..8] == actions;
    EveryRunCanBeAudited(bound, Policies(actions), f);
  }
}
