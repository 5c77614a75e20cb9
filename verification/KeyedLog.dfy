/**
 An append-only log whose rows carry an idempotency key.  The event ledger, the usage ledger and
 the policy outbox all write through the same rule: a key that is already present with the same
 body is a no-op, a key that is present with a different body is refused, a new key is appended.
 */
module KeyedLog {

  datatype Entry<B> = Entry(key: string, body: B)

  predicate Has<B(==)>(log: seq<Entry<B>>, key: string) {
    exists i :: 0 <= i < |log| && log[i].key == key
  }

  /** The key of `e` is taken by a row with another body. */
  predicate Clash<B(==)>(log: seq<Entry<B>>, e: Entry<B>) {
    exists i :: 0 <= i < |log| && log[i].key == e.key && log[i] != e
  }

  predicate UniqueKeys<B(==)>(log: seq<Entry<B>>) {
    forall i, j | 0 <= i < j < |log| :: log[i].key != log[j].key
  }

  function Put<B(==)>(log: seq<Entry<B>>, e: Entry<B>): seq<Entry<B>> {
    if Has(log, e.key) then log else log + [e]
  }

  /** What one uninterrupted writer of `specs[..n]` leaves in an empty log. */
  function Written<B(==)>(specs: seq<Entry<B>>, n: nat): seq<Entry<B>>
    requires n <= |specs|
  {
    if n == 0 then [] else Put(Written(specs, n - 1), specs[n - 1])
  }

  predicate Refused<B(==)>(specs: seq<Entry<B>>, i: nat)
    requires i < |specs|
  {
    Clash(Written(specs, i), specs[i])
  }

  /** The first of the first `n` rows that an uninterrupted writer is refused, or `n`. */
  function FirstClash<B(==)>(specs: seq<Entry<B>>, n: nat): (k: nat)
    requires n <= |specs|
    ensures k <= n
    ensures forall i | 0 <= i < k :: !Refused(specs, i)
    ensures k < n ==> Refused(specs, k)
  {
    if n == 0 then 0
    else
      var k := FirstClash(specs, n - 1);
      if k < n - 1 || Refused(specs, k) then k else n
  }

  /** The log lies between the first `lo` rows and the first `hi` rows of the writer's log. */
  predicate Between<B(==)>(specs: seq<Entry<B>>, lo: nat, log: seq<Entry<B>>, hi: nat)
    requires lo <= |specs| && hi <= |specs|
  {
    Written(specs, lo) <= log <= Written(specs, hi)
  }

  lemma {:induction false} WrittenGrows<B>(specs: seq<Entry<B>>, m: nat, n: nat)
    requires m <= n <= |specs|
    ensures Written(specs, m) <= Written(specs, n)
    ensures UniqueKeys(Written(specs, n))
    decreases n
  {
    if n > 0 {
      if m < n {
        WrittenGrows(specs, m, n - 1);
      } else {
        WrittenGrows(specs, n - 1, n - 1);
      }
    }
  }

  /**
   One write by a writer that has already done `m` rows, on a log that other writers of the same
   rows may have extended: it is not refused, and the log stays between the same bounds.
   */
  lemma {:induction false} WriteStep<B>(specs: seq<Entry<B>>, m: nat, log: seq<Entry<B>>, hi: nat)
    requires m < hi <= |specs|
    requires Between(specs, m, log, hi)
    requires !Refused(specs, m)
    ensures !Clash(log, specs[m])
    ensures Between(specs, m + 1, Put(log, specs[m]), hi)
  {
    var e, base, top := specs[m], Written(specs, m), Written(specs, hi);
    WrittenGrows(specs, m + 1, hi);
    if Has(base, e.key) {
      var k :| 0 <= k < |base| && base[k].key == e.key;
      assert base[k] == e;
      assert log[k] == e && top[k] == e;
    } else {
      assert Written(specs, m + 1)[|base|] == e;
      assert top[|base|] == e;
      if |log| > |base| {
        assert log[|base|] == e;
      } else {
        assert log == base;
        assert base + [e] == Written(specs, m + 1);
      }
    }
  }

  /** A row that an uninterrupted writer is refused is refused on every longer log as well. */
  lemma ClashPersists<B>(small: seq<Entry<B>>, log: seq<Entry<B>>, e: Entry<B>)
    requires small <= log && Clash(small, e)
    ensures Clash(log, e)
  {
    var i :| 0 <= i < |small| && small[i].key == e.key && small[i] != e;
    assert log[i] == small[i];
  }

  /** With distinct keys nothing is dropped and nothing is refused. */
  lemma {:induction false} WrittenOfDistinct<B>(specs: seq<Entry<B>>, n: nat)
    requires n <= |specs| && UniqueKeys(specs)
    ensures Written(specs, n) == specs[..n]
    ensures n < |specs| ==> !Refused(specs, n)
  {
    if n > 0 {
      WrittenOfDistinct(specs, n - 1);
    }
  }
}
