/**
 The append-only, hash-chained event ledger: `src/core/events.py` and `src/evidence/ledger.py`.
 The digest of an unsigned event, the recognition of zoned timestamps and the durable-payload
 check are parameters, so every result holds for any choice of them.
 */
module EventLedger {
  import opened Wrappers
  import opened KeyedLog

  /** The meaning of an event, which a replay under the same idempotency key must repeat. */
  datatype Semantics<P> = Semantics(
    tenantId: string, jobId: string, aggregateType: string, aggregateId: string,
    eventType: string, payload: P)

  datatype Unsigned<P> = Unsigned(
    schemaVersion: int, sequence: int, eventId: string, occurredAt: string,
    meaning: Semantics<P>, idempotencyKey: string, previousHash: string)

  datatype Event<P> = Event(content: Unsigned<P>, eventHash: string)

  /** The hash of canonical JSON, ISO-8601 recognition and the payload check. */
  datatype Codec<!P> = Codec(
    sha: Unsigned<P> -> string, zoned: string -> bool, durable: P -> bool)

  /** One line of the ledger file, as the JSON reader sees it. */
  datatype Line<P> = Whitespace | Garbled | Record(event: Event<P>)

  datatype LedgerError = BadLine(line: nat) | KeyConflict | StaleHead | InvalidEvent

  const SCHEMA_VERSION := 1

  predicate Hex64(s: string) {
    |s| == 64 && forall i | 0 <= i < 64 :: '0' <= s[i] <= '9' || 'a' <= s[i] <= 'f'
  }

  /** `EventEnvelope.validate`. */
  predicate Valid<P>(c: Codec<P>, e: Event<P>) {
    var u := e.content;
    && u.schemaVersion == SCHEMA_VERSION
    && u.sequence >= 1
    && !Blank(u.eventId) && !Blank(u.occurredAt) && !Blank(u.meaning.tenantId)
    && !Blank(u.meaning.jobId) && !Blank(u.meaning.aggregateType)
    && !Blank(u.meaning.aggregateId) && !Blank(u.meaning.eventType) && !Blank(u.idempotencyKey)
    && c.zoned(u.occurredAt)
    && c.durable(u.meaning.payload)
    && (u.previousHash == "" || Hex64(u.previousHash))
    && Hex64(e.eventHash)
    && c.sha(u) == e.eventHash
  }

  function Head<P>(events: seq<Event<P>>): string {
    if events == [] then "" else events[|events| - 1].eventHash
  }

  ghost predicate FreshId<P>(events: seq<Event<P>>, id: string) {
    forall i | 0 <= i < |events| :: events[i].content.eventId != id
  }

  ghost predicate FreshKey<P>(events: seq<Event<P>>, key: string) {
    forall i | 0 <= i < |events| :: events[i].content.idempotencyKey != key
  }

  /** `e` may follow `events`. */
  ghost predicate Linked<P>(c: Codec<P>, events: seq<Event<P>>, e: Event<P>) {
    && Valid(c, e)
    && e.content.sequence == |events| + 1
    && e.content.previousHash == Head(events)
    && FreshId(events, e.content.eventId)
    && FreshKey(events, e.content.idempotencyKey)
  }

  /** What a complete, untouched ledger satisfies. */
  ghost predicate Chained<P>(c: Codec<P>, events: seq<Event<P>>) {
    events == []
    || (var n := |events| - 1; Chained(c, events[..n]) && Linked(c, events[..n], events[n]))
  }

  function Recorded<P>(lines: seq<Line<P>>): (events: seq<Event<P>>) {
    if lines == [] then []
    else
      var last := lines[|lines| - 1];
      Recorded(lines[..|lines| - 1]) + if last.Record? then [last.event] else []
  }

  ghost predicate Verifies<P>(c: Codec<P>, lines: seq<Line<P>>) {
    (forall i | 0 <= i < |lines| :: !lines[i].Garbled?) && Chained(c, Recorded(lines))
  }

  /** The number, from 1, of the first line at which reading stops. */
  ghost function FirstBad<P>(c: Codec<P>, lines: seq<Line<P>>): (n: nat)
    requires !Verifies(c, lines)
  {
    if |lines| > 0 && !Verifies(c, lines[..|lines| - 1]) then FirstBad(c, lines[..|lines| - 1]) else |lines|
  }

  lemma {:induction false} FirstBadSplits<P>(c: Codec<P>, lines: seq<Line<P>>)
    requires !Verifies(c, lines)
    ensures var n := FirstBad(c, lines);
      1 <= n <= |lines| && Verifies(c, lines[..n - 1]) && !Verifies(c, lines[..n])
  {
    hide Verifies;
    EmptyVerifies(c);
    Whole(lines);
    if |lines| > 0 && !Verifies(c, lines[..|lines| - 1]) {
      FirstBadSplits(c, lines[..|lines| - 1]);
      PrefixOfPrefix(lines, |lines| - 1, FirstBad(c, lines));
      PrefixOfPrefix(lines, |lines| - 1, FirstBad(c, lines) - 1);
    }
  }

  lemma Whole<P>(lines: seq<Line<P>>)
    ensures lines[..|lines|] == lines
  {
  }

  lemma PrefixOfPrefix<P>(lines: seq<Line<P>>, m: nat, n: nat)
    requires n <= m <= |lines|
    ensures lines[..m][..n] == lines[..n]
  {
  }

  /** The events as rows of an idempotent log. */
  function Rows<P>(events: seq<Event<P>>): (rows: seq<Entry<Semantics<P>>>)
    ensures |rows| == |events|
  {
    seq(|events|, i requires 0 <= i < |events| => Row(events[i]))
  }

  function Row<P>(e: Event<P>): Entry<Semantics<P>> {
    Entry(e.content.idempotencyKey, e.content.meaning)
  }

  /** `EventEnvelope.build` at the end of `events`, before validation. */
  function Seal<P>(c: Codec<P>, events: seq<Event<P>>, draft: Entry<Semantics<P>>, id: string, at: string): Event<P> {
    var u := Unsigned(SCHEMA_VERSION, |events| + 1, id, at, draft.body, draft.key, Head(events));
    Event(u, c.sha(u))
  }

  /** The outcome of `append` and the lines it leaves behind. */
  ghost function AppendSpec<P>(c: Codec<P>, lines: seq<Line<P>>, draft: Entry<Semantics<P>>,
                                   id: string, at: string, expectedHead: Option<string>)
    : (Result<Event<P>, LedgerError>, seq<Line<P>>)
  {
    var events := Recorded(lines);
    var sealed := Seal(c, events, draft, id, at);
    if !Verifies(c, lines) then (Failure(BadLine(FirstBad(c, lines))), lines)
    else if Clash(Rows(events), draft) then (Failure(KeyConflict), lines)
    else if i :| 0 <= i < |events| && Row(events[i]) == draft then (Success(events[i]), lines)
    else if expectedHead.Some? && expectedHead.value != Head(events) then (Failure(StaleHead), lines)
    else if !Valid(c, sealed) then (Failure(InvalidEvent), lines)
    else (Success(sealed), lines + [Record(sealed)])
  }

  // ---------------------------------------------------------------- the head fixes the ledger

  /** Events `i` of `a` and `j` of `b` differ but have one digest, and all that follows them is the same. */
  ghost predicate CollideAt<P>(c: Codec<P>, a: seq<Event<P>>, b: seq<Event<P>>, i: nat, j: nat) {
    && i < |a| && j < |b|
    && a[i].content != b[j].content
    && c.sha(a[i].content) == a[i].eventHash == b[j].eventHash == c.sha(b[j].content)
    && a[i + 1..] == b[j + 1..]
  }

  /** The two ledgers hold a collision of the digest between them. */
  ghost predicate Collide<P>(c: Codec<P>, a: seq<Event<P>>, b: seq<Event<P>>) {
    exists i, j | 0 <= i < |a| && 0 <= j < |b| :: CollideAt(c, a, b, i, j)
  }

  /** A collision in the ledgers without their last event is one in the whole ledgers. */
  lemma CollisionStands<P>(c: Codec<P>, a: seq<Event<P>>, b: seq<Event<P>>)
    requires a != [] && b != [] && a[|a| - 1] == b[|b| - 1]
    requires Collide(c, a[..|a| - 1], b[..|b| - 1])
    ensures Collide(c, a, b)
  {
    var m, n := |a| - 1, |b| - 1;
    var i, j :| 0 <= i < m && 0 <= j < n && CollideAt(c, a[..m], b[..n], i, j);
    assert a[i + 1..] == a[..m][i + 1..] + [a[m]] && b[j + 1..] == b[..n][j + 1..] + [b[n]];
    assert CollideAt(c, a, b, i, j);
  }

  lemma LastIsLinked<P>(c: Codec<P>, events: seq<Event<P>>)
    requires Chained(c, events) && events != []
    ensures var n := |events| - 1; Chained(c, events[..n]) && Linked(c, events[..n], events[n])
  {
    hide Linked;
  }

  /** What the last event of a chain fixes. */
  lemma LastLink<P>(c: Codec<P>, events: seq<Event<P>>)
    requires Chained(c, events) && events != []
    ensures var n := |events| - 1;
      && Chained(c, events[..n])
      && events[n].content.previousHash == Head(events[..n])
      && Head(events) == events[n].eventHash == c.sha(events[n].content)
      && Head(events) != ""
  {
    hide Chained;
    LastIsLinked(c, events);
  }

  /**
   Two ledgers that verify and end in the same hash are the same, event for event, unless two of
   their own events differ and have one digest.  Nothing is assumed of the digest itself.
   */
  lemma {:induction false} HeadFixesLedger<P>(c: Codec<P>, a: seq<Event<P>>, b: seq<Event<P>>)
    requires Chained(c, a) && Chained(c, b) && Head(a) == Head(b)
    ensures a == b || Collide(c, a, b)
    decreases |a|
  {
    hide Chained, Head, Collide;
    if a != [] {
      LastLink(c, a);
    }
    if b != [] {
      LastLink(c, b);
    }
    assert Head<P>([]) == "" by { NoHead<P>(); }
    if a != [] && b != [] {
      var m, n := |a| - 1, |b| - 1;
      if a[m].content == b[n].content {
        HeadFixesLedger(c, a[..m], b[..n]);
        assert a == a[..m] + [a[m]] && b == b[..n] + [b[n]];
        if a != b {
          CollisionStands(c, a, b);
        }
      } else {
        LastCollides(c, a, b);
      }
    }
  }

  lemma LastCollides<P>(c: Codec<P>, a: seq<Event<P>>, b: seq<Event<P>>)
    requires a != [] && b != []
    requires var (x, y) := (a[|a| - 1], b[|b| - 1]);
      x.content != y.content && c.sha(x.content) == x.eventHash == y.eventHash == c.sha(y.content)
    ensures Collide(c, a, b)
  {
    assert CollideAt(c, a, b, |a| - 1, |b| - 1);
  }

  lemma NoHead<P>()
    ensures Head<P>([]) == ""
  {
  }

  // ---------------------------------------------------------------- append

  lemma {:induction false} ChainedPrefix<P>(c: Codec<P>, events: seq<Event<P>>, n: nat)
    requires n <= |events| && Chained(c, events)
    ensures Chained(c, events[..n])
    decreases |events|
  {
    hide Linked;
    if n < |events| {
      ChainedPrefix(c, events[..|events| - 1], n);
      assert events[..|events| - 1][..n] == events[..n];
    } else {
      assert events[..n] == events;
    }
  }

  lemma {:induction false} RecordedOfPrefix<P>(lines: seq<Line<P>>, n: nat)
    requires n <= |lines|
    ensures Recorded(lines[..n]) <= Recorded(lines)
    decreases |lines|
  {
    if n < |lines| {
      RecordedOfPrefix(lines[..|lines| - 1], n);
      assert lines[..|lines| - 1][..n] == lines[..n];
    } else {
      assert lines[..n] == lines;
    }
  }

  lemma VerifiesPrefix<P>(c: Codec<P>, lines: seq<Line<P>>, n: nat)
    requires n <= |lines| && Verifies(c, lines)
    ensures Verifies(c, lines[..n])
  {
    RecordedOfPrefix(lines, n);
    var some, all := Recorded(lines[..n]), Recorded(lines);
    ChainedPrefix(c, all, |some|);
    assert all[..|some|] == some;
  }

  lemma VerifiesSnoc<P>(c: Codec<P>, lines: seq<Line<P>>, l: Line<P>)
    ensures Recorded(lines + [l]) == Recorded(lines) + if l.Record? then [l.event] else []
    ensures Verifies(c, lines) ==>
      (Verifies(c, lines + [l]) <==> !l.Garbled? && (l.Record? ==> Linked(c, Recorded(lines), l.event)))
  {
    var all := lines + [l];
    assert all[..|lines|] == lines && all[|lines|] == l;
    var events := Recorded(lines);
    if l.Record? {
      var longer := events + [l.event];
      assert longer[..|events|] == events && longer[|events|] == l.event;
      assert Recorded(all) == longer;
    } else {
      assert Recorded(all) == events;
    }
  }

  lemma {:induction false} ChainedKeys<P>(c: Codec<P>, events: seq<Event<P>>)
    requires Chained(c, events)
    ensures UniqueKeys(Rows(events))
  {
    if events != [] {
      var n := |events| - 1;
      ChainedKeys(c, events[..n]);
      forall i, j | 0 <= i < j < |events| ensures Rows(events)[i].key != Rows(events)[j].key {
        if j < n {
          assert Rows(events[..n])[i].key != Rows(events[..n])[j].key;
        } else {
          assert events[..n][i].content.idempotencyKey != events[n].content.idempotencyKey;
        }
      }
    }
  }

  /** `append` finds the stored row, refuses a clash, or sees an unused key. */
  lemma KeyCases<P>(events: seq<Event<P>>, draft: Entry<Semantics<P>>)
    ensures FreshKey(events, draft.key) <==> !Has(Rows(events), draft.key)
    ensures Has(Rows(events), draft.key) ==>
      Clash(Rows(events), draft) || exists i :: 0 <= i < |events| && Row(events[i]) == draft
    ensures !Has(Rows(events), draft.key) ==>
      !Clash(Rows(events), draft) && !exists i :: 0 <= i < |events| && Row(events[i]) == draft
  {
    var rows := Rows(events);
    if !FreshKey(events, draft.key) {
      var i :| 0 <= i < |events| && events[i].content.idempotencyKey == draft.key;
      assert rows[i].key == draft.key;
    }
    if Has(rows, draft.key) {
      var i :| 0 <= i < |rows| && rows[i].key == draft.key;
      assert events[i].content.idempotencyKey == draft.key;
      assert rows[i] == Row(events[i]);
    }
  }

  /**
   `append` on a ledger that verifies.  The old file is a prefix of the new one; what is refused
   changes nothing; and the file still verifies exactly when nothing was written or the event id
   was fresh, which `append` itself does not check.
   */
  lemma AppendKeepsLedger<P>(c: Codec<P>, lines: seq<Line<P>>, draft: Entry<Semantics<P>>,
                             id: string, at: string, expectedHead: Option<string>)
    requires Verifies(c, lines)
    ensures var (r, after) := AppendSpec(c, lines, draft, id, at, expectedHead);
      && lines <= after
      && (r.Failure? ==> after == lines)
      && (Verifies(c, after) <==> after == lines || FreshId(Recorded(lines), id))
  {
    hide Chained, FreshId;
    var events := Recorded(lines);
    KeyCases(events, draft);
    VerifiesSnoc(c, lines, Record(Seal(c, events, draft, id, at)));
  }

  /** Abstractly, a successful `append` is `Put`, and it is a key conflict exactly on a clash. */
  lemma AppendIsPut<P>(c: Codec<P>, lines: seq<Line<P>>, draft: Entry<Semantics<P>>,
                       id: string, at: string, expectedHead: Option<string>)
    requires Verifies(c, lines)
    ensures UniqueKeys(Rows(Recorded(lines)))
    ensures var (r, after) := AppendSpec(c, lines, draft, id, at, expectedHead);
      && (r == Failure(KeyConflict) <==> Clash(Rows(Recorded(lines)), draft))
      && (r.Success? ==> Rows(Recorded(after)) == Put(Rows(Recorded(lines)), draft)
                         && r.value in Recorded(after) && Row(r.value) == draft)
  {
    hide Chained, Valid, FreshId, Head;
    var events := Recorded(lines);
    var sealed := Seal(c, events, draft, id, at);
    ChainedKeys(c, events);
    KeyCases(events, draft);
    VerifiesSnoc(c, lines, Record(sealed));
    assert Rows(events + [sealed]) == Rows(events) + [draft];
  }

  /** An entry that the file holds is found again by any later `append` of it. */
  lemma HeldIsFound<P>(c: Codec<P>, lines: seq<Line<P>>, held: Event<P>, draft: Entry<Semantics<P>>,
                       id: string, at: string, head: Option<string>)
    requires Verifies(c, lines) && held in Recorded(lines) && Row(held) == draft
    ensures AppendSpec(c, lines, draft, id, at, head) == (Success(held), lines)
  {
    hide Chained, Valid, Head, FreshId, FreshKey, Verifies, Recorded;
    var events := Recorded(lines);
    AppendIsPut(c, lines, draft, id, at, head);
    var k :| 0 <= k < |events| && events[k] == held;
    var rows := Rows(events);
    assert rows[k] == draft;
    forall j | 0 <= j < |events| && Row(events[j]).key == draft.key
      ensures j == k
    {
      assert rows[j] == Row(events[j]);
    }
    assert !Clash(rows, draft);
  }

  /**
   Replaying a successful `append`, under any id, time and expected head, returns the stored event and
   writes nothing, exactly when the first call wrote nothing either or its id was fresh: a repeated id
   has made the file unreadable.
   */
  lemma AppendReplay<P>(c: Codec<P>, lines: seq<Line<P>>, draft: Entry<Semantics<P>>,
                        id: string, at: string, head: Option<string>,
                        id': string, at': string, head': Option<string>)
    requires Verifies(c, lines) && AppendSpec(c, lines, draft, id, at, head).0.Success?
    ensures var (r, after) := AppendSpec(c, lines, draft, id, at, head);
      AppendSpec(c, after, draft, id', at', head') == (r, after) <==> after == lines || FreshId(Recorded(lines), id)
  {
    hide Chained, Valid, Head, FreshId, Verifies, Recorded, Clash;
    var (r, after) := AppendSpec(c, lines, draft, id, at, head);
    AppendKeepsLedger(c, lines, draft, id, at, head);
    AppendIsPut(c, lines, draft, id, at, head);
    if Verifies(c, after) {
      HeldIsFound(c, after, r.value, draft, id', at', head');
    }
  }

  /**
   What `append` answers, case by case.  A used key returns its event or is a conflict; under a new key
   another head than the expected one is refused, and otherwise the sealed event is written if it is valid.
   */
  lemma AppendAnswers<P>(c: Codec<P>, lines: seq<Line<P>>, draft: Entry<Semantics<P>>,
                         id: string, at: string, expected: Option<string>)
    requires Verifies(c, lines)
    ensures var events := Recorded(lines); var (r, after) := AppendSpec(c, lines, draft, id, at, expected);
      var head := if events == [] then "" else events[|events| - 1].eventHash;
      var u := Unsigned(1, |events| + 1, id, at, draft.body, draft.key, head);
      var sealed := Event(u, c.sha(u));
      && (forall e | e in events && e.content.idempotencyKey == draft.key ::
            r == (if e.content.meaning == draft.body then Success(e) else Failure(KeyConflict)) && after == lines)
      && (FreshKey(events, draft.key) ==>
            if expected.Some? && expected.value != head then r == Failure(StaleHead) && after == lines
            else if Valid(c, sealed) then r == Success(sealed) && after == lines + [Record(sealed)]
            else r == Failure(InvalidEvent) && after == lines)
  {
    hide Chained, Valid, FreshId, Verifies, Recorded;
    var events := Recorded(lines);
    KeyCases(events, draft);
    forall e | e in events && e.content.idempotencyKey == draft.key
      ensures var (r, after) := AppendSpec(c, lines, draft, id, at, expected);
        r == (if e.content.meaning == draft.body then Success(e) else Failure(KeyConflict)) && after == lines
    {
      if e.content.meaning == draft.body {
        HeldIsFound(c, lines, e, draft, id, at, expected);
      } else {
        KeyClashes(events, e, draft);
      }
    }
  }

  lemma KeyClashes<P>(events: seq<Event<P>>, e: Event<P>, draft: Entry<Semantics<P>>)
    requires e in events && e.content.idempotencyKey == draft.key && e.content.meaning != draft.body
    ensures Clash(Rows(events), draft)
  {
    var i :| 0 <= i < |events| && events[i] == e;
    assert Rows(events)[i] == Row(e);
  }

  ghost predicate Digest(text: string) {
    |text| == 64 && forall c | c in text :: '0' <= c <= '9' || 'a' <= c <= 'f'
  }

  lemma DigestIsHex(text: string)
    ensures Digest(text) <==> Hex64(text)
  {
    assert forall i | 0 <= i < |text| :: text[i] in text;
  }

  /**
   What an event must have: every identifier stated, a stated and zoned time, a durable payload, a number, an
   empty or proper hash before it, and its own digest.
   */
  lemma ValidExactly<P>(c: Codec<P>, e: Event<P>)
    ensures var u, m := e.content, e.content.meaning;
      Valid(c, e) <==>
        && u.schemaVersion == 1 && u.sequence >= 1
        && HasText(u.eventId) && HasText(u.idempotencyKey)
        && HasText(m.tenantId) && HasText(m.jobId) && HasText(m.aggregateType) && HasText(m.aggregateId)
        && HasText(m.eventType)
        && HasText(u.occurredAt) && c.zoned(u.occurredAt) && c.durable(m.payload)
        && (u.previousHash == "" || Digest(u.previousHash))
        && Digest(e.eventHash) && e.eventHash == c.sha(u)
  {
    var u, m := e.content, e.content.meaning;
    TextIsNotBlank(u.eventId);
    TextIsNotBlank(u.idempotencyKey);
    TextIsNotBlank(u.occurredAt);
    TextIsNotBlank(m.tenantId);
    TextIsNotBlank(m.jobId);
    TextIsNotBlank(m.aggregateType);
    TextIsNotBlank(m.aggregateId);
    TextIsNotBlank(m.eventType);
    DigestIsHex(u.previousHash);
    DigestIsHex(e.eventHash);
    hide Blank, HasText, Digest, Hex64;
  }

  /** Event `i` is valid, numbered by its place and linked to the event before it. */
  ghost predicate InPlace<P>(c: Codec<P>, events: seq<Event<P>>, i: nat)
    requires i < |events|
  {
    && Valid(c, events[i])
    && events[i].content.sequence == i + 1
    && events[i].content.previousHash == (if i == 0 then "" else events[i - 1].eventHash)
  }

  ghost predicate AllInPlace<P>(c: Codec<P>, events: seq<Event<P>>) {
    forall i | 0 <= i < |events| :: InPlace(c, events, i)
  }

  ghost predicate DistinctIds<P>(events: seq<Event<P>>) {
    forall i, j | 0 <= i < j < |events| :: events[i].content.eventId != events[j].content.eventId
  }

  ghost predicate DistinctKeys<P>(events: seq<Event<P>>) {
    forall i, j | 0 <= i < j < |events| :: events[i].content.idempotencyKey != events[j].content.idempotencyKey
  }

  lemma InPlaceSnoc<P>(c: Codec<P>, events: seq<Event<P>>)
    requires events != []
    ensures var n := |events| - 1; AllInPlace(c, events) <==> AllInPlace(c, events[..n]) && InPlace(c, events, n)
  {
    hide Valid;
    var before := events[..|events| - 1];
    forall i | 0 <= i < |before|
      ensures InPlace(c, before, i) <==> InPlace(c, events, i)
    {
      assert before[i] == events[i];
    }
    if AllInPlace(c, events) {
      forall i | 0 <= i < |before|
        ensures InPlace(c, before, i)
      {
        assert InPlace(c, events, i);
      }
    }
  }

  lemma DistinctSnoc<P>(events: seq<Event<P>>)
    requires events != []
    ensures var n := |events| - 1; DistinctIds(events) <==> DistinctIds(events[..n]) && FreshId(events[..n], events[n].content.eventId)
    ensures var n := |events| - 1;
      DistinctKeys(events) <==> DistinctKeys(events[..n]) && FreshKey(events[..n], events[n].content.idempotencyKey)
  {
    var n := |events| - 1;
    var before := events[..n];
    assert forall i | 0 <= i < n :: before[i] == events[i];
    if DistinctIds(events) {
      forall i, j | 0 <= i < j < n
        ensures before[i].content.eventId != before[j].content.eventId
      {
        assert events[i].content.eventId != events[j].content.eventId;
      }
    }
    if DistinctKeys(events) {
      forall i, j | 0 <= i < j < n
        ensures before[i].content.idempotencyKey != before[j].content.idempotencyKey
      {
        assert events[i].content.idempotencyKey != events[j].content.idempotencyKey;
      }
    }
    if DistinctIds(before) && FreshId(before, events[n].content.eventId) {
      forall i, j | 0 <= i < j < |events|
        ensures events[i].content.eventId != events[j].content.eventId
      {
        assert before[i].content.eventId != events[n].content.eventId;
        assert j < n ==> before[i].content.eventId != before[j].content.eventId;
      }
    }
    if DistinctKeys(before) && FreshKey(before, events[n].content.idempotencyKey) {
      forall i, j | 0 <= i < j < |events|
        ensures events[i].content.idempotencyKey != events[j].content.idempotencyKey
      {
        assert before[i].content.idempotencyKey != events[n].content.idempotencyKey;
        assert j < n ==> before[i].content.idempotencyKey != before[j].content.idempotencyKey;
      }
    }
  }

  lemma LinkedExactly<P>(c: Codec<P>, events: seq<Event<P>>)
    requires events != []
    ensures var n := |events| - 1;
      Linked(c, events[..n], events[n]) <==>
        InPlace(c, events, n)
        && FreshId(events[..n], events[n].content.eventId) && FreshKey(events[..n], events[n].content.idempotencyKey)
  {
    hide Valid, FreshId, FreshKey;
  }

  /** A ledger verifies exactly when its events are in place and no event id or key comes twice. */
  lemma {:induction false} ChainedExactly<P>(c: Codec<P>, events: seq<Event<P>>)
    ensures Chained(c, events) <==> AllInPlace(c, events) && DistinctIds(events) && DistinctKeys(events)
  {
    if events != [] {
      hide Linked, AllInPlace, DistinctIds, DistinctKeys, InPlace, FreshId, FreshKey;
      ChainedExactly(c, events[..|events| - 1]);
      InPlaceSnoc(c, events);
      DistinctSnoc(events);
      LinkedExactly(c, events);
    }
  }

  // ---------------------------------------------------------------- the file

  datatype VerificationReport = VerificationReport(ok: bool, eventCount: nat, headHash: string)

  class LedgerFile<P(==)> {
    const codec: Codec<P>
    var lines: seq<Line<P>>

    constructor (codec: Codec<P>)
      ensures this.codec == codec && lines == []
    {
      this.codec := codec;
      lines := [];
    }

    /** `_load_locked`: all events in order, or the first line that does not belong. */
    method Load() returns (r: Result<seq<Event<P>>, LedgerError>)
      ensures r == if Verifies(codec, lines) then Success(Recorded(lines))
                   else Failure(BadLine(FirstBad(codec, lines)))
    {
      hide Verifies, Recorded, Valid, FirstBad;
      EmptyVerifies(codec);
      var events: seq<Event<P>> := [];
      var previousHash := "";
      var eventIds: set<string> := {};
      var keys: set<string> := {};
      var i := 0;
      while i < |lines|
        invariant 0 <= i <= |lines|
        invariant Verifies(codec, lines[..i]) && events == Recorded(lines[..i])
        invariant previousHash == Head(events)
        invariant forall id :: id in eventIds <==> !FreshId(events, id)
        invariant forall key :: key in keys <==> !FreshKey(events, key)
      {
        var line := lines[i];
        assert lines[..i + 1] == lines[..i] + [line];
        VerifiesSnoc(codec, lines[..i], line);
        if line.Garbled? || (line.Record?
          && (var e := line.event;
              || !Valid(codec, e) || e.content.sequence != |events| + 1
              || e.content.previousHash != previousHash
              || e.content.eventId in eventIds || e.content.idempotencyKey in keys)) {
          FirstBadIs(codec, lines, i + 1);
          return Failure(BadLine(i + 1));
        }
        if line.Record? {
          var e := line.event;
          NamesGrow(events, e);
          events := events + [e];
          eventIds := eventIds + {e.content.eventId};
          keys := keys + {e.content.idempotencyKey};
          previousHash := e.eventHash;
        }
        i := i + 1;
      }
      assert lines[..i] == lines;
      return Success(events);
    }

    /** `append`: find a replay, or write one sealed event at the end. */
    method Append(draft: Entry<Semantics<P>>, eventId: string, occurredAt: string,
                  expectedHead: Option<string>)
      returns (r: Result<Event<P>, LedgerError>)
      modifies this`lines
      ensures (r, lines) == AppendSpec(codec, old(lines), draft, eventId, occurredAt, expectedHead)
    {
      var loaded := Load();
      if loaded.Failure? {
        return Failure(loaded.error);
      }
      var events := loaded.value;
      ChainedKeys(codec, events);
      for i := 0 to |events|
        invariant forall k | 0 <= k < i :: Rows(events)[k].key != draft.key
      {
        assert Rows(events)[i] == Row(events[i]);
        if events[i].content.idempotencyKey == draft.key {
          if events[i].content.meaning != draft.body {
            assert Rows(events)[i] != draft;
            return Failure(KeyConflict);
          }
          assert Row(events[i]) == draft;
          OnlyRow(events, draft, i);
          return Success(events[i]);
        }
      }
      KeyCases(events, draft);
      if expectedHead.Some? && expectedHead.value != Head(events) {
        return Failure(StaleHead);
      }
      var sealed := Seal(codec, events, draft, eventId, occurredAt);
      if !Valid(codec, sealed) {
        return Failure(InvalidEvent);
      }
      lines := lines + [Record(sealed)];
      return Success(sealed);
    }

    method Verify() returns (report: VerificationReport)
      ensures report.ok <==> Verifies(codec, lines)
      ensures report.ok ==> report.eventCount == |Recorded(lines)| && report.headHash == Head(Recorded(lines))
      ensures !report.ok ==> report.eventCount == 0 && report.headHash == ""
    {
      var loaded := Load();
      match loaded
      case Success(events) => report := VerificationReport(true, |events|, Head(events));
      case Failure(_) => report := VerificationReport(false, 0, "");
    }
  }

  lemma EmptyVerifies<P>(c: Codec<P>)
    ensures Verifies(c, []) && Recorded<P>([]) == []
  {
  }

  lemma VerifiesShorter<P>(c: Codec<P>, lines: seq<Line<P>>, m: nat, n: nat)
    requires m <= n <= |lines| && Verifies(c, lines[..n])
    ensures Verifies(c, lines[..m])
  {
    hide Verifies;
    VerifiesPrefix(c, lines[..n], m);
    assert lines[..n][..m] == lines[..m];
  }

  lemma FirstBadIs<P>(c: Codec<P>, lines: seq<Line<P>>, n: nat)
    requires 1 <= n <= |lines| && Verifies(c, lines[..n - 1]) && !Verifies(c, lines[..n])
    ensures !Verifies(c, lines) && FirstBad(c, lines) == n
  {
    hide Verifies;
    assert lines[..|lines|] == lines;
    if Verifies(c, lines) {
      VerifiesShorter(c, lines, n, |lines|);
    }
    FirstBadSplits(c, lines);
    var k := FirstBad(c, lines);
    if k < n {
      VerifiesShorter(c, lines, k, n - 1);
    } else if n < k {
      VerifiesShorter(c, lines, n, k - 1);
    }
  }

  lemma NamesGrow<P>(events: seq<Event<P>>, e: Event<P>)
    ensures forall id :: FreshId(events + [e], id) <==> FreshId(events, id) && id != e.content.eventId
    ensures forall key :: FreshKey(events + [e], key) <==> FreshKey(events, key) && key != e.content.idempotencyKey
  {
    var all := events + [e];
    assert all[|events|] == e && forall i | 0 <= i < |events| :: all[i] == events[i];
  }

  lemma OnlyRow<P>(events: seq<Event<P>>, draft: Entry<Semantics<P>>, k: nat)
    requires k < |events| && Row(events[k]) == draft && UniqueKeys(Rows(events))
    ensures !Clash(Rows(events), draft)
    ensures forall j | 0 <= j < |events| && Row(events[j]) == draft :: j == k
  {
    var rows := Rows(events);
    forall j | 0 <= j < |events| && rows[j].key == draft.key ensures j == k {
      assert rows[k] == draft;
    }
    forall j | 0 <= j < |events| && Row(events[j]) == draft ensures j == k {
      assert rows[j] == draft;
    }
  }
}
