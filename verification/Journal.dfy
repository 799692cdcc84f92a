/** The signing journal: one row per vault outpoint, claimed by a single conditional
    upsert, re-read as a separate step, and deleted by a release of the same digest. */
module Journal {
  import opened Wrappers

  const SIGNING_JOURNAL_TTL_MS: nat := 30 * 60 * 1000

  datatype Key = Key(network: string, backingTxid: string, backingVout: nat)
  datatype Row = Row(digest: string, expiresAt: int)
  type Rows = map<Key, Row>

  datatype Answer = Reserved | Idempotent | Conflict

  /** The statements callers run, in the order the database runs them. `now` is sampled by
      the caller before its statement, so samples need not be ordered. */
  datatype Event =
    | Claim(key: Key, digest: string, now: int)
    | Reread(key: Key, digest: string)
    | Release(key: Key, digest: string)

  /** The upsert takes the row when it is absent or expired at the caller's sample. */
  predicate Grants(rows: Rows, e: Event) {
    e.Claim? && (e.key !in rows || rows[e.key].expiresAt <= e.now)
  }

  predicate Removes(rows: Rows, e: Event) {
    e.Release? && e.key in rows && rows[e.key].digest == e.digest
  }

  function After(rows: Rows, e: Event): Rows {
    if Grants(rows, e) then rows[e.key := Row(e.digest, e.now + SIGNING_JOURNAL_TTL_MS)]
    else if Removes(rows, e) then rows - {e.key}
    else rows
  }

  /** The answer a statement lets its caller return, if it lets it return one. */
  function AnswerOf(rows: Rows, e: Event): Option<Answer> {
    match e
    case Claim(_, _, _) => if Grants(rows, e) then Some(Reserved) else None
    case Reread(key, digest) =>
      Some(if key in rows && rows[key].digest == digest then Idempotent else Conflict)
    case Release(_, _) => None
  }

  /** The table after a history of statements by any number of callers. */
  function Table(events: seq<Event>): Rows {
    if events == [] then map[] else After(Table(events[..|events| - 1]), events[|events| - 1])
  }

  function TableBefore(events: seq<Event>, i: nat): Rows
    requires i <= |events|
  {
    Table(events[..i])
  }

  /** Statement i answered RESERVED for this outpoint. */
  predicate Granted(events: seq<Event>, i: nat, key: Key) {
    i < |events| && events[i].key == key && Grants(TableBefore(events, i), events[i])
  }

  /** Statement i deleted the row of this outpoint. */
  predicate Removed(events: seq<Event>, i: nat, key: Key) {
    i < |events| && events[i].key == key && Removes(TableBefore(events, i), events[i])
  }

  // ── The store ────────────────────────────────────────────────────────────

  class SigningJournal {
    var rows: Rows

    constructor ()
      ensures rows == Table([])
    {
      rows := map[];
    }

    /** Insert, or take over an expired row; returns whether a row came back. */
    method ClaimRow(key: Key, digest: string, now: int) returns (claimed: bool)
      modifies this
      ensures rows == After(old(rows), Claim(key, digest, now))
      ensures claimed <==> AnswerOf(old(rows), Claim(key, digest, now)) == Some(Reserved)
    {
      var expiresAt := now + SIGNING_JOURNAL_TTL_MS;
      claimed := false;
      if key !in rows {
        rows := rows[key := Row(digest, expiresAt)];
        claimed := true;
      } else if rows[key].expiresAt <= now {
        rows := rows[key := Row(digest, expiresAt)];
        claimed := true;
      }
    }

    method RereadRow(key: Key, digest: string) returns (answer: Answer)
      ensures AnswerOf(rows, Reread(key, digest)) == Some(answer)
    {
      if key !in rows {
        return Conflict;
      }
      answer := if rows[key].digest == digest then Idempotent else Conflict;
    }

    /** One caller running undisturbed: a conflict means a live row of another digest. */
    method Reserve(key: Key, digest: string, now: int) returns (answer: Answer)
      modifies this
      ensures rows == After(old(rows), Claim(key, digest, now))
      ensures answer == Reserved <==> key !in old(rows) || old(rows)[key].expiresAt <= now
      ensures answer != Conflict <==> key in rows && rows[key].digest == digest
    {
      var claimed := ClaimRow(key, digest, now);
      if claimed {
        return Reserved;
      }
      answer := RereadRow(key, digest);
    }

    method CommittedDigest(key: Key, now: int) returns (digest: Option<string>)
      ensures digest == if key in rows && rows[key].expiresAt > now then Some(rows[key].digest) else None
    {
      if key !in rows {
        return None;
      }
      if rows[key].expiresAt <= now {
        return None;
      }
      digest := Some(rows[key].digest);
    }

    method ReleaseRow(key: Key, digest: string)
      modifies this
      ensures rows == After(old(rows), Release(key, digest))
    {
      if key in rows && rows[key].digest == digest {
        rows := rows - {key};
      }
    }
  }

  // ── Histories ────────────────────────────────────────────────────────────

  lemma TableStep(events: seq<Event>, i: nat)
    requires i < |events|
    ensures TableBefore(events, i + 1) == After(TableBefore(events, i), events[i])
  {
    assert events[..i + 1][..i] == events[..i];
  }

  /** The newest grant among the first n statements. */
  function LastGrant(events: seq<Event>, n: nat, key: Key): Option<nat>
    requires n <= |events|
  {
    if n == 0 then None
    else if Granted(events, n - 1, key) then Some(n - 1)
    else LastGrant(events, n - 1, key)
  }

  lemma {:induction false} LastGrantIs(events: seq<Event>, n: nat, key: Key)
    requires n <= |events|
    ensures match LastGrant(events, n, key)
            case Some(g) => g < n && Granted(events, g, key) && forall k :: g < k < n ==> !Granted(events, k, key)
            case None => forall k :: 0 <= k < n ==> !Granted(events, k, key)
    decreases n
  {
    hide Granted;
    if n > 0 && !Granted(events, n - 1, key) {
      LastGrantIs(events, n - 1, key);
    }
  }

  /** A row is there exactly when a grant has not been released since, and it always carries
      the digest and the expiry of the last grant. */
  lemma {:induction false} RowIsLastGrant(events: seq<Event>, n: nat, key: Key)
    requires n <= |events|
    ensures var rows, g := TableBefore(events, n), LastGrant(events, n, key);
            && (key in rows <==> g.Some? && forall k :: g.value < k < n ==> !Removed(events, k, key))
            && (key in rows ==>
                  && g.Some? && g.value < |events| && events[g.value].Claim?
                  && rows[key] == Row(events[g.value].digest, events[g.value].now + 1_800_000))
    decreases n
  {
    if n > 0 {
      hide Table;
      RowIsLastGrant(events, n - 1, key);
      LastGrantIs(events, n - 1, key);
      TableStep(events, n - 1);
      var before := LastGrant(events, n - 1, key);
      if Removed(events, n - 1, key) {
        assert !Granted(events, n - 1, key);
        assert LastGrant(events, n, key) == before;
      }
    }
  }

  /** While no release takes the row away, its expiry never falls below the first grant's. */
  lemma {:induction false} ExpiryHolds(events: seq<Event>, i: nat, n: nat, key: Key)
    requires i < n <= |events| && Granted(events, i, key)
    requires forall m :: i < m < n ==> !Removed(events, m, key)
    ensures key in TableBefore(events, n)
    ensures TableBefore(events, n)[key].expiresAt >= events[i].now + SIGNING_JOURNAL_TTL_MS
    decreases n
  {
    TableStep(events, n - 1);
    if n > i + 1 {
      ExpiryHolds(events, i, n - 1, key);
      assert !Removed(events, n - 1, key);
    }
  }

  /** Two RESERVED answers for one outpoint were sampled at least one TTL apart, unless a
      release took the row away in between. */
  lemma GrantsAreSpaced(events: seq<Event>, i: nat, j: nat, key: Key)
    requires i < j && Granted(events, i, key) && Granted(events, j, key)
    ensures events[j].now >= events[i].now + 1_800_000
            || exists m :: i < m < j && Removed(events, m, key)
  {
    if forall m :: i < m < j ==> !Removed(events, m, key) {
      ExpiryHolds(events, i, j, key);
    }
  }

  /** Until it is released, the granted digest's row can only go by a grant one TTL later. */
  lemma {:induction false} HeldOrTakenOver(events: seq<Event>, i: nat, n: nat, key: Key)
    requires i < n <= |events| && Granted(events, i, key)
    requires forall m :: i < m < n ==> events[m] != Release(key, events[i].digest)
    ensures || (key in TableBefore(events, n)
                && TableBefore(events, n)[key] == Row(events[i].digest, events[i].now + SIGNING_JOURNAL_TTL_MS))
            || exists k :: i < k < n && Granted(events, k, key) &&
                           events[k].now >= events[i].now + SIGNING_JOURNAL_TTL_MS
    decreases n
  {
    TableStep(events, n - 1);
    if n > i + 1 {
      HeldOrTakenOver(events, i, n - 1, key);
      if k :| i < k < n - 1 && Granted(events, k, key) && events[k].now >= events[i].now + SIGNING_JOURNAL_TTL_MS {
        assert i < k < n;
      } else if Granted(events, n - 1, key) {
        assert events[n - 1].now >= events[i].now + SIGNING_JOURNAL_TTL_MS;
      }
    }
  }

  /** Two RESERVED answers less than a TTL apart, with no claim between them that had sampled the
      first row expired, mean the first digest itself was released in between. */
  lemma CloseGrantsNeedRelease(events: seq<Event>, i: nat, j: nat, key: Key)
    requires i < j && Granted(events, i, key) && Granted(events, j, key)
    requires forall k :: i < k < j && events[k].Claim? && events[k].key == key ==>
               events[k].now < events[i].now + SIGNING_JOURNAL_TTL_MS
    requires events[j].now < events[i].now + SIGNING_JOURNAL_TTL_MS
    ensures exists m :: i < m < j && events[m] == Release(key, events[i].digest)
  {
    if forall m :: i < m < j ==> events[m] != Release(key, events[i].digest) {
      HeldOrTakenOver(events, i, j, key);
    }
  }

  // ── When the promise holds ───────────────────────────────────────────────

  /** The clock samples of the claims on one outpoint, in the order their statements ran. */
  function Samples(events: seq<Event>, key: Key): seq<int> {
    if events == [] then []
    else
      var e := events[|events| - 1];
      Samples(events[..|events| - 1], key) + if e.Claim? && e.key == key then [e.now] else []
  }

  /** An early sample that runs after a claim which already saw the first row expired. */
  predicate StaleTriple(times: seq<int>, i: nat, k: nat, j: nat) {
    && i < k < j < |times|
    && times[j] < times[i] + SIGNING_JOURNAL_TTL_MS <= times[k]
  }

  ghost predicate HasStaleTriple(times: seq<int>) {
    exists i: nat, k: nat, j: nat :: StaleTriple(times, i, k, j)
  }

  /** The promise: between two close RESERVED answers the first digest was released. */
  ghost predicate PromiseKept(events: seq<Event>, key: Key) {
    forall i, j ::
      0 <= i < j && Granted(events, i, key) && Granted(events, j, key)
      && events[j].now < events[i].now + SIGNING_JOURNAL_TTL_MS ==>
        exists m :: i < m < j && events[m] == Release(key, events[i].digest)
  }

  lemma {:induction false} SamplePlace(events: seq<Event>, i: nat, n: nat, key: Key)
    requires i < n <= |events| && events[i].Claim? && events[i].key == key
    ensures var p := |Samples(events[..i], key)|;
            p < |Samples(events[..n], key)| && Samples(events[..n], key)[p] == events[i].now
    decreases n
  {
    assert events[..n][..n - 1] == events[..n - 1];
    if i < n - 1 {
      SamplePlace(events, i, n - 1, key);
    }
  }

  lemma NoTripleKeepsPromise(events: seq<Event>, key: Key)
    requires !HasStaleTriple(Samples(events, key))
    ensures PromiseKept(events, key)
  {
    hide Table, Samples, HasStaleTriple;
    var times := Samples(events, key);
    assert events[..|events|] == events;
    forall i, j | 0 <= i < j && Granted(events, i, key) && Granted(events, j, key)
                  && events[j].now < events[i].now + SIGNING_JOURNAL_TTL_MS
      ensures exists m :: i < m < j && events[m] == Release(key, events[i].digest)
    {
      GrantIsClaim(events, i, key);
      GrantIsClaim(events, j, key);
      SamplePlace(events, j, |events|, key);
      forall k | i < k < j && events[k].Claim? && events[k].key == key
        ensures events[k].now < events[i].now + SIGNING_JOURNAL_TTL_MS
      {
        SamplePlace(events, i, |events|, key);
        SamplePlace(events, k, |events|, key);
        SamplePlace(events, i, k, key);
        SamplePlace(events, k, j, key);
        NotATriple(times, |Samples(events[..i], key)|, |Samples(events[..k], key)|, |Samples(events[..j], key)|);
      }
      CloseGrantsNeedRelease(events, i, j, key);
    }
  }

  lemma GrantIsClaim(events: seq<Event>, i: nat, key: Key)
    requires Granted(events, i, key)
    ensures i < |events| && events[i].Claim? && events[i].key == key
  {
    hide Table;
  }

  lemma NotATriple(times: seq<int>, i: nat, k: nat, j: nat)
    requires !HasStaleTriple(times)
    ensures !StaleTriple(times, i, k, j)
  {
  }

  /** A history with these samples: claim i is by "a", every other by "b", and each claim is
      followed by a release of "b". */
  function Staged(times: seq<int>, i: nat, key: Key): (events: seq<Event>)
    ensures |events| == 2 * |times|
  {
    if times == [] then []
    else
      var n := |times| - 1;
      Staged(times[..n], i, key) + [Claim(key, if n == i then "a" else "b", times[n]), Release(key, "b")]
  }

  lemma TwoMore(events: seq<Event>, c: Event, r: Event, key: Key)
    ensures Table(events + [c, r]) == After(After(Table(events), c), r)
    ensures Samples(events + [c, r], key)
            == Samples(events, key) + (if c.Claim? && c.key == key then [c.now] else [])
                                    + (if r.Claim? && r.key == key then [r.now] else [])
  {
    var more := events + [c, r];
    assert more[..|events| + 1] == events + [c];
    assert (events + [c])[..|events|] == events;
    assert Table(events + [c]) == After(Table(events), c);
    assert Samples(events + [c], key) == Samples(events, key) + (if c.Claim? && c.key == key then [c.now] else []);
  }

  lemma {:induction false} StagedHistory(times: seq<int>, i: nat, key: Key)
    ensures Samples(Staged(times, i, key), key) == times
    ensures forall m :: 0 <= m < 2 * |times| ==> Staged(times, i, key)[m] != Release(key, "a")
  {
    if times != [] {
      var n := |times| - 1;
      StagedHistory(times[..n], i, key);
      TwoMore(Staged(times[..n], i, key), Claim(key, if n == i then "a" else "b", times[n]), Release(key, "b"), key);
    }
  }

  /** The staged row: nothing before claim i, then "a" until a claim samples it expired, then
      nothing again. */
  lemma {:induction false} StagedRow(times: seq<int>, i: nat, key: Key)
    ensures var rows := Table(Staged(times, i, key));
            if i < |times| && forall x :: i < x < |times| ==> times[x] < times[i] + SIGNING_JOURNAL_TTL_MS
            then key in rows && rows[key] == Row("a", times[i] + SIGNING_JOURNAL_TTL_MS)
            else key !in rows
  {
    hide Table, Samples;
    if times == [] {
      assert Staged(times, i, key) == [];
      NoRows();
    } else {
      var n := |times| - 1;
      StagedRow(times[..n], i, key);
      TwoMore(Staged(times[..n], i, key), Claim(key, if n == i then "a" else "b", times[n]), Release(key, "b"), key);
      assert forall x :: 0 <= x < n ==> times[..n][x] == times[x];
    }
  }

  lemma NoRows()
    ensures Table([]) == map[]
  {
  }

  lemma {:induction false} StagedPrefix(times: seq<int>, x: nat, i: nat, key: Key)
    requires x <= |times|
    ensures Staged(times, i, key)[..2 * x] == Staged(times[..x], i, key)
  {
    var n := |times| - 1;
    if x == |times| {
      assert times[..x] == times;
    } else {
      StagedPrefix(times[..n], x, i, key);
      assert times[..n][..x] == times[..x];
    }
  }

  lemma StagedGrant(times: seq<int>, x: nat, i: nat, key: Key)
    requires x < |times| && key !in Table(Staged(times[..x], i, key))
    ensures var events := Staged(times, i, key);
            Granted(events, 2 * x, key) && events[2 * x] == Claim(key, if x == i then "a" else "b", times[x])
  {
    var events := Staged(times, i, key);
    StagedPrefix(times, x, i, key);
    StagedPrefix(times, x + 1, i, key);
    assert events[2 * x] == events[..2 * (x + 1)][2 * x];
    assert times[..x + 1][..x] == times[..x];
  }

  lemma TripleBreaksPromise(times: seq<int>, i: nat, k: nat, j: nat, key: Key)
    requires StaleTriple(times, i, k, j)
    ensures Samples(Staged(times, i, key), key) == times
    ensures !PromiseKept(Staged(times, i, key), key)
  {
    hide Granted, Table, Staged;
    var events := Staged(times, i, key);
    StagedHistory(times, i, key);
    StagedRow(times[..i], i, key);
    StagedRow(times[..j], i, key);
    assert times[..j][k] == times[k] && times[..j][i] == times[i];
    StagedGrant(times, i, i, key);
    StagedGrant(times, j, i, key);
    assert events[2 * j].now < events[2 * i].now + SIGNING_JOURNAL_TTL_MS;
  }

  /** Whatever digests the callers bring and wherever releases fall, the promise holds for every
      history with these samples exactly when no sample runs late enough to be stale. */
  lemma PromiseHoldsExactly(times: seq<int>, key: Key)
    ensures (forall events :: Samples(events, key) == times ==> PromiseKept(events, key)) <==> !HasStaleTriple(times)
  {
    hide Samples, PromiseKept;
    if HasStaleTriple(times) {
      var i: nat, k: nat, j: nat :| StaleTriple(times, i, k, j);
      TripleBreaksPromise(times, i, k, j, key);
    } else {
      forall events | Samples(events, key) == times
        ensures PromiseKept(events, key)
      {
        NoTripleKeepsPromise(events, key);
      }
    }
  }

  /** Samples in statement order hold no such triple. */
  lemma OrderedSamplesAreSafe(times: seq<int>)
    requires forall k, j :: 0 <= k < j < |times| ==> times[k] <= times[j]
    ensures !HasStaleTriple(times)
  {
  }

  /** The promise fails: a caller that sampled early and ran late is granted a
      millisecond after the first sample, although the first digest was never released. */
  lemma StaleSampleWitness(key: Key, events: seq<Event>)
    requires events == [Claim(key, "a", 0), Claim(key, "b", SIGNING_JOURNAL_TTL_MS), Release(key, "b"),
                        Claim(key, "c", 1)]
    ensures Granted(events, 0, key) && Granted(events, 3, key)
    ensures events[3].now < events[0].now + SIGNING_JOURNAL_TTL_MS
    ensures forall m :: 0 < m < 3 ==> events[m] != Release(key, events[0].digest)
  {
    assert TableBefore(events, 0) == map[] by { assert events[..0] == []; }
    TableStep(events, 0);
    TableStep(events, 1);
    TableStep(events, 2);
    assert TableBefore(events, 1)[key] == Row("a", SIGNING_JOURNAL_TTL_MS);
    assert TableBefore(events, 2)[key] == Row("b", 2 * SIGNING_JOURNAL_TTL_MS);
    assert key !in TableBefore(events, 3);
  }

  /** Statement i let its caller go on with this digest. */
  predicate Positive(events: seq<Event>, i: nat, key: Key, digest: string) {
    && i < |events| && !events[i].Release? && events[i].key == key && events[i].digest == digest
    && (AnswerOf(TableBefore(events, i), events[i]) == Some(Reserved)
        || AnswerOf(TableBefore(events, i), events[i]) == Some(Idempotent))
  }

  /** Right after a positive answer the row carries that digest. */
  lemma PositiveMeansHeld(events: seq<Event>, i: nat, key: Key, digest: string)
    requires Positive(events, i, key, digest)
    ensures key in TableBefore(events, i + 1) && TableBefore(events, i + 1)[key].digest == digest
  {
    TableStep(events, i);
  }

  /** Two callers may go on with different digests only across a fresh grant of the second. */
  lemma {:induction false} DifferentDigestsNeedAGrant(events: seq<Event>, i: nat, j: nat, key: Key, a: string,
                                                      b: string)
    requires i < j && Positive(events, i, key, a) && Positive(events, j, key, b) && a != b
    ensures exists k :: i < k <= j && Granted(events, k, key) && events[k].digest == b
  {
    if Granted(events, j, key) {
    } else {
      PositiveMeansHeld(events, i, key, a);
      DigestChangesByGrant(events, i + 1, j, key, b);
    }
  }

  lemma {:induction false} DigestChangesByGrant(events: seq<Event>, s: nat, n: nat, key: Key, b: string)
    requires s <= n <= |events|
    requires key in TableBefore(events, n) && TableBefore(events, n)[key].digest == b
    requires key in TableBefore(events, s) && TableBefore(events, s)[key].digest != b
    ensures exists k :: s <= k < n && Granted(events, k, key) && events[k].digest == b
    decreases n
  {
    if n > s {
      TableStep(events, n - 1);
      if !Granted(events, n - 1, key) {
        DigestChangesByGrant(events, s, n - 1, key, b);
      }
    }
  }
}
