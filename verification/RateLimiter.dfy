/** The brake on guessing a PIN: a few free attempts per address, then a backoff that doubles. */
module RateLimiter {
  import opened Transfers
  import Sets

  const FREE_ATTEMPTS := 3
  const BASE_BACKOFF_MS := 1000
  const MAX_BACKOFF_MS := 900000
  const FORGET_AFTER_MS := 3600000
  const MAX_ENTRIES := 512

  datatype Entry = Entry(failures: nat, blockedUntil: int)
  type Table = map<Text, Entry>

  // --- how long --------------------------------------------------------------------------

  function PowerOfTwo(n: nat): (p: nat)
    ensures p > 0
  {
    if n == 0 then 1 else 2 * PowerOfTwo(n - 1)
  }

  /** The wait after the f-th failure: none at first, then doubling from a second up to a quarter of
      an hour. */
  function Backoff(f: nat): (b: nat) {
    if f <= FREE_ATTEMPTS then 0
    else
      var doubled := BASE_BACKOFF_MS * PowerOfTwo(f - FREE_ATTEMPTS - 1);
      if doubled < MAX_BACKOFF_MS then doubled else MAX_BACKOFF_MS
  }

  method BackoffAfter(failures: nat) returns (backoff: nat)
    requires failures > FREE_ATTEMPTS
    ensures backoff == Backoff(failures)
  {
    backoff := BASE_BACKOFF_MS;
    var i := FREE_ATTEMPTS + 1;
    while i < failures && backoff < MAX_BACKOFF_MS
      invariant FREE_ATTEMPTS + 1 <= i <= failures
      invariant backoff == BASE_BACKOFF_MS * PowerOfTwo(i - FREE_ATTEMPTS - 1)
    {
      backoff := backoff * 2;
      i := i + 1;
    }
    PowersGrow(i - FREE_ATTEMPTS - 1, failures - FREE_ATTEMPTS - 1);
    if backoff > MAX_BACKOFF_MS {
      backoff := MAX_BACKOFF_MS;
    }
  }

  lemma {:induction false} PowersGrow(m: nat, n: nat)
    requires m <= n
    ensures PowerOfTwo(m) <= PowerOfTwo(n)
  {
    if m < n {
      PowersGrow(m, n - 1);
    }
  }

  /** The wait never gets shorter with more failures. */
  lemma BackoffGrows(f: nat, g: nat)
    requires f <= g
    ensures Backoff(f) <= Backoff(g) <= MAX_BACKOFF_MS
  {
    if f > FREE_ATTEMPTS {
      PowersGrow(f - FREE_ATTEMPTS - 1, g - FREE_ATTEMPTS - 1);
    }
  }

  // --- what is asked of the table -----------------------------------------------------------

  predicate Allows(table: Table, key: Text, now: int) {
    key !in table || now >= table[key].blockedUntil
  }

  /** Whole seconds, rounded up. */
  function Wait(table: Table, key: Text, now: int): (seconds: nat) {
    if Allows(table, key, now) then 0 else (table[key].blockedUntil - now + 999) / 1000
  }

  /** Being told to wait and being refused are the same thing; the wait that is named is enough, and a
      second less is not. */
  lemma WaitIsEnough(table: Table, key: Text, now: int)
    ensures Wait(table, key, now) == 0 <==> Allows(table, key, now)
    ensures Allows(table, key, now + 1000 * Wait(table, key, now))
    ensures !Allows(table, key, now) ==> !Allows(table, key, now + 1000 * (Wait(table, key, now) - 1))
  {
  }

  // --- what changes it ------------------------------------------------------------------------

  predicate Forgotten(e: Entry, now: int) {
    e.blockedUntil != 0 && now - e.blockedUntil > FORGET_AFTER_MS
  }

  function Pruned(table: Table, now: int): (r: Table) {
    map k | k in table && !Forgotten(table[k], now) :: table[k]
  }

  function FailuresOf(table: Table, key: Text): nat {
    if key in table then table[key].failures else 0
  }

  function Struck(e: Entry, now: int): Entry {
    Entry(e.failures + 1, if e.failures + 1 <= FREE_ATTEMPTS then e.blockedUntil else now + Backoff(e.failures + 1))
  }

  /** A new address is only taken up while there is room. */
  predicate Records(table: Table, key: Text, now: int) {
    key in Pruned(table, now) || |Pruned(table, now)| < MAX_ENTRIES
  }

  /** The clock is read twice: at `pruned` to forget what is old, and at `now` for the new wait. */
  function AfterFailure(table: Table, key: Text, pruned: int, now: int): (r: Table) {
    var kept := Pruned(table, pruned);
    if !Records(table, key, pruned) then kept
    else kept[key := Struck(if key in kept then kept[key] else Entry(0, 0), now)]
  }

  /** A wrong guess counts exactly when its address is tracked already or there is room for it; an
      address there is no room for may go on guessing. */
  lemma CountedWhenRecorded(table: Table, key: Text, pruned: int, now: int, later: int)
    ensures FailuresOf(AfterFailure(table, key, pruned, now), key) == FailuresOf(Pruned(table, pruned), key) + 1
            <==> Records(table, key, pruned)
    ensures !Records(table, key, pruned) ==> Allows(AfterFailure(table, key, pruned, now), key, later)
  {
  }

  // --- how guesses are spaced -----------------------------------------------------------------

  /** When each of the failures was that an entry counts. */
  type Times = map<Text, seq<int>>

  function Noted(table: Table, times: Times, key: Text, pruned: int, now: int): (r: Times)
    requires times.Keys == table.Keys
    ensures r.Keys == AfterFailure(table, key, pruned, now).Keys
  {
    var kept := map k | k in Pruned(table, pruned) :: times[k];
    if !Records(table, key, pruned) then kept
    else kept[key := (if key in kept then kept[key] else []) + [now]]
  }

  /** From the fourth failure on, each is followed by its backoff before the next. */
  ghost predicate Spaced(times: seq<int>) {
    forall i :: 0 < i < |times| ==> Gap(times, i)
  }

  predicate Gap(times: seq<int>, i: nat)
    requires 0 < i < |times|
  {
    times[i] >= times[i - 1] + Backoff(i)
  }

  ghost predicate EntryOk(e: Entry, times: seq<int>) {
    && |times| == e.failures > 0
    && Spaced(times)
    && times[0] >= 0
    && e.blockedUntil == if e.failures <= FREE_ATTEMPTS then 0 else times[|times| - 1] + Backoff(e.failures)
  }

  /** An entry is in order, and nothing it counts lies ahead of the clock. */
  ghost predicate PacedEntry(e: Entry, times: seq<int>, now: int) {
    EntryOk(e, times) && times[|times| - 1] <= now
  }

  ghost predicate Paced(table: Table, times: Times, now: int) {
    && times.Keys == table.Keys
    && |table| <= MAX_ENTRIES
    && (forall k :: k in table ==> PacedEntry(table[k], times[k], now))
  }

  function Total(first: nat, end: nat): (sum: nat)
    requires first <= end
    decreases end
  {
    if first == end then 0 else Total(first, end - 1) + Backoff(end - 1)
  }

  /** The n-th wrong guess that an entry counts comes no sooner after the m-th than all the backoffs in
      between. */
  lemma {:induction false} GuessesTakeTime(times: seq<int>, m: nat, n: nat)
    requires Spaced(times) && 1 <= m <= n <= |times|
    ensures times[n - 1] >= times[m - 1] + Total(m, n)
    decreases n
  {
    if m < n {
      GuessesTakeTime(times, m, n - 1);
      assert Gap(times, n - 1);
    }
  }

  /** Ten doublings after the first wait it is at its longest. */
  lemma BackoffCapped(f: nat)
    requires f >= 14
    ensures Backoff(f) == MAX_BACKOFF_MS
  {
    PowersGrow(10, f - FREE_ATTEMPTS - 1);
    assert PowerOfTwo(5) == 32;
    assert PowerOfTwo(10) == 1024;
  }

  /** From the fourteenth on, guesses that an entry counts come a quarter of an hour apart: there is no
      searching ten thousand numbers this way. */
  lemma {:induction false} SearchTakesForever(times: seq<int>, n: nat)
    requires Spaced(times) && 14 <= n <= |times|
    ensures times[n - 1] - times[13] >= (n - 14) * MAX_BACKOFF_MS
    decreases n
  {
    if n > 14 {
      SearchTakesForever(times, n - 1);
      assert Gap(times, n - 1);
      BackoffCapped(n - 1);
    }
  }

  /** An entry with no more than the free failures is never forgotten, and one with more only when
      nothing was heard for an hour after its last wait was over. */
  lemma ForgottenOnlyWhenQuiet(table: Table, times: Times, key: Text, before: int, now: int)
    requires Paced(table, times, before) && key in table
    ensures key !in Pruned(table, now) <==>
              table[key].failures > FREE_ATTEMPTS
              && now > times[key][|times[key]| - 1] + Backoff(table[key].failures) + FORGET_AFTER_MS
  {
    assert PacedEntry(table[key], times[key], before);
    LastAfterFirst(times[key]);
    if table[key].failures > FREE_ATTEMPTS {
      BackoffGrows(FREE_ATTEMPTS + 1, table[key].failures);
    }
  }

  lemma {:induction false} LastAfterFirst(times: seq<int>)
    requires Spaced(times) && times != []
    ensures times[|times| - 1] >= times[0]
  {
    if |times| > 1 {
      var n := |times| - 1;
      assert Gap(times, n);
      forall i | 0 < i < n
        ensures Gap(times[..n], i)
      {
        assert Gap(times, i);
      }
      LastAfterFirst(times[..n]);
    }
  }

  lemma StruckOk(e: Entry, times: seq<int>, now: int)
    requires EntryOk(e, times) && now >= e.blockedUntil && now >= times[|times| - 1] && now >= 0
    ensures EntryOk(Struck(e, now), times + [now])
  {
    var more := times + [now];
    forall i | 0 < i < |more|
      ensures Gap(more, i)
    {
      assert i < |times| ==> Gap(times, i);
    }
  }

  lemma PacedLater(table: Table, times: Times, last: int, now: int)
    requires Paced(table, times, last) && last <= now
    ensures Paced(table, times, now)
  {
    forall k | k in table
      ensures PacedEntry(table[k], times[k], now)
    {
      assert PacedEntry(table[k], times[k], last);
    }
  }

  lemma PrunedKeeps(table: Table, times: Times, pruned: int, now: int)
    requires Paced(table, times, now)
    ensures Paced(Pruned(table, pruned), map k | k in Pruned(table, pruned) :: times[k], now)
  {
    var kept := Pruned(table, pruned);
    Sets.SubsetSize(kept.Keys, table.Keys);
    forall k | k in kept
      ensures PacedEntry(kept[k], times[k], now)
    {
      assert PacedEntry(table[k], times[k], now);
    }
  }

  lemma PutSize(table: Table, key: Text, e: Entry)
    ensures |table[key := e]| == if key in table then |table| else |table| + 1
  {
    if key in table {
      assert table[key := e].Keys == table.Keys;
    } else {
      assert table[key := e].Keys == table.Keys + {key};
    }
  }

  lemma StruckKeeps(table: Table, times: Times, key: Text, now: int, e: Entry, when: seq<int>)
    requires Paced(table, times, now) && (key in table || |table| < MAX_ENTRIES) && PacedEntry(e, when, now)
    ensures Paced(table[key := e], times[key := when], now)
  {
    PutSize(table, key, e);
    var entries, counted := table[key := e], times[key := when];
    forall k | k in entries
      ensures PacedEntry(entries[k], counted[k], now)
    {
      if k != key {
        assert PacedEntry(table[k], times[k], now);
      }
    }
  }

  /** A wrong guess that was let through, at a clock that does not run backwards, leaves the table
      paced. */
  lemma FailedKeeps(table: Table, times: Times, key: Text, last: int, allowed: int, pruned: int, now: int)
    requires Paced(table, times, last) && 0 <= last <= allowed <= pruned <= now && Allows(table, key, allowed)
    ensures Paced(AfterFailure(table, key, pruned, now), Noted(table, times, key, pruned, now), now)
  {
    PacedLater(table, times, last, now);
    PrunedKeeps(table, times, pruned, now);
    var kept, noted := Pruned(table, pruned), map k | k in Pruned(table, pruned) :: times[k];
    if Records(table, key, pruned) {
      if key in kept {
        assert PacedEntry(kept[key], noted[key], now);
        StruckOk(kept[key], noted[key], now);
        StruckKeeps(kept, noted, key, now, Struck(kept[key], now), noted[key] + [now]);
      } else {
        FirstStrike(now);
        StruckKeeps(kept, noted, key, now, Struck(Entry(0, 0), now), [] + [now]);
      }
    }
  }

  lemma FirstStrike(now: int)
    requires now >= 0
    ensures PacedEntry(Struck(Entry(0, 0), now), [] + [now], now)
  {
  }

  // --- attempts ---------------------------------------------------------------------------------

  /** One attempt: `asked` is when it is let through or not, `told` when the wait that is named is read
      or what is old is forgotten, and `now` when a new wait begins. */
  datatype Guess = Guess(key: Text, correct: bool, asked: int, told: int, now: int)

  function AfterGuess(table: Table, g: Guess): (r: Table) {
    if !Allows(table, g.key, g.asked) then table
    else if g.correct then table - {g.key}
    else AfterFailure(table, g.key, g.told, g.now)
  }

  function Guesses(table: Table, guesses: seq<Guess>): (r: Table)
    decreases |guesses|
  {
    if guesses == [] then table else Guesses(AfterGuess(table, guesses[0]), guesses[1..])
  }

  // --- the object -------------------------------------------------------------------------------

  /** What becomes of a guess. */
  datatype Verdict = Refused(retryAfter: nat) | Wrong | Right

  class RateLimiter {
    var entries: Table
    ghost var times: Times

    ghost predicate Valid(now: int)
      reads this
    {
      Paced(entries, times, now)
    }

    constructor ()
      ensures Valid(0) && entries == map[]
    {
      entries, times := map[], map[];
    }

    method Allow(key: Text, now: int) returns (allowed: bool)
      ensures allowed <==> Allows(entries, key, now)
    {
      if key !in entries {
        return true;
      }
      return now >= entries[key].blockedUntil;
    }

    method RetryAfter(key: Text, now: int) returns (seconds: nat)
      ensures seconds == Wait(entries, key, now)
    {
      if key !in entries {
        return 0;
      }
      var remaining := entries[key].blockedUntil - now;
      if remaining <= 0 {
        return 0;
      }
      return (remaining + 999) / 1000;
    }

    method Prune(now: int)
      modifies this`entries
      ensures entries == Pruned(old(entries), now)
    {
      var todo := entries.Keys;
      while todo != {}
        invariant todo <= old(entries).Keys
        invariant forall k :: k in entries <==> k in old(entries) && (k in todo || !Forgotten(old(entries)[k], now))
        invariant forall k :: k in entries ==> entries[k] == old(entries)[k]
        decreases todo
      {
        var k :| k in todo;
        if entries[k].blockedUntil != 0 && now - entries[k].blockedUntil > FORGET_AFTER_MS {
          entries := entries - {k};
        }
        todo := todo - {k};
      }
    }

    method RecordFailure(key: Text, pruned: int, now: int)
      requires times.Keys == entries.Keys
      modifies this
      ensures entries == AfterFailure(old(entries), key, pruned, now)
      ensures times == Noted(old(entries), old(times), key, pruned, now)
    {
      ghost var table := entries;
      Prune(pruned);
      times := map k | k in Pruned(table, pruned) :: times[k];
      if key !in entries && |entries| >= MAX_ENTRIES {
        return;
      }
      times := times[key := (if key in times then times[key] else []) + [now]];
      var entry := if key in entries then entries[key] else Entry(0, 0);
      entry := entry.(failures := entry.failures + 1);
      if entry.failures > FREE_ATTEMPTS {
        var backoff := BackoffAfter(entry.failures);
        entry := entry.(blockedUntil := now + backoff);
      }
      entries := entries[key := entry];
    }

    method RecordSuccess(key: Text)
      requires times.Keys == entries.Keys
      modifies this
      ensures entries == old(entries) - {key} && times == old(times) - {key}
    {
      entries := entries - {key};
      times := times - {key};
    }

    /** One attempt from an address. Each call reads a clock that does not run backwards: at `asked` to
        let the attempt through, at `told` for the wait that is named or for what is forgotten, and at
        `now` for the new wait. Whatever the attempts before it were, the failures every entry counts
        stay spaced. */
    method Attempt(key: Text, correct: bool, last: int, asked: int, told: int, now: int) returns (verdict: Verdict)
      requires Valid(last) && 0 <= last <= asked <= told <= now
      modifies this
      ensures Valid(now) && entries == AfterGuess(old(entries), Guess(key, correct, asked, told, now))
      ensures match verdict
              case Refused(seconds) =>
                && !Allows(old(entries), key, asked)
                && seconds == Wait(old(entries), key, told) && (seconds == 0 <==> Allows(entries, key, told))
              case Wrong => Allows(old(entries), key, asked) && !correct
              case Right => Allows(old(entries), key, asked) && correct
    {
      var allowed := Allow(key, asked);
      PacedLater(entries, times, last, now);
      if !allowed {
        var seconds := RetryAfter(key, told);
        WaitIsEnough(entries, key, told);
        return Refused(seconds);
      }
      if !correct {
        FailedKeeps(entries, times, key, last, asked, told, now);
        RecordFailure(key, told, now);
        return Wrong;
      }
      PacedWithout(entries, times, key, now);
      RecordSuccess(key);
      return Right;
    }
  }

  lemma PacedWithout(table: Table, times: Times, key: Text, now: int)
    requires Paced(table, times, now)
    ensures Paced(table - {key}, times - {key}, now)
  {
    Sets.SubsetSize((table - {key}).Keys, table.Keys);
    forall k | k in table - {key}
      ensures PacedEntry(table[k], times[k], now)
    {
      assert k in table;
    }
  }
}
