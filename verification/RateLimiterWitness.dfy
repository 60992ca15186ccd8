/** Two things the brake does not prevent, each with attempts that start from an empty table. */
module RateLimiterWitness {
  import opened Transfers
  import opened RateLimiter

  lemma {:induction false} OneMore(table: Table, guesses: seq<Guess>, g: Guess)
    ensures Guesses(table, guesses + [g]) == AfterGuess(Guesses(table, guesses), g)
    decreases |guesses|
  {
    if guesses == [] {
      assert [g][1..] == [] && guesses + [g] == [g];
      assert Guesses(table, [g]) == Guesses(AfterGuess(table, g), []);
    } else {
      assert (guesses + [g])[1..] == guesses[1..] + [g];
      OneMore(AfterGuess(table, guesses[0]), guesses[1..], g);
    }
  }

  // --- a wait of no seconds -----------------------------------------------------------------------

  /** `n` wrong guesses in a row, all at the same moment. */
  function Mistakes(key: Text, n: nat): (r: seq<Guess>)
    ensures |r| == n
  {
    if n == 0 then [] else Mistakes(key, n - 1) + [Guess(key, false, 0, 0, 0)]
  }

  lemma FirstFourth(key: Text, n: nat, table: Table)
    requires n < 4 && table == if n == 0 then map[] else map[key := Entry(n, 0)]
    ensures AfterGuess(table, Guess(key, false, 0, 0, 0)) == map[key := Entry(n + 1, if n < 3 then 0 else 1000)]
  {
    assert Pruned(table, 0) == table;
    assert PowerOfTwo(0) == 1;
  }

  lemma {:induction false} MistakesAre(key: Text, n: nat)
    requires 0 < n <= 4
    ensures Guesses(map[], Mistakes(key, n)) == map[key := Entry(n, if n < 4 then 0 else 1000)]
  {
    if n > 1 { MistakesAre(key, n - 1); }
    OneMore(map[], Mistakes(key, n - 1), Guess(key, false, 0, 0, 0));
    FirstFourth(key, n - 1, Guesses(map[], Mistakes(key, n - 1)));
  }

  /** After four mistakes an address has to wait a second. Asked in the last millisecond of it, it is
      refused, and if the clock goes on before the wait is worked out it is told to wait for nothing. */
  lemma ToldToWaitForNothing(key: Text)
    ensures var table := Guesses(map[], Mistakes(key, 4));
            !Allows(table, key, 999) && Wait(table, key, 999) == 1 && Wait(table, key, 1000) == 0
  {
    MistakesAre(key, 4);
  }

  // --- a table that is full -----------------------------------------------------------------------

  function Address(i: nat): Text
    requires i < 0x10000
  {
    [i]
  }

  /** One wrong guess from each of `n` addresses. */
  function Crowd(n: nat): (r: seq<Guess>)
    requires n <= MAX_ENTRIES
    ensures |r| == n
  {
    if n == 0 then [] else Crowd(n - 1) + [Guess(Address(n - 1), false, 0, 0, 0)]
  }

  /** Addresses with one mistake each. */
  ghost predicate Mild(table: Table) {
    forall k :: k in table ==> table[k] == Entry(1, 0)
  }

  lemma MildStays(table: Table, now: int)
    requires Mild(table)
    ensures Pruned(table, now) == table
  {
  }

  ghost predicate Crowded(table: Table, n: nat)
    requires n <= MAX_ENTRIES
  {
    Mild(table) && |table| == n && forall k :: k in table ==> exists i: nat :: i < n && k == Address(i)
  }

  lemma JoinsCrowd(table: Table, n: nat)
    requires n < MAX_ENTRIES && Crowded(table, n)
    ensures Crowded(AfterGuess(table, Guess(Address(n), false, 0, 0, 0)), n + 1)
  {
    var key := Address(n);
    assert key !in table;
    MildStays(table, 0);
    PutSize(table, key, Entry(1, 0));
    assert AfterGuess(table, Guess(key, false, 0, 0, 0)) == table[key := Entry(1, 0)];
  }

  lemma {:induction false} CrowdFills(n: nat)
    requires n <= MAX_ENTRIES
    ensures Crowded(Guesses(map[], Crowd(n)), n)
  {
    if n > 0 {
      CrowdFills(n - 1);
      OneMore(map[], Crowd(n - 1), Guess(Address(n - 1), false, 0, 0, 0));
      JoinsCrowd(Guesses(map[], Crowd(n - 1)), n - 1);
    }
  }

  /** Nobody in a full table of mild entries is ever forgotten, so a newcomer changes nothing. */
  lemma {:induction false} NeverCounted(table: Table, key: Text, guesses: seq<Guess>)
    requires Mild(table) && |table| == MAX_ENTRIES && key !in table
    requires forall i :: 0 <= i < |guesses| ==> guesses[i].key == key && !guesses[i].correct
    ensures Guesses(table, guesses) == table
    decreases |guesses|
  {
    if guesses != [] {
      MildStays(table, guesses[0].told);
      assert AfterGuess(table, guesses[0]) == table;
      NeverCounted(table, key, guesses[1..]);
    }
  }

  /** When 512 addresses have made one mistake each, another one may guess for as long as it likes, at
      whatever times: it is never counted and never held back. */
  lemma NewcomerGuessesFreely(key: Text, guesses: seq<Guess>, at: int)
    requires key !in Guesses(map[], Crowd(MAX_ENTRIES))
    requires forall i :: 0 <= i < |guesses| ==> guesses[i].key == key && !guesses[i].correct
    ensures var table := Guesses(Guesses(map[], Crowd(MAX_ENTRIES)), guesses);
            FailuresOf(table, key) == 0 && Allows(table, key, at)
  {
    CrowdFills(MAX_ENTRIES);
    NeverCounted(Guesses(map[], Crowd(MAX_ENTRIES)), key, guesses);
  }

  /** And there are such addresses. */
  lemma SomebodyIsNew()
    ensures Address(MAX_ENTRIES) !in Guesses(map[], Crowd(MAX_ENTRIES))
  {
    CrowdFills(MAX_ENTRIES);
  }
}
