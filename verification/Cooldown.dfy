/** Answering announcements: at most once per address and cooldown, from a table that is thrown away
    when it is full. */
module Cooldown {
  import opened Transfers

  const RESPONSE_COOLDOWN_MS := 10000
  const MAX_TRACKED_RESPONDERS := 256

  /** What was done, in order: an answer was sent, or the table was cleared. */
  datatype Mark = Replied(address: Text, now: int) | Cleared

  /** When each address was last answered, as far as is still remembered. */
  function Tracked(history: seq<Mark>): map<Text, int> {
    if history == [] then map[]
    else
      match history[|history| - 1]
      case Replied(address, now) => Tracked(history[..|history| - 1])[address := now]
      case Cleared => map[]
  }

  predicate Ready(table: map<Text, int>, address: Text, now: int) {
    address !in table || now - table[address] >= RESPONSE_COOLDOWN_MS
  }

  /** An answer is only given to an address that is ready, while there is room; the table is only
      cleared when it is full. */
  ghost predicate Legal(history: seq<Mark>) {
    forall k :: 0 <= k < |history| ==> LegalAt(history, k)
  }

  ghost predicate LegalAt(history: seq<Mark>, k: nat)
    requires k < |history|
  {
    Due(Tracked(history[..k]), history[k])
  }

  predicate Due(table: map<Text, int>, mark: Mark) {
    match mark
    case Replied(address, now) => Ready(table, address, now) && |table| < MAX_TRACKED_RESPONDERS
    case Cleared => |table| >= MAX_TRACKED_RESPONDERS
  }

  class Responder {
    var lastResponse: map<Text, int>
    ghost var history: seq<Mark>

    ghost predicate Valid()
      reads this
    {
      Legal(history) && lastResponse == Tracked(history)
    }

    constructor ()
      ensures Valid() && history == []
    {
      lastResponse, history := map[], [];
    }

    /** Answers an announcement from `address`, unless it was answered a short while ago. */
    method RespondTo(address: Text, now: int) returns (replied: bool)
      requires Valid()
      modifies this
      ensures Valid()
      ensures replied == Ready(old(lastResponse), address, now)
      ensures history == old(history)
        + (if replied && |old(lastResponse)| >= MAX_TRACKED_RESPONDERS then [Cleared] else [])
        + (if replied then [Replied(address, now)] else [])
    {
      if address in lastResponse && now - lastResponse[address] < RESPONSE_COOLDOWN_MS {
        return false;
      }
      if |lastResponse| >= MAX_TRACKED_RESPONDERS {
        OneMore(history, Cleared);
        lastResponse := map[];
        history := history + [Cleared];
      }
      OneMore(history, Replied(address, now));
      lastResponse := lastResponse[address := now];
      history := history + [Replied(address, now)];
      return true;
    }
  }

  lemma OneMore(history: seq<Mark>, mark: Mark)
    requires Legal(history) && Due(Tracked(history), mark)
    ensures Legal(history + [mark])
    ensures Tracked(history + [mark]) == match mark case Replied(a, t) => Tracked(history)[a := t] case Cleared => map[]
  {
    var n := |history|;
    assert (history + [mark])[..n] == history && (history + [mark])[n] == mark;
    forall k: nat | k < n
      ensures LegalAt(history + [mark], k)
    {
      LegalBefore(history, mark, k);
    }
  }

  lemma LegalBefore(history: seq<Mark>, mark: Mark, k: nat)
    requires Legal(history) && k < |history|
    ensures LegalAt(history + [mark], k)
  {
    assert (history + [mark])[..k] == history[..k] && (history + [mark])[k] == history[k];
    assert LegalAt(history, k);
  }

  // --- the size of the table -------------------------------------------------------------

  lemma {:induction false} TableBounded(history: seq<Mark>, k: nat)
    requires Legal(history) && k <= |history|
    ensures |Tracked(history[..k])| <= MAX_TRACKED_RESPONDERS
  {
    if k > 0 {
      TableBounded(history, k - 1);
      assert LegalAt(history, k - 1);
      assert history[..k][..k - 1] == history[..k - 1];
    }
  }

  // --- two answers to one address ------------------------------------------------------------

  /** No clear between the two. */
  predicate Undisturbed(history: seq<Mark>, i: nat, j: nat)
    requires i <= j <= |history|
  {
    forall k :: i < k < j ==> !history[k].Cleared?
  }

  /** Until the table is cleared, an address that was answered is remembered with a time no earlier
      than that. */
  lemma {:induction false} Remembered(history: seq<Mark>, i: nat, j: nat)
    requires Legal(history) && i < j <= |history| && history[i].Replied? && Undisturbed(history, i, j)
    ensures var table := Tracked(history[..j]);
            history[i].address in table && table[history[i].address] >= history[i].now
    decreases j
  {
    assert history[..j][..j - 1] == history[..j - 1];
    if i < j - 1 {
      Remembered(history, i, j - 1);
      assert LegalAt(history, j - 1);
    }
  }

  /** Two answers to one address that are closer than the cooldown have a clear between them. */
  lemma CloseRepliesNeedClear(history: seq<Mark>, i: nat, j: nat)
    requires Legal(history) && i < j < |history| && history[i].Replied? && history[j].Replied?
    requires history[i].address == history[j].address && history[j].now - history[i].now < RESPONSE_COOLDOWN_MS
    ensures exists k :: i < k < j && history[k].Cleared?
  {
    assert LegalAt(history, j);
    if Undisturbed(history, i, j) {
      Remembered(history, i, j);
    }
  }

  // --- two clears -------------------------------------------------------------------------------

  /** The table grows by at most one entry with each answer. */
  lemma {:induction false} GrowsSlowly(history: seq<Mark>, i: nat, j: nat)
    requires i < j <= |history| && history[i].Cleared? && Undisturbed(history, i, j)
    ensures |Tracked(history[..j])| <= j - i - 1
    decreases j
  {
    assert history[..j][..j - 1] == history[..j - 1];
    if i < j - 1 {
      GrowsSlowly(history, i, j - 1);
    }
  }

  /** From one clear to the next there are at least as many answers as the table has room for. */
  lemma ClearsFarApart(history: seq<Mark>, i: nat, j: nat)
    requires Legal(history) && i < j < |history| && history[i].Cleared? && history[j].Cleared? && Undisturbed(history, i, j)
    ensures j - i - 1 >= MAX_TRACKED_RESPONDERS
    ensures forall k :: i < k < j ==> history[k].Replied?
  {
    GrowsSlowly(history, i, j);
    assert LegalAt(history, j);
  }

  // --- what a flood can get out of it ---------------------------------------------------------------

  function Clears(history: seq<Mark>, i: nat, j: nat): (n: nat)
    requires i <= j <= |history|
    decreases j
  {
    if i == j then 0 else Clears(history, i, j - 1) + if history[j - 1].Cleared? then 1 else 0
  }

  function Replies(history: seq<Mark>, address: Text, i: nat, j: nat): (n: nat)
    requires i <= j <= |history|
    decreases j
  {
    if i == j then 0
    else Replies(history, address, i, j - 1)
         + if history[j - 1].Replied? && history[j - 1].address == address then 1 else 0
  }

  /** The answers to `address` in [i, j) are all within one cooldown of each other. */
  ghost predicate Burst(history: seq<Mark>, address: Text, i: nat, j: nat)
    requires i <= j <= |history|
  {
    forall k, l :: i <= k < l < j && history[k].Replied? && history[l].Replied?
                   && history[k].address == address && history[l].address == address ==>
                     history[l].now - history[k].now < RESPONSE_COOLDOWN_MS
  }

  /** The address was answered in [i, j) and is still remembered. */
  predicate Fresh(history: seq<Mark>, address: Text, i: nat, j: nat)
    requires i <= j <= |history|
  {
    exists k :: i <= k < j && history[k].Replied? && history[k].address == address && Undisturbed(history, k, j)
  }

  lemma {:induction false} OnePerClear(history: seq<Mark>, address: Text, i: nat, j: nat)
    requires Legal(history) && i <= j <= |history| && Burst(history, address, i, j)
    ensures Replies(history, address, i, j) <= Clears(history, i, j) + if Fresh(history, address, i, j) then 1 else 0
    decreases j
  {
    if i < j {
      OnePerClear(history, address, i, j - 1);
      var last := history[j - 1];
      if last.Replied? {
        FreshStays(history, address, i, j);
        if last.address == address {
          assert Undisturbed(history, j - 1, j);
          if Fresh(history, address, i, j - 1) {
            var k :| i <= k < j - 1 && history[k].Replied? && history[k].address == address && Undisturbed(history, k, j - 1);
            CloseRepliesNeedClear(history, k, j - 1);
          }
        }
      }
    }
  }

  lemma FreshStays(history: seq<Mark>, address: Text, i: nat, j: nat)
    requires i < j <= |history| && history[j - 1].Replied?
    ensures Fresh(history, address, i, j - 1) ==> Fresh(history, address, i, j)
  {
    if Fresh(history, address, i, j - 1) {
      var k :| i <= k < j - 1 && history[k].Replied? && history[k].address == address && Undisturbed(history, k, j - 1);
      assert Undisturbed(history, k, j);
    }
  }

  /** The last clear before j; i - 1 when there is none from i on. */
  function LastClear(history: seq<Mark>, i: nat, j: nat): (k: int)
    requires i <= j <= |history|
    ensures i - 1 <= k < j
    ensures k >= i ==> history[k].Cleared?
    ensures forall l :: k < l < j ==> !history[l].Cleared?
    decreases j
  {
    if i == j then i - 1 else if history[j - 1].Cleared? then j - 1 else LastClear(history, i, j - 1)
  }

  lemma {:induction false} ClearsSpaced(history: seq<Mark>, i: nat, j: nat)
    requires Legal(history) && i <= j <= |history| && Clears(history, i, j) > 0
    ensures LastClear(history, i, j) - i >= (MAX_TRACKED_RESPONDERS + 1) * (Clears(history, i, j) - 1)
    decreases j
  {
    if !history[j - 1].Cleared? {
      ClearsSpaced(history, i, j - 1);
    } else if Clears(history, i, j - 1) > 0 {
      ClearsSpaced(history, i, j - 1);
      var k := LastClear(history, i, j - 1);
      NoneAfterLast(history, i, j - 1);
      assert Undisturbed(history, k, j - 1);
      ClearsFarApart(history, k, j - 1);
    }
  }

  lemma {:induction false} NoneAfterLast(history: seq<Mark>, i: nat, j: nat)
    requires i <= j <= |history| && Clears(history, i, j) > 0
    ensures LastClear(history, i, j) >= i
    decreases j
  {
    if !history[j - 1].Cleared? {
      NoneAfterLast(history, i, j - 1);
    }
  }

  /** However many announcements are forged, answers to one address within one cooldown stay below
      two, plus one for every 257 things done meanwhile. */
  lemma FloodBound(history: seq<Mark>, address: Text, i: nat, j: nat)
    requires Legal(history) && i <= j <= |history| && Burst(history, address, i, j)
    ensures (MAX_TRACKED_RESPONDERS + 1) * (Replies(history, address, i, j) - 2) <= j - i
  {
    OnePerClear(history, address, i, j);
    if Clears(history, i, j) > 0 {
      ClearsSpaced(history, i, j);
    }
  }
}
