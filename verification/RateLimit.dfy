/** The limit on pairing attempts: per host, a deque of accepted attempts that stands for a sliding window. */
module RateLimit {
  import opened Domain

  const PAIR_ATTEMPT_WINDOW: int := 5 * MINUTE
  const PAIR_ATTEMPT_LIMIT: nat := 5

  datatype RateError = MobilePairingRateLimited

  /** The deque without the entries at its head that are no later than the cutoff. */
  function Prune(attempts: seq<Instant>, cutoff: Instant): seq<Instant> {
    if attempts != [] && attempts[0] <= cutoff then Prune(attempts[1..], cutoff) else attempts
  }

  /** The answer to one attempt of a host, and its deque afterwards. */
  function Attempt(attempts: seq<Instant>, now: Instant): (Result<(), RateError>, seq<Instant>) {
    var recent := Prune(attempts, now - PAIR_ATTEMPT_WINDOW);
    if |recent| >= PAIR_ATTEMPT_LIMIT then (Failure(MobilePairingRateLimited), recent)
    else (Success(()), recent + [now])
  }

  /** The deque after the attempts of one host at the given readings, in lock order. */
  function DequeAfter(times: seq<Instant>): seq<Instant> {
    if times == [] then [] else Attempt(DequeAfter(times[..|times| - 1]), times[|times| - 1]).1
  }

  predicate Admits(times: seq<Instant>, now: Instant) {
    Attempt(DequeAfter(times), now).0.Success?
  }

  /** The full history of the readings at which an attempt was accepted. */
  function Accepted(times: seq<Instant>): seq<Instant> {
    if times == [] then []
    else
      var before, now := times[..|times| - 1], times[|times| - 1];
      if Admits(before, now) then Accepted(before) + [now] else Accepted(before)
  }

  /** The entries of a history that lie in the five minutes up to a reading. */
  function InWindow(history: seq<Instant>, now: Instant): seq<Instant> {
    if history == [] then []
    else
      var before, last := InWindow(history[..|history| - 1], now), history[|history| - 1];
      if now - 300_000_000 < last then before + [last] else before
  }

  ghost predicate Sorted(s: seq<Instant>) {
    forall i, j :: 0 <= i < j < |s| ==> s[i] <= s[j]
  }

  lemma {:induction false} PruneDropsHead(attempts: seq<Instant>, cutoff: Instant) returns (k: nat)
    ensures k <= |attempts| && Prune(attempts, cutoff) == attempts[k..]
    ensures forall i :: 0 <= i < k ==> attempts[i] <= cutoff
    ensures k < |attempts| ==> cutoff < attempts[k]
  {
    k := 0;
    if attempts != [] && attempts[0] <= cutoff {
      var rest := PruneDropsHead(attempts[1..], cutoff);
      k := rest + 1;
    }
  }

  /** A sorted history splits at the cutoff. */
  lemma {:induction false} WindowIsTail(history: seq<Instant>, k: nat, now: Instant)
    requires k <= |history|
    requires forall i :: 0 <= i < k ==> history[i] <= now - PAIR_ATTEMPT_WINDOW
    requires forall i :: k <= i < |history| ==> now - PAIR_ATTEMPT_WINDOW < history[i]
    ensures InWindow(history, now) == history[k..]
  {
    if history != [] {
      var before, last := history[..|history| - 1], history[|history| - 1];
      if k < |history| {
        WindowIsTail(before, k, now);
        assert before[k..] + [last] == history[k..];
      } else {
        WindowIsTail(before, k - 1, now);
      }
    }
  }

  /** How many of the accepted attempts have left the deque. */
  function Dropped(times: seq<Instant>): int {
    |Accepted(times)| - |DequeAfter(times)|
  }

  /** For any readings at all, the deque is the end of the full history, and never longer than the limit. */
  lemma {:induction false} DequeIsTail(times: seq<Instant>)
    ensures 0 <= Dropped(times) && DequeAfter(times) == Accepted(times)[Dropped(times)..]
    ensures |DequeAfter(times)| <= 5
  {
    hide Prune, Accepted, DequeAfter;
    if times == [] {
      Empty();
    } else {
      var before, now := times[..|times| - 1], times[|times| - 1];
      assert times == before + [now];
      LastStep(before, now);
      DequeIsTail(before);
      var more := PruneDropsHead(DequeAfter(before), now - PAIR_ATTEMPT_WINDOW);
      var history, k := Accepted(before), Dropped(before);
      assert history[k..][more..] == history[k + more..];
      assert history[k + more..] + [now] == (history + [now])[k + more..];
    }
  }

  /** The accepted readings are among the readings, in their order. */
  lemma {:induction false} HistoryIsSorted(times: seq<Instant>)
    requires Sorted(times)
    ensures Sorted(Accepted(times))
    ensures times != [] ==> forall i :: 0 <= i < |Accepted(times)| ==> Accepted(times)[i] <= times[|times| - 1]
  {
    if times != [] {
      var before, now := times[..|times| - 1], times[|times| - 1];
      HistoryIsSorted(before);
      assert before != [] ==> before[|before| - 1] == times[|times| - 2] <= now;
      assert before == [] ==> Accepted(before) == [];
    }
  }

  /** When the readings do not go back, what was dropped has left the window. */
  lemma {:induction false} DroppedIsOld(times: seq<Instant>, i: nat)
    requires Sorted(times) && i < Dropped(times) && times != []
    ensures i < |Accepted(times)| && Accepted(times)[i] <= times[|times| - 1] - PAIR_ATTEMPT_WINDOW
  {
    hide Accepted, DequeAfter, Prune;
    var before, now := times[..|times| - 1], times[|times| - 1];
    assert times == before + [now];
    LastStep(before, now);
    DequeIsTail(before);
    var more := PruneDropsHead(DequeAfter(before), now - PAIR_ATTEMPT_WINDOW);
    if i < Dropped(before) {
      NoHistory(before);
      DroppedIsOld(before, i);
    } else {
      assert DequeAfter(before)[i - Dropped(before)] == Accepted(before)[i];
    }
  }

  /**
   * With readings that do not go back, pruning leaves exactly the accepted attempts of the last five minutes, so an
   * attempt is refused exactly when five accepted ones lie in that window.
   */
  lemma DequeIsWindow(times: seq<Instant>, now: Instant)
    requires Sorted(times + [now])
    ensures Prune(DequeAfter(times), now - PAIR_ATTEMPT_WINDOW) == InWindow(Accepted(times), now)
    ensures Sorted(DequeAfter(times)) && |DequeAfter(times)| <= 5
    ensures !Admits(times, now) <==> |InWindow(Accepted(times), now)| == 5
  {
    hide Accepted, DequeAfter, InWindow, Prune;
    var history, k := Accepted(times), Dropped(times);
    SortedFront(times, now);
    DequeIsTail(times);
    HistoryIsSorted(times);
    var more := PruneDropsHead(DequeAfter(times), now - PAIR_ATTEMPT_WINDOW);
    assert history[k..][more..] == history[k + more..];
    forall i | 0 <= i < k + more
      ensures history[i] <= now - PAIR_ATTEMPT_WINDOW
    {
      if k <= i {
        assert history[i] == DequeAfter(times)[i - k];
      } else {
        NoHistory(times);
        DroppedIsOld(times, i);
      }
    }
    forall i | k + more <= i < |history|
      ensures now - PAIR_ATTEMPT_WINDOW < history[i]
    {
      assert history[k + more] == DequeAfter(times)[more];
    }
    WindowIsTail(history, k + more, now);
  }

  lemma NoHistory(times: seq<Instant>)
    ensures times == [] ==> Dropped(times) == 0
  {
  }

  lemma SortedFront(times: seq<Instant>, now: Instant)
    requires Sorted(times + [now])
    ensures Sorted(times)
    ensures times != [] ==> times[|times| - 1] <= now
  {
    var all := times + [now];
    assert forall i :: 0 <= i < |times| ==> times[i] == all[i];
    assert all[|times|] == now;
  }

  /** An accepted attempt and the fifth one after it are at least five minutes apart. */
  lemma {:induction false} AcceptedAreSpaced(times: seq<Instant>, i: nat)
    requires Sorted(times) && i + 5 < |Accepted(times)|
    ensures Accepted(times)[i] + 300_000_000 <= Accepted(times)[i + 5]
  {
    var before, now := times[..|times| - 1], times[|times| - 1];
    if i + 5 < |Accepted(before)| {
      AcceptedAreSpaced(before, i);
    } else {
      assert times == before + [now];
      DequeIsTail(times);
      DroppedIsOld(times, i);
    }
  }

  /* For any readings at all. */

  /**
   * Position k of the full history has left the deque: some reading since has reached its five minutes behind those
   * before it.
   */
  ghost predicate Gone(times: seq<Instant>, k: nat)
    decreases k
  {
    exists n :: 0 <= n < |times| && PassedAt(times, n, k) && (k == 0 || Gone(times[..n + 1], k - 1))
  }

  /** When request n came, attempt k had been accepted, and was no longer in the five minutes before n's reading. */
  ghost predicate PassedAt(times: seq<Instant>, n: nat, k: nat)
    requires n < |times|
  {
    k < |Accepted(times[..n])| && Accepted(times[..n])[k] <= times[n] - 300_000_000
  }

  lemma {:induction false} GoneStays(times: seq<Instant>, now: Instant, k: nat)
    requires Gone(times, k)
    ensures Gone(times + [now], k)
  {
    hide Accepted;
    var n :| 0 <= n < |times| && PassedAt(times, n, k) && (k == 0 || Gone(times[..n + 1], k - 1));
    var all := times + [now];
    assert all[..n] == times[..n] && all[..n + 1] == times[..n + 1];
    assert PassedAt(all, n, k);
  }

  lemma {:induction false} PrefixCounts(times: seq<Instant>, n: nat)
    requires n <= |times|
    ensures Accepted(times[..n]) <= Accepted(times)
    ensures Dropped(times[..n]) <= Dropped(times)
  {
    hide Accepted, DequeAfter, Prune;
    if n == |times| {
      assert times[..n] == times;
    } else {
      var before, now := times[..|times| - 1], times[|times| - 1];
      assert times == before + [now] && before[..n] == times[..n];
      PrefixCounts(before, n);
      LastStep(before, now);
      var more := PruneDropsHead(DequeAfter(before), now - PAIR_ATTEMPT_WINDOW);
    }
  }

  /** What a reading drops: the entries at the head of the deque that it has left behind. */
  lemma LastDrop(times: seq<Instant>, now: Instant, k: nat)
    requires Dropped(times) <= k < |Accepted(times)|
    ensures 0 <= Dropped(times) <= Dropped(times + [now])
    ensures k < Dropped(times + [now]) <==>
              && (Dropped(times) < k ==> k - 1 < Dropped(times + [now]))
              && Accepted(times)[k] <= now - PAIR_ATTEMPT_WINDOW
  {
    hide Accepted, DequeAfter, Prune;
    DequeIsTail(times);
    LastStep(times, now);
    var more := PruneDropsHead(DequeAfter(times), now - PAIR_ATTEMPT_WINDOW);
    assert Dropped(times + [now]) == Dropped(times) + more;
    assert DequeAfter(times)[k - Dropped(times)] == Accepted(times)[k];
  }

  lemma {:induction false} DroppedIsGone(times: seq<Instant>, k: nat)
    requires k < Dropped(times)
    ensures Gone(times, k)
    decreases |times|, k
  {
    hide Accepted, DequeAfter;
    NoHistory(times);
    var before, now := times[..|times| - 1], times[|times| - 1];
    assert times == before + [now];
    if k < Dropped(before) {
      DroppedIsGone(before, k);
      GoneStays(before, now, k);
    } else {
      DequeIsTail(before);
      LastStep(before, now);
      LastDrop(before, now, k) by {
        DroppedWereAccepted(before, now, k);
      }
      assert PassedAt(times, |before|, k);
      assert times[..|before| + 1] == times;
      if 0 < k {
        DroppedIsGone(times, k - 1);
      }
    }
  }

  lemma DroppedWereAccepted(times: seq<Instant>, now: Instant, k: nat)
    requires k < Dropped(times + [now])
    ensures k < |Accepted(times)|
  {
    hide Accepted, DequeAfter, Prune;
    LastStep(times, now);
  }

  lemma {:induction false} GoneIsDropped(times: seq<Instant>, k: nat)
    requires Gone(times, k)
    ensures k < Dropped(times)
    decreases k
  {
    hide Accepted, DequeAfter;
    var n :| 0 <= n < |times| && PassedAt(times, n, k) && (k == 0 || Gone(times[..n + 1], k - 1));
    var before, here := times[..n], times[..n + 1];
    assert here == before + [times[n]];
    DequeIsTail(before);
    if 0 < k {
      GoneIsDropped(here, k - 1);
    }
    if Dropped(before) <= k {
      LastDrop(before, times[n], k);
    } else {
      PrefixCounts(here, n);
      assert here[..n] == before;
    }
    PrefixCounts(times, n + 1);
  }

  /**
   * For any readings, an attempt is refused exactly when five were accepted before and the fifth last of them has not
   * left the deque, counting the reading of the attempt itself.
   */
  lemma LimiterIsExact(times: seq<Instant>, now: Instant)
    ensures var count := |Accepted(times)|;
            !Admits(times, now) <==>
              5 <= count && !Gone(times + [now], count - 5)
  {
    hide Accepted, DequeAfter, Prune, Gone;
    DequeIsTail(times);
    LastStep(times, now);
    var more := PruneDropsHead(DequeAfter(times), now - PAIR_ATTEMPT_WINDOW);
    var k := |Accepted(times)| - PAIR_ATTEMPT_LIMIT;
    if 0 <= k {
      if Gone(times + [now], k) {
        GoneIsDropped(times + [now], k);
      }
      if k < Dropped(times + [now]) {
        DroppedIsGone(times + [now], k);
      }
    }
  }

  /** The five minutes before a reading hold five accepted attempts. */
  predicate WindowIsFull(times: seq<Instant>, now: Instant) {
    PAIR_ATTEMPT_LIMIT <= |InWindow(Accepted(times), now)|
  }

  /**
   * For any readings, when the limiter and the window disagree. An attempt passes although its window is full exactly
   * when the window is full and the fifth last accepted attempt has left the deque; it is refused although its window
   * is not full exactly when the window is not full, five were accepted, and the fifth last has not left.
   */
  lemma LimiterDiffersFromWindow(times: seq<Instant>, now: Instant)
    ensures var fifth := |Accepted(times)| - PAIR_ATTEMPT_LIMIT;
            && (Admits(times, now) && WindowIsFull(times, now) <==>
                  WindowIsFull(times, now) && 0 <= fifth && Gone(times + [now], fifth))
            && (!Admits(times, now) && !WindowIsFull(times, now) <==>
                  !WindowIsFull(times, now) && 0 <= fifth && !Gone(times + [now], fifth))
  {
    hide Accepted, DequeAfter, Prune, Gone;
    LimiterIsExact(times, now);
    WindowIsPart(Accepted(times), now);
  }

  lemma {:induction false} WindowIsPart(history: seq<Instant>, now: Instant)
    ensures |InWindow(history, now)| <= |history|
    ensures |InWindow(history, now)| == |history| ==>
              forall i :: 0 <= i < |history| ==> now - PAIR_ATTEMPT_WINDOW < history[i]
    ensures forall x :: x in InWindow(history, now) ==> now - PAIR_ATTEMPT_WINDOW < x
    ensures InWindow(history, now) == [] ==>
              forall i :: 0 <= i < |history| ==> history[i] <= now - PAIR_ATTEMPT_WINDOW
  {
    if history != [] {
      WindowIsPart(history[..|history| - 1], now);
    }
  }

  lemma {:induction false} WindowSplits(front: seq<Instant>, back: seq<Instant>, now: Instant)
    ensures InWindow(front + back, now) == InWindow(front, now) + InWindow(back, now)
  {
    if back == [] {
      assert front + back == front;
    } else {
      var rest, last := back[..|back| - 1], back[|back| - 1];
      assert (front + back)[..|front + back| - 1] == front + rest;
      WindowSplits(front, rest, now);
    }
  }

  /**
   * For any readings, the pruned deque is the window exactly when the attempts that left it are those outside the
   * window.
   */
  lemma DequeMeetsWindow(times: seq<Instant>, now: Instant)
    ensures Prune(DequeAfter(times), now - PAIR_ATTEMPT_WINDOW) == InWindow(Accepted(times), now) <==>
              forall k :: 0 <= k < |Accepted(times)| ==>
                            (Gone(times + [now], k) <==> Accepted(times)[k] <= now - PAIR_ATTEMPT_WINDOW)
  {
    hide Accepted, DequeAfter, Prune, Gone, InWindow;
    var history, cutoff := Accepted(times), now - PAIR_ATTEMPT_WINDOW;
    DequeIsTail(times);
    LastStep(times, now);
    var more := PruneDropsHead(DequeAfter(times), cutoff);
    var d := Dropped(times) + more;
    assert Dropped(times + [now]) == d;
    assert history[Dropped(times)..][more..] == history[d..];
    forall k | 0 <= k < |history|
      ensures Gone(times + [now], k) <==> k < d
    {
      if Gone(times + [now], k) {
        GoneIsDropped(times + [now], k);
      }
      if k < d {
        DroppedIsGone(times + [now], k);
      }
    }
    if history[d..] == InWindow(history, now) {
      assert history == history[..d] + history[d..];
      WindowSplits(history[..d], history[d..], now);
      WindowIsPart(history, now);
      WindowIsPart(history[..d], now);
      WindowIsPart(history[d..], now);
      forall k | 0 <= k < |history|
        ensures k < d <==> history[k] <= cutoff
      {
        if d <= k {
          assert history[d..][k - d] == history[k] && history[k] in InWindow(history, now);
        } else {
          AllInWindow(history[d..], now);
          assert history[..d][k] == history[k];
        }
      }
    }
    if forall k :: 0 <= k < |history| ==> (k < d <==> history[k] <= cutoff) {
      WindowIsTail(history, d, now);
    }
  }

  lemma AllInWindow(history: seq<Instant>, now: Instant)
    requires forall x :: x in history ==> now - PAIR_ATTEMPT_WINDOW < x
    ensures InWindow(history, now) == history
  {
    assert forall i :: 0 <= i < |history| ==> history[i] in history;
    WindowIsTail(history, 0, now);
  }

  /** For any readings, before the fifth attempt after an accepted one passes, that one has left the deque. */
  lemma SixthFollowsLeaving(times: seq<Instant>, i: nat)
    requires i + PAIR_ATTEMPT_LIMIT < |Accepted(times)|
    ensures Gone(times, i)
  {
    hide Accepted, DequeAfter, Gone;
    DequeIsTail(times);
    DroppedIsGone(times, i);
  }

  /** With a clock that goes back, an attempt can pass although six accepted ones lie in its window. */
  lemma BackwardClockAllowsMore()
    ensures exists times: seq<Instant>, now: Instant ::
              |InWindow(Accepted(times), now)| == PAIR_ATTEMPT_LIMIT + 1 && Admits(times, now)
  {
    hide Accepted, DequeAfter, InWindow, Prune;
    var five := [0, 0, 0, 0, 0];
    FiveCloseOnes(0);
    var late := PAIR_ATTEMPT_WINDOW;
    var times := five + [late];
    assert times[..5] == five;
    var k := PruneDropsHead(five, 0);
    assert k == 5;
    LastStep(five, late);
    assert DequeAfter(times) == [late] && Accepted(times) == times;
    var more := PruneDropsHead([late], -1);
    assert [late][0] == late;
    WindowIsTail(times, 0, late - 1);
    assert Admits(times, late - 1);
  }

  /**
   * And an attempt can be refused although one accepted attempt lies in its window: a late one at the head keeps four
   * older.
   */
  lemma BackwardClockRefusesEarly()
    ensures exists times: seq<Instant>, now: Instant ::
              |InWindow(Accepted(times), now)| == 1 && !Admits(times, now)
  {
    hide Accepted, DequeAfter, Prune;
    var times, now := [1, 0, 0, 0, 0], PAIR_ATTEMPT_WINDOW;
    FiveCloseOnes(1);
    var k := PruneDropsHead(times, 0);
    assert times[0] == 1 && k == 0;
    assert times == [1] + [0, 0, 0, 0];
    WindowSplits([1], [0, 0, 0, 0], now);
    WindowIsTail([1], 0, now);
    WindowIsTail([0, 0, 0, 0], 4, now);
    assert !Admits(times, now);
  }

  lemma FiveCloseOnes(first: Instant)
    requires 0 <= first < PAIR_ATTEMPT_WINDOW
    ensures var five := [first, 0, 0, 0, 0]; DequeAfter(five) == five && Accepted(five) == five
  {
    hide Accepted, DequeAfter;
    assert [first, 0, 0, 0, 0] == [] + [first] + [0] + [0] + [0] + [0];
    Empty();
    CloseOnePasses([], first);
    CloseOnePasses([] + [first], 0);
    CloseOnePasses([] + [first] + [0], 0);
    CloseOnePasses([] + [first] + [0] + [0], 0);
    CloseOnePasses([] + [first] + [0] + [0] + [0], 0);
  }

  lemma Empty()
    ensures DequeAfter([]) == [] && Accepted([]) == []
  {
  }

  lemma LastStep(times: seq<Instant>, now: Instant)
    ensures DequeAfter(times + [now]) == Attempt(DequeAfter(times), now).1
    ensures Accepted(times + [now]) == if Admits(times, now) then Accepted(times) + [now] else Accepted(times)
  {
    assert (times + [now])[..|times|] == times;
  }

  /** While fewer than five were accepted and none of them is five minutes back, an attempt passes. */
  lemma CloseOnePasses(times: seq<Instant>, now: Instant)
    requires DequeAfter(times) == times && Accepted(times) == times && |times| < PAIR_ATTEMPT_LIMIT
    requires forall i :: 0 <= i < |times| ==> now - PAIR_ATTEMPT_WINDOW < times[i]
    ensures DequeAfter(times + [now]) == times + [now] && Accepted(times + [now]) == times + [now]
  {
    hide DequeAfter, Accepted;
    LastStep(times, now);
    var k := PruneDropsHead(times, now - PAIR_ATTEMPT_WINDOW);
    assert k == 0;
  }

  /* Hosts. */

  datatype PairAttempt = PairAttempt(host: string, now: Instant)

  /** A request without a client counts for one host of its own. */
  function HostKey(client: string): string {
    if client == "" then "unknown" else client
  }

  /** The deques, created empty on first use. */
  type Deques = map<string, seq<Instant>>

  function DequeOf(deques: Deques, host: string): seq<Instant> {
    if host in deques then deques[host] else []
  }

  function Enforce(deques: Deques, client: string, now: Instant): (Result<(), RateError>, Deques) {
    var host := HostKey(client);
    var (r, attempts) := Attempt(DequeOf(deques, host), now);
    (r, deques[host := attempts])
  }

  function DequesAfter(requests: seq<PairAttempt>): Deques {
    if requests == [] then map[]
    else
      var last := requests[|requests| - 1];
      Enforce(DequesAfter(requests[..|requests| - 1]), last.host, last.now).1
  }

  function TimesOf(requests: seq<PairAttempt>, host: string): seq<Instant> {
    if requests == [] then []
    else
      var before, last := TimesOf(requests[..|requests| - 1], host), requests[|requests| - 1];
      if HostKey(last.host) == host then before + [last.now] else before
  }

  /**
   * Hosts are limited apart: each one's deque, and what its next attempt is answered, depend on its own attempts only.
   */
  lemma {:induction false} HostsAreApart(requests: seq<PairAttempt>, host: string)
    ensures DequeOf(DequesAfter(requests), host) == DequeAfter(TimesOf(requests, host))
    ensures forall client, now :: HostKey(client) == host ==>
              (Enforce(DequesAfter(requests), client, now).0.Success? <==> Admits(TimesOf(requests, host), now))
  {
    if requests != [] {
      HostsAreApart(requests[..|requests| - 1], host);
      var before := TimesOf(requests[..|requests| - 1], host);
      LastStep(before, requests[|requests| - 1].now);
    }
  }

  /** The limiter as the source keeps it. */
  class PairRateLimiter {
    var pairAttempts: Deques

    constructor ()
      ensures pairAttempts == map[]
    {
      pairAttempts := map[];
    }

    method Admit(client: string, now: Instant) returns (r: Result<(), RateError>)
      modifies this
      ensures (r, pairAttempts) == Enforce(old(pairAttempts), client, now)
    {
      var host := if client == "" then "unknown" else client;
      var cutoff := now - PAIR_ATTEMPT_WINDOW;
      if host !in pairAttempts {
        pairAttempts := pairAttempts[host := []];
      }
      while pairAttempts[host] != [] && pairAttempts[host][0] <= cutoff
        invariant host in pairAttempts
        invariant pairAttempts == old(pairAttempts)[host := pairAttempts[host]]
        invariant Prune(pairAttempts[host], cutoff) == Prune(DequeOf(old(pairAttempts), host), cutoff)
        decreases |pairAttempts[host]|
      {
        pairAttempts := pairAttempts[host := pairAttempts[host][1..]];
      }
      assert pairAttempts[host] == Prune(DequeOf(old(pairAttempts), host), cutoff);
      if |pairAttempts[host]| >= PAIR_ATTEMPT_LIMIT {
        assert pairAttempts == old(pairAttempts)[host := pairAttempts[host]];
        return Failure(MobilePairingRateLimited);
      }
      ghost var recent := pairAttempts[host];
      pairAttempts := pairAttempts[host := pairAttempts[host] + [now]];
      assert pairAttempts == old(pairAttempts)[host := recent + [now]];
      r := Success(());
    }
  }
}
