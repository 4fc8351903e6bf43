/**
 * The device node's replay guard: a cache of accepted nonces that is purged of expired ones, compared with a log that
 * forgets nothing.
 */
module NonceCache {
  import opened Domain

  type Seen = map<string, Instant>

  datatype AuthError = EnvelopeExpired | SignatureInvalid | NonceReplayed

  /** What the guard looks at in an envelope, and the clock reading of the request that carries it. */
  datatype Attempt = Attempt(nonce: string, issuedAt: Instant, expiresAt: Instant, signed: bool, now: Instant) {
    /** The request passes the checks that come before the cache is locked. */
    predicate ReachesCache() {
      issuedAt <= now < expiresAt && signed
    }
  }

  function Purge(seen: Seen, now: Instant): Seen {
    map nonce | nonce in seen && now < seen[nonce] :: seen[nonce]
  }

  /** The answer to one request, and the cache after it. */
  function Authorize(seen: Seen, a: Attempt): (Result<(), AuthError>, Seen) {
    if a.now < a.issuedAt || a.expiresAt <= a.now then (Failure(EnvelopeExpired), seen)
    else if !a.signed then (Failure(SignatureInvalid), seen)
    else
      var purged := Purge(seen, a.now);
      if a.nonce in purged then (Failure(NonceReplayed), purged)
      else (Success(()), purged[a.nonce := a.expiresAt])
  }

  /** The cache after the first n requests, in lock order. */
  function CacheAfter(attempts: seq<Attempt>, n: nat): Seen
    requires n <= |attempts|
  {
    if n == 0 then map[] else Authorize(CacheAfter(attempts, n - 1), attempts[n - 1]).1
  }

  predicate Accepts(attempts: seq<Attempt>, i: nat)
    requires i < |attempts|
  {
    Authorize(CacheAfter(attempts, i), attempts[i]).0.Success?
  }

  /** What was decided does not depend on the requests that follow. */
  lemma {:induction false} LaterRequestsChangeNothing(attempts: seq<Attempt>, more: seq<Attempt>, n: nat)
    requires n <= |attempts|
    ensures CacheAfter(attempts + more, n) == CacheAfter(attempts, n)
    ensures n < |attempts| ==> (Accepts(attempts + more, n) <==> Accepts(attempts, n))
  {
    if n > 0 {
      LaterRequestsChangeNothing(attempts, more, n - 1);
    }
  }

  /** No nonce was accepted twice. */
  ghost predicate AdmittedOnce(attempts: seq<Attempt>) {
    forall i, j :: 0 <= i < j < |attempts| && Accepts(attempts, i) && Accepts(attempts, j) ==>
                     attempts[i].nonce != attempts[j].nonce
  }

  /** Request k was accepted, and no request between it and n read a clock at or after its expiry. */
  ghost predicate Remembered(attempts: seq<Attempt>, k: nat, n: nat)
    requires k < n <= |attempts|
  {
    && Accepts(attempts, k)
    && forall j :: k < j < n && attempts[j].ReachesCache() ==> attempts[j].now < attempts[k].expiresAt
  }

  /**
   * What the cache holds, for any clock readings: a nonce is in it exactly when a request that carried it was accepted
   * and is still remembered, and then with that request's expiry.
   */
  lemma {:induction false} CacheHoldsRemembered(attempts: seq<Attempt>, n: nat, nonce: string)
    requires n <= |attempts|
    ensures nonce in CacheAfter(attempts, n) <==>
              exists k :: 0 <= k < n && attempts[k].nonce == nonce && Remembered(attempts, k, n)
    ensures forall k :: 0 <= k < n && attempts[k].nonce == nonce && Remembered(attempts, k, n) ==>
                          CacheAfter(attempts, n)[nonce] == attempts[k].expiresAt
  {
    if n > 0 {
      CacheHoldsRemembered(attempts, n - 1, nonce);
      var before, last := CacheAfter(attempts, n - 1), attempts[n - 1];
      forall k | 0 <= k < n - 1 && attempts[k].nonce == nonce
        ensures Remembered(attempts, k, n) <==>
                  && Remembered(attempts, k, n - 1)
                  && (last.ReachesCache() ==> last.now < attempts[k].expiresAt)
      {
      }
      assert Remembered(attempts, n - 1, n) <==> Accepts(attempts, n - 1);
      if nonce in before {
        var k :| 0 <= k < n - 1 && attempts[k].nonce == nonce && Remembered(attempts, k, n - 1);
        assert before[nonce] == attempts[k].expiresAt;
        assert nonce in CacheAfter(attempts, n) ==> Remembered(attempts, k, n) || Accepts(attempts, n - 1);
      }
    }
  }

  /** Request i was accepted, carried the nonce of request j, and is not expired at j's reading. */
  ghost predicate Replays(attempts: seq<Attempt>, i: nat, j: nat)
    requires i < j < |attempts|
  {
    attempts[i].nonce == attempts[j].nonce && Accepts(attempts, i) && attempts[j].now < attempts[i].expiresAt
  }

  /** An unbounded log of accepted requests refuses a nonce that is in it with an expiry still to come. */
  ghost predicate LogAccepts(attempts: seq<Attempt>, j: nat)
    requires j < |attempts|
  {
    attempts[j].ReachesCache() && !exists i :: 0 <= i < j && Replays(attempts, i, j)
  }

  /** The readings of the requests that reach the cache do not go back. */
  ghost predicate ClockHolds(attempts: seq<Attempt>, n: nat)
    requires n <= |attempts|
  {
    forall i, j :: 0 <= i < j < n && attempts[i].ReachesCache() && attempts[j].ReachesCache() ==>
                     attempts[i].now <= attempts[j].now
  }

  /** The cache's answer in terms of what is remembered. */
  lemma CacheDecides(attempts: seq<Attempt>, j: nat)
    requires j < |attempts|
    ensures Accepts(attempts, j) <==>
              && attempts[j].ReachesCache()
              && !exists i :: 0 <= i < j && Replays(attempts, i, j) && Remembered(attempts, i, j)
  {
    CacheHoldsRemembered(attempts, j, attempts[j].nonce);
    if attempts[j].ReachesCache() && attempts[j].nonce in Purge(CacheAfter(attempts, j), attempts[j].now) {
      var i :| 0 <= i < j && attempts[i].nonce == attempts[j].nonce && Remembered(attempts, i, j);
      assert Replays(attempts, i, j);
    }
  }

  /**
   * What each request is answered, for any readings: out of its time it has expired, then a signature that does not
   * verify is invalid, and then it is a replay exactly when it replays a request that is still remembered.
   */
  lemma GuardAnswers(attempts: seq<Attempt>, j: nat)
    requires j < |attempts|
    ensures var a := attempts[j];
            var replays := exists i :: 0 <= i < j && Replays(attempts, i, j) && Remembered(attempts, i, j);
            Authorize(CacheAfter(attempts, j), a).0 ==
            if !(a.issuedAt <= a.now < a.expiresAt) then Failure(EnvelopeExpired)
            else if !a.signed then Failure(SignatureInvalid)
            else if replays then Failure(NonceReplayed)
            else Success(())
  {
    hide CacheAfter, Replays, Remembered;
    CacheDecides(attempts, j);
  }

  /** A request is answered exactly as by a log when the clock does not go back in lock order. */
  lemma CacheRefinesLog(attempts: seq<Attempt>, j: nat)
    requires j < |attempts|
    requires ClockHolds(attempts, j + 1)
    ensures Accepts(attempts, j) <==> LogAccepts(attempts, j)
  {
    CacheDecides(attempts, j);
    if attempts[j].ReachesCache() {
      forall i | 0 <= i < j && Replays(attempts, i, j)
        ensures Remembered(attempts, i, j)
      {
      }
    }
  }

  /**
   * For any readings at all, the cache never refuses what the log accepts. It accepts what the log refuses exactly when
   * the request replays an accepted one, and each one it replays was overtaken: a request in between read a clock at or
   * after that one's expiry.
   */
  lemma CacheDiffersFromLog(attempts: seq<Attempt>, j: nat)
    requires j < |attempts|
    ensures LogAccepts(attempts, j) ==> Accepts(attempts, j)
    ensures Accepts(attempts, j) && !LogAccepts(attempts, j) <==>
              && attempts[j].ReachesCache()
              && (exists i :: 0 <= i < j && Replays(attempts, i, j))
              && (forall i :: 0 <= i < j && Replays(attempts, i, j) ==>
                                exists m :: && i < m < j
                                            && attempts[m].ReachesCache()
                                            && attempts[i].expiresAt <= attempts[m].now)
  {
    CacheDecides(attempts, j);
    forall i | 0 <= i < j && Replays(attempts, i, j)
      ensures Remembered(attempts, i, j) <==>
                !exists m :: && i < m < j
                             && attempts[m].ReachesCache()
                             && attempts[i].expiresAt <= attempts[m].now
    {
    }
  }

  /** One envelope is accepted at most once in any run whose clock does not go back. */
  lemma EnvelopeIsAcceptedOnce(attempts: seq<Attempt>, i: nat, j: nat)
    requires i < j < |attempts|
    requires ClockHolds(attempts, j + 1)
    requires attempts[i].nonce == attempts[j].nonce && attempts[i].expiresAt == attempts[j].expiresAt
    requires Accepts(attempts, i)
    ensures !Accepts(attempts, j)
  {
    CacheRefinesLog(attempts, j);
    if attempts[j].ReachesCache() {
      assert Replays(attempts, i, j);
    }
  }

  /** With a clock that goes back, one envelope can be accepted twice. */
  lemma BackwardClockAllowsReplay()
    ensures exists attempts: seq<Attempt> ::
              && |attempts| == 3
              && attempts[0] == attempts[2]
              && Accepts(attempts, 0) && Accepts(attempts, 2)
  {
    var e := Attempt("a", 0, 30, true, 10);
    var other := Attempt("b", 20, 60, true, 40);
    var attempts := [e, other, e];
    var s1 := CacheAfter(attempts, 1);
    assert s1 == map["a" := 30] by {
      assert CacheAfter(attempts, 0) == map[];
      assert Purge(map[], 10) == map[];
    }
    assert Purge(s1, 40) == map[];
    assert CacheAfter(attempts, 2) == map["b" := 60];
    assert "a" != "b";
    assert "a" !in Purge(CacheAfter(attempts, 2), 10);
    assert Accepts(attempts, 0) && Accepts(attempts, 2);
  }

  /** The cache as the source keeps it. */
  class NonceGuard {
    var seen: Seen

    constructor ()
      ensures seen == map[]
    {
      seen := map[];
    }

    method Admit(a: Attempt) returns (r: Result<(), AuthError>)
      modifies this
      ensures (r, seen) == Authorize(old(seen), a)
    {
      if a.now < a.issuedAt || a.expiresAt <= a.now {
        return Failure(EnvelopeExpired);
      }
      if !a.signed {
        return Failure(SignatureInvalid);
      }
      var expired := set nonce | nonce in seen && seen[nonce] <= a.now;
      ghost var all := expired;
      while expired != {}
        invariant expired <= all
        invariant seen == map nonce | nonce in old(seen) && nonce !in all - expired :: old(seen)[nonce]
        decreases expired
      {
        var nonce :| nonce in expired;
        seen := seen - {nonce};
        expired := expired - {nonce};
      }
      assert seen == Purge(old(seen), a.now);
      if a.nonce in seen {
        return Failure(NonceReplayed);
      }
      seen := seen[a.nonce := a.expiresAt];
      r := Success(());
    }
  }
}
