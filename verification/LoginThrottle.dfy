/** The sliding-window limiter on failed logins, one deque of failure times per address. */
module LoginThrottle {

  const WINDOW: real := 300.0
  const MAX_FAILURES: nat := 20

  /** How many of the recorded failures are at most `WINDOW` old. */
  function Recent(log: seq<real>, now: real): nat
  {
    if log == [] then 0
    else Recent(log[..|log| - 1], now) + if now - log[|log| - 1] <= WINDOW then 1 else 0
  }

  ghost predicate Sorted(log: seq<real>)
  {
    forall i, j | 0 <= i < j < |log| :: log[i] <= log[j]
  }

  /** Any 21 consecutive failures span more than the window. */
  ghost predicate Spaced(log: seq<real>)
  {
    forall i | 0 <= i && i + 20 < |log| :: log[i + 20] - log[i] > 300.0
  }

  /** In a sorted log, what is left after dropping the expired front is exactly the recent part. */
  lemma {:induction false} RecentIsSuffix(log: seq<real>, now: real, k: nat)
    requires k <= |log|
    requires forall i | 0 <= i < k :: now - log[i] > WINDOW
    requires forall i | k <= i < |log| :: now - log[i] <= WINDOW
    ensures Recent(log, now) == |log| - k
    decreases |log|
  {
    if k < |log| {
      RecentIsSuffix(log[..|log| - 1], now, k);
    } else if log != [] {
      RecentIsSuffix(log[..|log| - 1], now, k - 1);
    }
  }

  /** Fewer than 20 recent failures means that the twentieth last one has expired. */
  lemma {:induction false} TwentiethExpired(log: seq<real>, now: real, n: nat)
    requires Sorted(log) && (forall i | 0 <= i < |log| :: log[i] <= now)
    requires n <= |log| && Recent(log, now) < n
    ensures now - log[|log| - n] > WINDOW
    decreases n
  {
    if n > 1 && now - log[|log| - 1] <= WINDOW {
      TwentiethExpired(log[..|log| - 1], now, n - 1);
    } else if n > 1 {
      assert log[|log| - n] <= log[|log| - 1];
    }
  }

  lemma {:induction false} RecentShrinks(log: seq<real>, earlier: real, later: real)
    requires earlier <= later
    ensures Recent(log, later) <= Recent(log, earlier)
    decreases |log|
  {
    if log != [] {
      RecentShrinks(log[..|log| - 1], earlier, later);
    }
  }

  lemma RecordKeepsSpacing(log: seq<real>, now: real)
    requires Sorted(log) && Spaced(log) && (forall i | 0 <= i < |log| :: log[i] <= now)
    requires Recent(log, now) < MAX_FAILURES
    ensures Spaced(log + [now])
  {
    if |log| >= MAX_FAILURES {
      TwentiethExpired(log, now, MAX_FAILURES);
    }
  }

  /** The deque `q` is what is left of the full log `l` once some expired failures have been dropped. */
  ghost predicate Tracks(l: seq<real>, q: seq<real>, clock: real)
  {
    && Sorted(l) && (forall i | 0 <= i < |l| :: l[i] <= clock)
    && |q| <= |l| && q == l[|l| - |q|..]
    && (forall i | 0 <= i < |l| - |q| :: clock - l[i] > WINDOW)
  }

  lemma TracksLater(l: seq<real>, q: seq<real>, clock: real, now: real)
    requires Tracks(l, q, clock) && clock <= now
    ensures Tracks(l, q, now)
  {
  }

  lemma TracksPush(l: seq<real>, q: seq<real>, now: real)
    requires Tracks(l, q, now)
    ensures Tracks(l + [now], q + [now], now)
    ensures Spaced(l) && Recent(l, now) < MAX_FAILURES ==> Spaced(l + [now])
  {
    if Spaced(l) && Recent(l, now) < MAX_FAILURES {
      RecordKeepsSpacing(l, now);
    }
    assert (l + [now])[|l| - |q|..] == l[|l| - |q|..] + [now];
  }

  type Times = map<string, seq<real>>

  /** A missing entry of the default dictionary is an empty deque. */
  function At(m: Times, ip: string): seq<real>
  {
    if ip in m then m[ip] else []
  }

  ghost predicate TrackAt(log: Times, failures: Times, clock: real, ip: string)
  {
    Tracks(At(log, ip), At(failures, ip), clock)
  }

  ghost predicate AllTrack(log: Times, failures: Times, clock: real)
  {
    forall ip :: TrackAt(log, failures, clock, ip)
  }

  lemma TrackAfter(log: Times, failures: Times, clock: real, now: real, ip: string, l: seq<real>, q: seq<real>, a: string)
    requires Tracks(At(log, a), At(failures, a), clock) && clock <= now && Tracks(l, q, now)
    ensures Tracks(At(log[ip := l], a), At(failures[ip := q], a), now)
    ensures a != ip ==> At(log[ip := l], a) == At(log, a)
  {
    if a == ip {
      assert At(log[ip := l], a) == l && At(failures[ip := q], a) == q;
    } else {
      assert At(log[ip := l], a) == At(log, a) && At(failures[ip := q], a) == At(failures, a);
      TracksLater(At(log, a), At(failures, a), clock, now);
    }
  }

  lemma AllTrackAfter(log: Times, failures: Times, clock: real, now: real,
                      ip: string, l: seq<real>, q: seq<real>)
    requires AllTrack(log, failures, clock) && clock <= now && Tracks(l, q, now)
    ensures AllTrack(log[ip := l], failures[ip := q], now)
    ensures forall a | a != ip :: At(log[ip := l], a) == At(log, a)
  {
    var log', failures' := log[ip := l], failures[ip := q];
    forall a
      ensures TrackAt(log', failures', now, a)
      ensures a != ip ==> At(log', a) == At(log, a)
    {
      assert TrackAt(log, failures, clock, a);
      TrackAfter(log, failures, clock, now, ip, l, q, a);
    }
  }

  lemma TracksNow(log: Times, failures: Times, clock: real, now: real, ip: string)
    requires AllTrack(log, failures, clock) && clock <= now
    ensures TrackAt(log, failures, now, ip)
  {
    assert TrackAt(log, failures, clock, ip);
    TracksLater(At(log, ip), At(failures, ip), clock, now);
  }

  lemma TrackTrimmed(log: Times, failures: Times, clock: real, now: real, ip: string, q: seq<real>, a: string)
    requires Tracks(At(log, a), At(failures, a), clock) && clock <= now && Tracks(At(log, ip), q, now)
    ensures Tracks(At(log, a), At(failures[ip := q], a), now)
  {
    if a == ip {
      assert At(failures[ip := q], a) == q;
    } else {
      assert At(failures[ip := q], a) == At(failures, a);
      TracksLater(At(log, a), At(failures, a), clock, now);
    }
  }

  lemma AllTrackTrimmed(log: Times, failures: Times, clock: real, now: real, ip: string, q: seq<real>)
    requires AllTrack(log, failures, clock) && clock <= now && Tracks(At(log, ip), q, now)
    ensures AllTrack(log, failures[ip := q], now)
  {
    var after := failures[ip := q];
    forall a
      ensures TrackAt(log, after, now, a)
    {
      assert TrackAt(log, failures, clock, a);
      TrackTrimmed(log, failures, clock, now, ip, q, a);
    }
  }

  lemma AllTrackWithout(log: Times, failures: Times, clock: real, ip: string)
    requires AllTrack(log, failures, clock)
    ensures AllTrack(log - {ip}, failures - {ip}, clock)
    ensures forall a | a != ip :: At(log - {ip}, a) == At(log, a)
  {
    var log', failures' := log - {ip}, failures - {ip};
    forall a ensures TrackAt(log', failures', clock, a) {
      if a != ip {
        assert TrackAt(log, failures, clock, a);
      }
    }
  }

  /** What is left of the deque once no expired failure is at its front is exactly the recent part of the log. */
  lemma LeftIsRecent(l: seq<real>, q: seq<real>, now: real)
    requires Tracks(l, q, now) && (q != [] ==> now - q[0] <= WINDOW)
    ensures |q| == Recent(l, now)
  {
    assert q != [] ==> q[0] == l[|l| - |q|];
    RecentIsSuffix(l, now, |l| - |q|);
  }

  /** Drops the expired front of a deque. */
  method Expire(failures: seq<real>, now: real, ghost l: seq<real>) returns (q: seq<real>)
    requires Tracks(l, failures, now)
    ensures Tracks(l, q, now) && |q| == Recent(l, now)
  {
    q := failures;
    while q != [] && now - q[0] > WINDOW
      invariant Tracks(l, q, now)
    {
      assert q[0] == l[|l| - |q|];
      q := q[1..];
    }
    LeftIsRecent(l, q, now);
  }

  datatype Reply = TooMany | BadPassword | LoggedIn

  class Throttle {
    var failures: Times
    /** Every failure recorded for an address since it was last cleared, and the latest clock reading. */
    ghost var log: Times
    ghost var clock: real

    ghost predicate Valid()
      reads this
    {
      AllTrack(log, failures, clock)
    }

    ghost predicate AllSpaced()
      reads this
    {
      forall ip :: Spaced(At(log, ip))
    }

    constructor ()
      ensures Valid() && log == map[] && AllSpaced()
    {
      failures := map[];
      log := map[];
      clock := 0.0;
    }

    /** Drops expired failures and says whether the address may try: not if 20 recent ones are left. */
    method LoginAllowed(ip: string, now: real) returns (allowed: bool)
      requires Valid() && clock <= now
      modifies this`failures, this`clock
      ensures Valid() && clock == now
      ensures allowed <==> Recent(At(log, ip), now) < 20
    {
      TracksNow(log, failures, clock, now, ip);
      var q := Expire(At(failures, ip), now, At(log, ip));
      AllTrackTrimmed(log, failures, clock, now, ip, q);
      failures := failures[ip := q];
      clock := now;
      allowed := |q| < MAX_FAILURES;
    }

    /** Appends a failure. */
    method RecordFailure(ip: string, now: real)
      requires Valid() && clock <= now
      modifies this
      ensures Valid() && clock == now
      ensures old(AllSpaced()) && Recent(old(At(log, ip)), now) < MAX_FAILURES ==> AllSpaced()
      ensures At(log, ip) == old(At(log, ip)) + [now]
      ensures forall a | a != ip :: At(log, a) == old(At(log, a))
    {
      var q := At(failures, ip) + [now];
      ghost var l := At(log, ip) + [now];
      TracksNow(log, failures, clock, now, ip);
      TracksPush(At(log, ip), At(failures, ip), now);
      AllTrackAfter(log, failures, clock, now, ip, l, q);
      failures := failures[ip := q];
      log := log[ip := l];
      clock := now;
      assert forall a :: At(log, a) == if a == ip then l else At(old(log), a);
    }

    method ClearFailures(ip: string)
      requires Valid()
      modifies this
      ensures Valid() && At(log, ip) == [] && clock == old(clock)
      ensures old(AllSpaced()) ==> AllSpaced()
      ensures forall a | a != ip :: At(log, a) == old(At(log, a))
    {
      AllTrackWithout(log, failures, clock, ip);
      failures := failures - {ip};
      log := log - {ip};
      assert forall a :: At(log, a) == if a == ip then [] else At(old(log), a);
    }

    /**
      The login handler. It is refused exactly when 20 recorded failures are at most 300 seconds old,
      and it keeps the failures of every address spaced out: any 21 in a row span more than that.
     */
    method Login(ip: string, passwordOk: bool, now: real, later: real) returns (r: Reply)
      requires Valid() && clock <= now <= later
      modifies this
      ensures Valid()
      ensures old(AllSpaced()) ==> AllSpaced()
      ensures r == TooMany <==> Recent(At(old(log), ip), now) >= 20
      ensures r == LoggedIn ==> passwordOk && At(log, ip) == []
      ensures r == BadPassword ==> !passwordOk && At(log, ip) == At(old(log), ip) + [later]
      ensures r == TooMany ==> At(log, ip) == At(old(log), ip)
      ensures forall a | a != ip :: At(log, a) == At(old(log), a)
    {
      var allowed := LoginAllowed(ip, now);
      if !allowed {
        return TooMany;
      }
      if !passwordOk {
        RecentShrinks(At(log, ip), now, later);
        RecordFailure(ip, later);
        return BadPassword;
      }
      ClearFailures(ip);
      return LoggedIn;
    }
  }
}
