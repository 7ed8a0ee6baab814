/** The assistant's request limiter: a sliding window of one minute for each key. */
module Limiter {

  const MINUTE := 60_000_000_000
  const DEFAULT_LIMIT := 30

  /** The stamps strictly after `cutoff`, in order. */
  function After(stamps: seq<int>, cutoff: int): seq<int>
    decreases |stamps|
  {
    if stamps == [] then []
    else
      var n := |stamps| - 1;
      After(stamps[..n], cutoff) + if stamps[n] > cutoff then [stamps[n]] else []
  }

  /** The stamps strictly after `cutoff` are counted one by one. */
  lemma {:induction false} AfterCounts(stamps: seq<int>, cutoff: int)
    ensures |After(stamps, cutoff)| == |set i | 0 <= i < |stamps| && stamps[i] > cutoff|
    decreases |stamps|
  {
    var late := set i | 0 <= i < |stamps| && stamps[i] > cutoff;
    if stamps == [] {
      assert late == {};
    } else {
      var n := |stamps| - 1;
      AfterCounts(stamps[..n], cutoff);
      var before := set i | 0 <= i < n && stamps[..n][i] > cutoff;
      assert forall i :: 0 <= i < n ==> stamps[..n][i] == stamps[i];
      if stamps[n] > cutoff { assert late == before + {n} && n !in before; } else { assert late == before; }
    }
  }

  predicate Ascending(stamps: seq<int>) {
    forall i, j :: 0 <= i < j < |stamps| ==> stamps[i] <= stamps[j]
  }

  /** Any `limit + 1` consecutive stamps take at least a minute. */
  predicate Paced(stamps: seq<int>, limit: nat) {
    forall i :: limit <= i < |stamps| ==> stamps[i] - stamps[i - limit] >= MINUTE
  }

  /** How many stamps lie in the minute that starts after `start`. */
  function InMinuteFrom(stamps: seq<int>, start: int): nat
    decreases |stamps|
  {
    if stamps == [] then 0
    else
      var n := |stamps| - 1;
      InMinuteFrom(stamps[..n], start) + if start < stamps[n] <= start + MINUTE then 1 else 0
  }

  lemma {:induction false} AfterAfter(stamps: seq<int>, early: int, late: int)
    requires early <= late
    ensures After(After(stamps, early), late) == After(stamps, late)
    decreases |stamps|
  {
    if stamps != [] {
      var n := |stamps| - 1;
      AfterAfter(stamps[..n], early, late);
      var front := After(stamps[..n], early);
      if stamps[n] > early { assert (front + [stamps[n]])[..|front|] == front; }
      else { assert After(stamps, early) == front; }
    }
  }

  lemma {:induction false} AfterMore(stamps: seq<int>, t: int, cutoff: int)
    requires t > cutoff
    ensures After(stamps + [t], cutoff) == After(stamps, cutoff) + [t]
  {
    assert (stamps + [t])[..|stamps|] == stamps;
  }

  /** A late stamp brings all after it along. */
  lemma {:induction false} AfterAtLeast(stamps: seq<int>, cutoff: int, j: nat)
    requires Ascending(stamps) && j < |stamps| && stamps[j] > cutoff
    ensures |After(stamps, cutoff)| >= |stamps| - j
    decreases |stamps|
  {
    var n := |stamps| - 1;
    if j < n {
      assert stamps[..n][j] == stamps[j];
      AfterAtLeast(stamps[..n], cutoff, j);
    }
  }

  lemma {:induction false} AcceptedIsPaced(stamps: seq<int>, now: int, limit: nat)
    requires Ascending(stamps) && Paced(stamps, limit) && |After(stamps, now - MINUTE)| < limit
    ensures Paced(stamps + [now], limit)
  {
    var j := |stamps| - limit;
    if j >= 0 && stamps[j] > now - MINUTE { AfterAtLeast(stamps, now - MINUTE, j); }
  }

  lemma {:induction false} InMinuteBefore(stamps: seq<int>, start: int, j: nat)
    requires j <= |stamps| && forall i :: 0 <= i < j ==> stamps[i] <= start
    ensures InMinuteFrom(stamps, start) <= |stamps| - j
    decreases |stamps|
  {
    if |stamps| > j {
      InMinuteBefore(stamps[..|stamps| - 1], start, j);
    } else if stamps != [] {
      InMinuteBefore(stamps[..|stamps| - 1], start, j - 1);
    }
  }

  /** No minute, wherever it starts, has more than `limit` accepted requests. */
  lemma {:induction false} AtMostLimitInAnyMinute(stamps: seq<int>, start: int, limit: nat)
    requires Ascending(stamps) && Paced(stamps, limit)
    ensures InMinuteFrom(stamps, start) <= limit
    decreases |stamps|
  {
    if stamps != [] {
      var n := |stamps| - 1;
      if stamps[n] <= start + MINUTE && n >= limit {
        assert stamps[n] - stamps[n - limit] >= MINUTE;
        InMinuteBefore(stamps, start, n + 1 - limit);
      } else {
        AtMostLimitInAnyMinute(stamps[..n], start, limit);
        if n < limit { InMinuteBefore(stamps, start, 0); }
      }
    }
  }

  /** The stored stamps of a key, and all its accepted ones, as they are at `clock`. */
  predicate Tracks(stored: seq<int>, accepted: seq<int>, cut: int, clock: int, limit: int) {
    && stored == After(accepted, cut) && cut <= clock - MINUTE && |stored| <= limit
    && Ascending(accepted) && limit >= 0 && Paced(accepted, limit)
    && forall i :: 0 <= i < |accepted| ==> accepted[i] <= clock
  }

  /** What is stored is enough to decide, and to go on. */
  lemma {:induction false} Decided(stored: seq<int>, accepted: seq<int>, cut: int, clock: int, limit: int, now: int)
    requires Tracks(stored, accepted, cut, clock, limit) && now >= clock
    ensures var recent, cutoff := After(stored, now - MINUTE), now - MINUTE;
            && recent == After(accepted, cutoff)
            && if |recent| < limit then Tracks(recent + [now], accepted + [now], cutoff, now, limit)
               else |recent| <= limit ==> Tracks(recent, accepted, cutoff, now, limit)
  {
    AfterAfter(accepted, cut, now - MINUTE);
    if |After(accepted, now - MINUTE)| < limit {
      AcceptedIsPaced(accepted, now, limit);
      AfterMore(accepted, now, now - MINUTE);
    }
  }

  lemma {:induction false} TracksLater(stored: seq<int>, accepted: seq<int>, cut: int, clock: int, limit: int,
                                       now: int)
    requires Tracks(stored, accepted, cut, clock, limit) && now >= clock
    ensures Tracks(stored, accepted, cut, now, limit)
  {}

  lemma {:induction false} AfterIsShorter(stamps: seq<int>, cutoff: int)
    ensures |After(stamps, cutoff)| <= |stamps|
    decreases |stamps|
  {
    if stamps != [] { AfterIsShorter(stamps[..|stamps| - 1], cutoff); }
  }

  /** Every request ever accepted for a key, and where its stored stamps were last cut off. */
  datatype Past = Past(accepted: seq<int>, cut: int)

  class Service {
    const limit: int
    var requestTimes: map<string, seq<int>>
    ghost var past: map<string, Past>
    ghost var clock: int

    ghost function Accepted(key: string): seq<int>
      reads this
    {
      if key in past then past[key].accepted else []
    }

    function Stored(key: string): seq<int>
      reads this
    {
      if key in requestTimes then requestTimes[key] else []
    }

    ghost predicate KeyValid(key: string)
      reads this
    {
      && (key in past <==> key in requestTimes)
      && (key in past ==> Tracks(requestTimes[key], past[key].accepted, past[key].cut, clock, limit))
    }

    ghost predicate Valid()
      reads this
    {
      limit > 0 && forall key :: KeyValid(key)
    }

    constructor (requestsPerMinute: int, ghost now: int)
      ensures Valid() && clock == now && limit == (if requestsPerMinute <= 0 then 30 else requestsPerMinute)
      ensures forall key :: Accepted(key) == []
    {
      limit := if requestsPerMinute <= 0 then DEFAULT_LIMIT else requestsPerMinute;
      requestTimes, past, clock := map[], map[], now;
    }

    /** A request is accepted exactly when fewer than `limit` of all the requests ever accepted for its
        key came within the last minute; other keys do not matter. */
    method Allow(key: string, now: int) returns (allowed: bool)
      requires Valid() && now >= clock
      modifies this
      ensures Valid() && clock == now
      ensures allowed <==>
                |set i | 0 <= i < |old(Accepted(key))| && old(Accepted(key))[i] > now - 60_000_000_000| < limit
      ensures Accepted(key) == old(Accepted(key)) + if allowed then [now] else []
      ensures |Stored(key)| <= limit
      ensures forall other :: other != key ==>
              Accepted(other) == old(Accepted(other)) && Stored(other) == old(Stored(other))
    {
      ghost var was := clock;
      var recent := Compact(Stored(key), now - MINUTE);
      ghost var all, cut := Accepted(key), if key in past then past[key].cut else clock - MINUTE;
      assert Tracks(Stored(key), all, cut, clock, limit) by { assert KeyValid(key); }
      Decided(Stored(key), all, cut, clock, limit, now);
      AfterCounts(all, now - MINUTE);
      AfterIsShorter(Stored(key), now - MINUTE);
      allowed := |recent| < limit;
      if allowed { recent, all := recent + [now], all + [now]; }
      requestTimes, past, clock := requestTimes[key := recent], past[key := Past(all, now - MINUTE)], now;
      forall other ensures KeyValid(other) {
        if other != key && other in past {
          assert old(KeyValid(other));
          TracksLater(requestTimes[other], past[other].accepted, past[other].cut, was, limit, now);
        } else if other != key {
          assert old(KeyValid(other));
        }
      }
    }

    method Compact(stamps: seq<int>, cutoff: int) returns (recent: seq<int>)
      ensures recent == After(stamps, cutoff)
    {
      recent := [];
      for i := 0 to |stamps|
        invariant recent == After(stamps[..i], cutoff)
      {
        assert stamps[..i + 1][..i] == stamps[..i];
        if stamps[i] > cutoff { recent := recent + [stamps[i]]; }
      }
      assert stamps[..|stamps|] == stamps;
    }

    /** In no minute were more requests accepted for a key than the limit. */
    lemma {:induction false} NeverMoreThanLimit(key: string, start: int)
      requires Valid()
      ensures InMinuteFrom(Accepted(key), start) <= limit
    {
      assert KeyValid(key);
      AtMostLimitInAnyMinute(Accepted(key), start, limit);
    }
  }
}
