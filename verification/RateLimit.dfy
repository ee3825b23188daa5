/** The sliding-window limiter (apps/api/src/common/rate-limit.ts, and its second copy in
    apps/sign/lib/edge-rate-limit.ts), against the rule it stands for: count the admits of the
    full, never pruned log that fall in the window. */
module RateLimit {
  import opened Wrappers

  datatype Admit = Admit(key: string, at: int)

  /** The moments after `cutoff`, in order. */
  function Recent(times: seq<int>, cutoff: int): seq<int> {
    if times == [] then []
    else
      var n := |times| - 1;
      if times[n] > cutoff then Recent(times[..n], cutoff) + [times[n]] else Recent(times[..n], cutoff)
  }

  /** Every moment `key` was ever admitted. */
  function TimesOf(log: seq<Admit>, key: string): seq<int> {
    if log == [] then []
    else
      var n := |log| - 1;
      if log[n].key == key then TimesOf(log[..n], key) + [log[n].at] else TimesOf(log[..n], key)
  }

  /** The rule: fewer than `max` admits of this key in the window that ends now. */
  predicate MayPass(log: seq<Admit>, key: string, now: int, window: nat, max: nat) {
    |Recent(TimesOf(log, key), now - window)| < max
  }

  lemma {:induction false} RecentOfRecent(times: seq<int>, earlier: int, later: int)
    requires earlier <= later
    ensures Recent(Recent(times, earlier), later) == Recent(times, later)
  {
    if times != [] {
      var n := |times| - 1;
      RecentOfRecent(times[..n], earlier, later);
      RecentAppend(Recent(times[..n], earlier), times[n], later);
    }
  }

  lemma RecentAppend(times: seq<int>, t: int, cutoff: int)
    ensures Recent(times + [t], cutoff) == if t > cutoff then Recent(times, cutoff) + [t] else Recent(times, cutoff)
  {
    assert (times + [t])[..|times|] == times;
  }

  lemma TimesOfAppend(log: seq<Admit>, a: Admit, key: string)
    ensures TimesOf(log + [a], key) == if a.key == key then TimesOf(log, key) + [a.at] else TimesOf(log, key)
  {
    assert (log + [a])[..|log|] == log;
  }

  lemma {:induction false} RecentIsEmpty(times: seq<int>, cutoff: int)
    ensures Recent(times, cutoff) == [] <==> forall i :: 0 <= i < |times| ==> times[i] <= cutoff
  {
    if times != [] {
      RecentIsEmpty(times[..|times| - 1], cutoff);
    }
  }

  // ----- the pruned map and the full log

  function HitsOf(hits: map<string, seq<int>>, key: string): seq<int> {
    if key in hits then hits[key] else []
  }

  /** From `cutoff` on, the map and the log tell the same story. */
  ghost predicate IsFaithful(hits: map<string, seq<int>>, log: seq<Admit>, cutoff: int) {
    forall key :: Recent(HitsOf(hits, key), cutoff) == Recent(TimesOf(log, key), cutoff)
  }

  lemma FaithfulLater(hits: map<string, seq<int>>, log: seq<Admit>, cutoff: int, later: int)
    requires IsFaithful(hits, log, cutoff) && cutoff <= later
    ensures IsFaithful(hits, log, later)
  {
    hide HitsOf, Recent;
    forall key ensures Recent(HitsOf(hits, key), later) == Recent(TimesOf(log, key), later) {
      RecentOfRecent(HitsOf(hits, key), cutoff, later);
      RecentOfRecent(TimesOf(log, key), cutoff, later);
    }
  }

  lemma RefusalIsFaithful(hits: map<string, seq<int>>, log: seq<Admit>, key: string, cutoff: int)
    requires IsFaithful(hits, log, cutoff)
    ensures IsFaithful(hits[key := Recent(HitsOf(hits, key), cutoff)], log, cutoff)
  {
    hide Recent;
    RecentOfRecent(HitsOf(hits, key), cutoff, cutoff);
  }

  lemma AdmitIsFaithful(hits: map<string, seq<int>>, log: seq<Admit>, key: string, now: int, cutoff: int)
    requires IsFaithful(hits, log, cutoff)
    ensures IsFaithful(hits[key := Recent(HitsOf(hits, key), cutoff) + [now]], log + [Admit(key, now)], cutoff)
  {
    hide Recent, TimesOf;
    var hits' := hits[key := Recent(HitsOf(hits, key), cutoff) + [now]];
    forall k ensures Recent(HitsOf(hits', k), cutoff) == Recent(TimesOf(log + [Admit(key, now)], k), cutoff) {
      TimesOfAppend(log, Admit(key, now), k);
      if k == key {
        RecentOfRecent(HitsOf(hits, key), cutoff, cutoff);
        RecentAppend(Recent(HitsOf(hits, key), cutoff), now, cutoff);
        RecentAppend(TimesOf(log, key), now, cutoff);
      }
    }
  }

  lemma EvictionIsFaithful(
      hits: map<string, seq<int>>, kept: map<string, seq<int>>, log: seq<Admit>, cutoff: int)
    requires IsFaithful(hits, log, cutoff)
    requires forall k :: k in kept ==> k in hits && kept[k] == hits[k]
    requires forall k :: k in hits && k !in kept ==> Recent(hits[k], cutoff) == []
    ensures IsFaithful(kept, log, cutoff)
  {
    hide Recent, TimesOf;
    forall key ensures Recent(HitsOf(kept, key), cutoff) == Recent(HitsOf(hits, key), cutoff) {
      RecentIsEmpty([], cutoff);
    }
  }

  const MAX_KEYS := 10_000

  class SlidingWindowRateLimiter {
    const max: nat
    const windowMs: nat
    var hits: map<string, seq<int>>
    ghost var log: seq<Admit>

    constructor (max: nat, windowMs: nat)
      ensures this.max == max && this.windowMs == windowMs && hits == map[] && log == []
      ensures forall cutoff :: IsFaithful(hits, log, cutoff)
    {
      this.max := max;
      this.windowMs := windowMs;
      this.hits := map[];
      this.log := [];
    }

    /** `allow` answers as counting in the full log would, for calls in non-decreasing time; and
        once the map holds more than its share of keys, only keys with a hit in the window stay. */
    method Allow(key: string, now: int) returns (allowed: bool)
      requires IsFaithful(hits, log, now - windowMs)
      modifies this
      ensures allowed == MayPass(old(log), key, now, windowMs, max)
      ensures log == if allowed then old(log) + [Admit(key, now)] else old(log)
      ensures IsFaithful(hits, log, now - windowMs)
      ensures allowed && |hits| > MAX_KEYS ==> forall k :: k in hits ==> Recent(hits[k], now - windowMs) != []
    {
      hide Recent, TimesOf, HitsOf, IsFaithful;
      var cutoff := now - windowMs;
      var recent := FilterRecent(if key in hits then hits[key] else [], cutoff);
      SameCount(hits, log, key, cutoff);
      if |recent| >= max {
        RefusalIsFaithful(hits, log, key, cutoff);
        hits := hits[key := recent];
        allowed := false;
      } else {
        AdmitIsFaithful(hits, log, key, now, cutoff);
        recent := recent + [now];
        hits := hits[key := recent];
        log := log + [Admit(key, now)];
        if |hits| > MAX_KEYS {
          hits := EvictIdle(hits, log, cutoff);
        }
        allowed := true;
      }
    }
  }

  /** The clean-up loop: exactly the keys none of whose hits is in the window are forgotten. */
  method EvictIdle(hits: map<string, seq<int>>, ghost log: seq<Admit>, cutoff: int)
    returns (kept: map<string, seq<int>>)
    requires IsFaithful(hits, log, cutoff)
    ensures forall k :: k in kept <==> k in hits && Recent(hits[k], cutoff) != []
    ensures forall k :: k in kept ==> kept[k] == hits[k]
    ensures IsFaithful(kept, log, cutoff)
  {
    hide Recent, TimesOf, IsFaithful;
    kept := hits;
    var keys := hits.Keys;
    while keys != {}
      invariant keys <= hits.Keys
      invariant forall k :: k in kept ==> k in hits && kept[k] == hits[k]
      invariant forall k :: k in keys ==> k in kept
      invariant forall k :: k in hits && k !in keys ==> (k in kept <==> Recent(hits[k], cutoff) != [])
      decreases |keys|
    {
      var k :| k in keys;
      keys := keys - {k};
      RecentIsEmpty(kept[k], cutoff);
      if forall t :: t in kept[k] ==> t <= cutoff {
        assert forall i :: 0 <= i < |kept[k]| ==> kept[k][i] in kept[k];
        kept := kept - {k};
      } else {
        var t :| t in kept[k] && t > cutoff;
        var i :| 0 <= i < |kept[k]| && kept[k][i] == t;
      }
    }
    EvictionIsFaithful(hits, kept, log, cutoff);
  }

  const EDGE_MAX := 40
  const EDGE_WINDOW_MS := 60_000

  /** The signing app's own copy, in front of its relay (apps/sign/lib/edge-rate-limit.ts). */
  class EdgeLimiter {
    var hits: map<string, seq<int>>
    ghost var log: seq<Admit>

    constructor ()
      ensures hits == map[] && log == [] && forall cutoff :: IsFaithful(hits, log, cutoff)
    {
      hits := map[];
      log := [];
    }

    method AllowRequest(ip: string, now: int) returns (allowed: bool)
      requires IsFaithful(hits, log, now - EDGE_WINDOW_MS)
      modifies this
      ensures allowed == MayPass(old(log), ip, now, EDGE_WINDOW_MS, EDGE_MAX)
      ensures log == if allowed then old(log) + [Admit(ip, now)] else old(log)
      ensures IsFaithful(hits, log, now - EDGE_WINDOW_MS)
      ensures allowed && |hits| > MAX_KEYS ==> forall k :: k in hits ==> Recent(hits[k], now - EDGE_WINDOW_MS) != []
    {
      hide Recent, TimesOf, HitsOf, IsFaithful;
      var cutoff := now - EDGE_WINDOW_MS;
      var recent := FilterRecent(if ip in hits then hits[ip] else [], cutoff);
      SameCount(hits, log, ip, cutoff);
      if |recent| >= EDGE_MAX {
        RefusalIsFaithful(hits, log, ip, cutoff);
        hits := hits[ip := recent];
        return false;
      }
      AdmitIsFaithful(hits, log, ip, now, cutoff);
      hits := hits[ip := recent + [now]];
      log := log + [Admit(ip, now)];
      if |hits| > MAX_KEYS {
        hits := EvictIdle(hits, log, cutoff);
      }
      return true;
    }
  }

  /** The `filter` call. */
  method FilterRecent(times: seq<int>, cutoff: int) returns (recent: seq<int>)
    ensures recent == Recent(times, cutoff)
  {
    recent := [];
    for i := 0 to |times|
      invariant recent == Recent(times[..i], cutoff)
    {
      assert times[..i + 1][..i] == times[..i];
      if times[i] > cutoff {
        recent := recent + [times[i]];
      }
    }
    assert times[..|times|] == times;
  }

  lemma SameCount(hits: map<string, seq<int>>, log: seq<Admit>, key: string, cutoff: int)
    requires IsFaithful(hits, log, cutoff)
    ensures Recent(HitsOf(hits, key), cutoff) == Recent(TimesOf(log, key), cutoff)
    ensures HitsOf(hits, key) == if key in hits then hits[key] else []
  {
  }

  // ----- the cap

  datatype Call = Call(key: string, now: int)

  predicate IsInOrder(calls: seq<Call>) {
    forall i, j :: 0 <= i < j < |calls| ==> calls[i].now <= calls[j].now
  }

  /** The admits of a sequence of calls, by the rule. */
  function LogOf(calls: seq<Call>, window: nat, max: nat): seq<Admit> {
    if calls == [] then []
    else
      var n := |calls| - 1;
      var log, c := LogOf(calls[..n], window, max), calls[n];
      if MayPass(log, c.key, c.now, window, max) then log + [Admit(c.key, c.now)] else log
  }

  lemma {:induction false} LogIsPast(calls: seq<Call>, window: nat, max: nat, key: string, now: int)
    requires forall i :: 0 <= i < |calls| ==> calls[i].now <= now
    ensures forall i :: 0 <= i < |TimesOf(LogOf(calls, window, max), key)| ==>
              TimesOf(LogOf(calls, window, max), key)[i] <= now
  {
    hide MayPass;
    if calls != [] {
      var n := |calls| - 1;
      LogIsPast(calls[..n], window, max, key, now);
      TimesOfAppend(LogOf(calls[..n], window, max), Admit(calls[n].key, calls[n].now), key);
    }
  }

  /** The moments in the half-open window that ends at `end`. */
  function InWindow(times: seq<int>, end: int, window: nat): seq<int> {
    if times == [] then []
    else
      var n := |times| - 1;
      if end - window < times[n] <= end then InWindow(times[..n], end, window) + [times[n]]
      else InWindow(times[..n], end, window)
  }

  lemma {:induction false} WindowIsRecent(times: seq<int>, end: int, window: nat, cutoff: int)
    requires cutoff <= end - window
    ensures |InWindow(times, end, window)| <= |Recent(times, cutoff)|
  {
    if times != [] {
      WindowIsRecent(times[..|times| - 1], end, window, cutoff);
    }
  }

  /** However the calls fall, no window of this length ever holds more than `max` admits of one
      key. */
  lemma {:induction false} NoWindowHoldsMore(calls: seq<Call>, window: nat, max: nat, key: string, end: int)
    requires IsInOrder(calls)
    ensures |InWindow(TimesOf(LogOf(calls, window, max), key), end, window)| <= max
  {
    hide Recent, TimesOf;
    if calls == [] {
      assert TimesOf([], key) == [] by {
        NothingYet(key);
      }
    } else {
      var n := |calls| - 1;
      var log, c := LogOf(calls[..n], window, max), calls[n];
      NoWindowHoldsMore(calls[..n], window, max, key, end);
      if MayPass(log, c.key, c.now, window, max) {
        TimesOfAppend(log, Admit(c.key, c.now), key);
        if c.key == key && end - window < c.now <= end {
          var times := TimesOf(log, key);
          WindowIsRecent(times, end, window, end - window);
          LogIsPast(calls[..n], window, max, key, c.now);
          WindowBefore(times, end, window, c.now);
          assert (times + [c.now])[..|times|] == times;
        } else if c.key == key {
          assert (TimesOf(log, key) + [c.now])[..|TimesOf(log, key)|] == TimesOf(log, key);
        }
      }
    }
  }

  lemma NothingYet(key: string)
    ensures TimesOf([], key) == []
  {
  }

  lemma {:induction false} WindowBefore(times: seq<int>, end: int, window: nat, now: int)
    requires now <= end
    ensures |InWindow(times, end, window)| <= |Recent(times, now - window)|
  {
    if times != [] {
      WindowBefore(times[..|times| - 1], end, window, now);
    }
  }

  lemma {:induction false} WindowAtEnd(times: seq<int>, end: int, window: nat)
    requires forall i :: 0 <= i < |times| ==> times[i] <= end
    ensures InWindow(times, end, window) == Recent(times, end - window)
  {
    if times != [] {
      WindowAtEnd(times[..|times| - 1], end, window);
    }
  }

  /** The rule refuses a call exactly when the window that ends with it is full. */
  lemma RuleCountsTheWindow(calls: seq<Call>, i: nat, window: nat, max: nat)
    requires i < |calls| && IsInOrder(calls)
    ensures IsAdmitted(calls, i, window, max)
       <==> MayPass(LogOf(calls[..i], window, max), calls[i].key, calls[i].now, window, max)
  {
    hide InWindow, Recent, TimesOf, LogOf;
    LogIsPast(calls[..i], window, max, calls[i].key, calls[i].now);
    WindowAtEnd(TimesOf(LogOf(calls[..i], window, max), calls[i].key), calls[i].now, window);
  }

  /** A limiter's whole life: a call is refused exactly when its window is full, and whatever was
      pruned and evicted on the way, no window ever holds more than `max` of the admits it gave to
      one key. */
  method AllowAll(limiter: SlidingWindowRateLimiter, calls: seq<Call>) returns (answers: seq<bool>)
    requires IsInOrder(calls)
    requires limiter.hits == map[] && limiter.log == []
    modifies limiter
    ensures |answers| == |calls|
    ensures forall i :: 0 <= i < |calls| ==>
              answers[i] == IsAdmitted(calls, i, limiter.windowMs, limiter.max)
    ensures limiter.log == LogOf(calls, limiter.windowMs, limiter.max)
    ensures forall key, end ::
              |InWindow(TimesOf(limiter.log, key), end, limiter.windowMs)| <= limiter.max
  {
    hide MayPass, IsAdmitted, TimesOf, Recent, InWindow, IsFaithful;
    var window, max := limiter.windowMs, limiter.max;
    answers := [];
    NothingIsFaithful(limiter.hits);
    for n := 0 to |calls|
      invariant |answers| == n
      invariant forall i :: 0 <= i < n ==> answers[i] == IsAdmitted(calls, i, window, max)
      invariant limiter.log == LogOf(calls[..n], window, max)
      invariant n < |calls| ==> IsFaithful(limiter.hits, limiter.log, calls[n].now - window)
    {
      assert calls[..n + 1][..n] == calls[..n];
      RuleCountsTheWindow(calls, n, window, max);
      var allowed := limiter.Allow(calls[n].key, calls[n].now);
      answers := answers + [allowed];
      if n + 1 < |calls| {
        FaithfulLater(limiter.hits, limiter.log, calls[n].now - window, calls[n + 1].now - window);
      }
    }
    assert calls[..|calls|] == calls;
    forall key, end ensures |InWindow(TimesOf(limiter.log, key), end, window)| <= max {
      NoWindowHoldsMore(calls, window, max, key, end);
    }
  }

  /** The window that ends with this call is not full yet. */
  predicate IsAdmitted(calls: seq<Call>, i: nat, window: nat, max: nat)
    requires i < |calls|
  {
    |InWindow(TimesOf(LogOf(calls[..i], window, max), calls[i].key), calls[i].now, window)| < max
  }

  lemma NothingIsFaithful(hits: map<string, seq<int>>)
    requires hits == map[]
    ensures forall cutoff :: IsFaithful(hits, [], cutoff)
  {
  }

  // ----- the shared window in Redis

  /** A sorted set, as members with their scores; a member is the moment and the caller's counter. */
  datatype Member = Member(at: int, counter: nat)

  datatype Scored = Scored(member: Member, score: int)

  /** The key's value and the moment it expires, when the key exists. */
  datatype RedisKey = Absent | Present(members: seq<Scored>, expiresAt: int)

  function Members(z: seq<Scored>): seq<Member> {
    seq(|z|, i requires 0 <= i < |z| => z[i].member)
  }

  function Scores(z: seq<Scored>): seq<int> {
    seq(|z|, i requires 0 <= i < |z| => z[i].score)
  }

  function ZRemRangeByScore(z: seq<Scored>, cutoff: int): seq<Scored> {
    if z == [] then []
    else
      var n := |z| - 1;
      if z[n].score > cutoff then ZRemRangeByScore(z[..n], cutoff) + [z[n]] else ZRemRangeByScore(z[..n], cutoff)
  }

  /** A member that is there already only has its score replaced. */
  function ZAdd(z: seq<Scored>, score: int, member: Member): seq<Scored> {
    if member in Members(z) then
      seq(|z|, i requires 0 <= i < |z| => if z[i].member == member then Scored(member, score) else z[i])
    else z + [Scored(member, score)]
  }

  /** What a command finds under the key when the server's clock says `now`. */
  function Live(k: RedisKey, now: int): seq<Scored> {
    if k.Present? && now <= k.expiresAt then k.members else []
  }

  datatype Verdict = Verdict(allowed: bool, key: RedisKey)

  /** The script. An emptied sorted set is gone, so there is nothing for the expiry to be set on. */
  function WindowScript(k: RedisKey, now: int, window: nat, max: nat, counter: nat): Verdict {
    var z := ZRemRangeByScore(Live(k, now), now - window);
    if |z| >= max then Verdict(false, if z == [] then Absent else Present(z, now + window))
    else Verdict(true, Present(ZAdd(z, now, Member(now, counter)), now + window))
  }

  /** From `now` on, the key's scores are the log's moments, expiry included. */
  ghost predicate IsShared(k: RedisKey, times: seq<int>, now: int, window: nat) {
    Recent(Scores(Live(k, now)), now - window) == Recent(times, now - window)
  }

  lemma {:induction false} PruneIsRecent(z: seq<Scored>, cutoff: int)
    ensures Scores(ZRemRangeByScore(z, cutoff)) == Recent(Scores(z), cutoff)
  {
    if z != [] {
      var n := |z| - 1;
      PruneIsRecent(z[..n], cutoff);
      assert Scores(z)[..n] == Scores(z[..n]);
    }
  }

  /** While the script admits nothing that is in the window already, it decides as the rule does
      and stays in step with the log, although the key expires whenever nobody asks for a whole
      window. */
  lemma ScriptFollowsTheRule(
      k: RedisKey, times: seq<int>, now: int, window: nat, max: nat, counter: nat, later: int)
    requires IsShared(k, times, now, window) && now <= later
    requires forall i :: 0 <= i < |times| ==> times[i] <= now
    requires IsHeld(k, Member(now, counter), now, window) ==> !WindowScript(k, now, window, max, counter).allowed
    ensures var v := WindowScript(k, now, window, max, counter);
            && v.allowed == (|Recent(times, now - window)| < max)
            && IsShared(v.key, if v.allowed then times + [now] else times, later, window)
  {
    hide Recent, ZRemRangeByScore, Members, Scores;
    var cutoff, live := now - window, Live(k, now);
    var z := ZRemRangeByScore(live, cutoff);
    var v := WindowScript(k, now, window, max, counter);
    var times' := if v.allowed then times + [now] else times;
    PruneIsRecent(live, cutoff);
    ScoresLength(z);
    ScoresLength([]);
    ScoresAppend(z, Scored(Member(now, counter), now));
    RecentOfRecent(Scores(live), cutoff, later - window);
    RecentOfRecent(times, cutoff, later - window);
    RecentAppend(Scores(z), now, later - window);
    RecentAppend(times, now, later - window);
    RecentIsEmpty([], later - window);
    if now + window < later {
      RecentIsEmpty(times', later - window);
    }
  }

  /** The member is in the sorted set and in the window. */
  predicate IsHeld(k: RedisKey, m: Member, now: int, window: nat) {
    m in Members(ZRemRangeByScore(Live(k, now), now - window))
  }

  /** In a key the script has written, every score is its member's own moment. */
  predicate IsOwnScored(z: seq<Scored>) {
    forall s :: s in z ==> s.score == s.member.at
  }

  /** The exact condition on one admitted call: key and log stay in step if and only if the call's
      member is not in the window already. If it is, the sorted set does not grow, and from then on
      holds one fewer than the rule counts. */
  lemma AdmitStaysInStepIffNew(k: RedisKey, times: seq<int>, now: int, window: nat, max: nat, counter: nat)
    requires IsShared(k, times, now, window) && IsOwnScored(Live(k, now))
    requires forall i :: 0 <= i < |times| ==> times[i] <= now
    requires WindowScript(k, now, window, max, counter).allowed
    ensures var v := WindowScript(k, now, window, max, counter);
            && (IsShared(v.key, times + [now], now, window) <==> !IsHeld(k, Member(now, counter), now, window))
            && (IsHeld(k, Member(now, counter), now, window) ==>
                  && v.key.members == ZRemRangeByScore(Live(k, now), now - window)
                  && |v.key.members| + 1 == |Recent(times + [now], now - window)|)
  {
    hide Recent, ZRemRangeByScore, Scores, IsShared;
    if IsHeld(k, Member(now, counter), now, window) {
      var cutoff, live := now - window, Live(k, now);
      var z := ZRemRangeByScore(live, cutoff);
      HeldIsRecent(k, Member(now, counter), now, window);
      OwnScoresStay(live, cutoff);
      ReAddingChangesNothing(z, now, Member(now, counter));
      PruneIsRecent(live, cutoff);
      ScoresLength(z);
      RecentAppend(times, now, cutoff);
      StepLost(k, z, times, now, window);
    } else {
      ScriptFollowsTheRule(k, times, now, window, max, counter, now);
    }
  }

  lemma StepLost(k: RedisKey, z: seq<Scored>, times: seq<int>, now: int, window: nat)
    requires IsShared(k, times, now, window) && z == ZRemRangeByScore(Live(k, now), now - window) && window > 0
    ensures |Recent(times, now - window)| == |z|
    ensures !IsShared(Present(z, now + window), times + [now], now, window)
  {
    hide Recent, ZRemRangeByScore, Scores;
    PruneIsRecent(Live(k, now), now - window);
    ScoresLength(z);
    RecentOfRecent(Scores(Live(k, now)), now - window, now - window);
    RecentAppend(times, now, now - window);
  }

  lemma {:induction false} HeldIsRecent(k: RedisKey, m: Member, now: int, window: nat)
    requires IsHeld(k, m, now, window) && IsOwnScored(Live(k, now))
    ensures m.at > now - window
  {
    var z := ZRemRangeByScore(Live(k, now), now - window);
    var i :| 0 <= i < |z| && Members(z)[i] == m;
    PruneKeepsSome(Live(k, now), now - window, z[i]);
  }

  lemma OwnScoresStay(z: seq<Scored>, cutoff: int)
    requires IsOwnScored(z)
    ensures IsOwnScored(ZRemRangeByScore(z, cutoff))
  {
    forall s | s in ZRemRangeByScore(z, cutoff) ensures s.score == s.member.at {
      PruneKeepsSome(z, cutoff, s);
    }
  }

  lemma ReAddingChangesNothing(z: seq<Scored>, now: int, m: Member)
    requires IsOwnScored(z) && m in Members(z) && m.at == now
    ensures ZAdd(z, now, m) == z
  {
    forall i | 0 <= i < |z| && z[i].member == m ensures Scored(m, now) == z[i] {
      assert z[i] in z;
    }
  }

  lemma ScoresLength(z: seq<Scored>)
    ensures |Scores(z)| == |z|
    ensures z == [] ==> Scores(z) == []
  {
  }

  lemma ScoresAppend(z: seq<Scored>, s: Scored)
    ensures Scores(z + [s]) == Scores(z) + [s.score]
  {
  }

  lemma {:induction false} PruneKeepsSome(z: seq<Scored>, cutoff: int, s: Scored)
    ensures s in ZRemRangeByScore(z, cutoff) <==> s in z && s.score > cutoff
  {
    if z != [] {
      PruneKeepsSome(z[..|z| - 1], cutoff, s);
      assert z == z[..|z| - 1] + [z[|z| - 1]];
    }
  }

  // ----- both layers

  /** The sorted set of one key, with the moments the script has admitted under it. */
  datatype Shared = Shared(key: RedisKey, times: seq<int>)

  /** How the shared check goes: answered in time, never run, or run with nobody waiting any more. */
  datatype Reach = Answers | Silent | Late

  /** One replica's `allow`: the local floor first and always, then the shared window; unless that
      answers in time, the floor's yes stands, although a late script has recorded its verdict. */
  method AllowShared(
      local: SlidingWindowRateLimiter, shared: RedisKey, reach: Reach, key: string, now: int,
      window: nat, max: nat, counter: nat)
    returns (allowed: bool, shared': RedisKey)
    requires IsFaithful(local.hits, local.log, now - local.windowMs)
    modifies local
    ensures allowed ==> MayPass(old(local.log), key, now, local.windowMs, local.max)
    ensures var floor := MayPass(old(local.log), key, now, local.windowMs, local.max);
            && allowed == (floor && (reach == Answers ==> WindowScript(shared, now, window, max, counter).allowed))
            && shared' == (if floor && reach != Silent
                           then WindowScript(shared, now, window, max, counter).key else shared)
            && local.log == (if floor then old(local.log) + [Admit(key, now)] else old(local.log))
    ensures IsFaithful(local.hits, local.log, now - local.windowMs)
  {
    hide MayPass, WindowScript, IsFaithful;
    shared' := shared;
    var floor := local.Allow(key, now);
    if !floor {
      return false, shared;
    }
    if reach == Silent {
      return true, shared;
    }
    var verdict := WindowScript(shared, now, window, max, counter);
    return verdict.allowed || reach == Late, verdict.key;
  }

  /** One call of the script: when, and with which counter. */
  datatype Ask = Ask(now: int, counter: nat)

  /** The shared window after a run of calls from any number of replicas. */
  function SharedRun(asks: seq<Ask>, window: nat, max: nat): Shared {
    if asks == [] then Shared(Absent, [])
    else
      var n := |asks| - 1;
      var s, a := SharedRun(asks[..n], window, max), asks[n];
      var v := WindowScript(s.key, a.now, window, max, a.counter);
      Shared(v.key, if v.allowed then s.times + [a.now] else s.times)
  }

  function CallsOf(asks: seq<Ask>): (calls: seq<Call>)
    ensures |calls| == |asks| && forall i :: 0 <= i < |asks| ==> calls[i] == Call("", asks[i].now)
  {
    seq(|asks|, i requires 0 <= i < |asks| => Call("", asks[i].now))
  }

  /** What one limiter counting every ask would have admitted. */
  function RuleTimes(asks: seq<Ask>, window: nat, max: nat): seq<int> {
    TimesOf(LogOf(CallsOf(asks), window, max), "")
  }

  predicate IsInTime(asks: seq<Ask>) {
    forall i, j :: 0 <= i < j < |asks| ==> asks[i].now <= asks[j].now
  }

  predicate IsPast(asks: seq<Ask>, later: int) {
    forall i :: 0 <= i < |asks| ==> asks[i].now <= later
  }

  /** After these asks the replicas have admitted what the rule would, and the key shows it at
      every later moment. */
  ghost predicate FollowsTheRule(asks: seq<Ask>, window: nat, max: nat) {
    var s := SharedRun(asks, window, max);
    && s.times == RuleTimes(asks, window, max)
    && forall later :: IsPast(asks, later) ==> IsShared(s.key, s.times, later, window)
  }

  /** So it went after every ask of the run. */
  ghost predicate IsInStep(asks: seq<Ask>, window: nat, max: nat) {
    forall n :: 0 <= n <= |asks| ==> FollowsTheRule(asks[..n], window, max)
  }

  /** The script's answer to one ask of the run. */
  predicate WasAdmitted(asks: seq<Ask>, i: nat, window: nat, max: nat)
    requires i < |asks|
  {
    WindowScript(SharedRun(asks[..i], window, max).key, asks[i].now, window, max, asks[i].counter).allowed
  }

  /** This admitted ask repeats, moment and counter, an admitted one still in the window. */
  predicate Repeats(asks: seq<Ask>, j: nat, window: nat, max: nat)
    requires j < |asks|
  {
    && WasAdmitted(asks, j, window, max)
    && exists i :: 0 <= i < j && asks[i] == asks[j] && asks[j].now - window < asks[i].now
                   && WasAdmitted(asks, i, window, max)
  }

  predicate IsClean(asks: seq<Ask>, window: nat, max: nat) {
    forall j :: 0 <= j < |asks| ==> !Repeats(asks, j, window, max)
  }

  lemma PrefixOfRun(asks: seq<Ask>, n: nat, i: nat, window: nat, max: nat)
    requires i < n <= |asks|
    ensures WasAdmitted(asks[..n], i, window, max) == WasAdmitted(asks, i, window, max)
    ensures Repeats(asks[..n], i, window, max) == Repeats(asks, i, window, max)
  {
    hide WindowScript, SharedRun;
    assert asks[..n][..i] == asks[..i];
    forall h | 0 <= h < i ensures WasAdmitted(asks[..n], h, window, max) == WasAdmitted(asks, h, window, max) {
      assert asks[..n][..h] == asks[..h];
    }
  }

  /** An entry of the sorted set: its moment as its score, and an admitted ask behind it. */
  ghost predicate IsEntry(asks: seq<Ask>, s: Scored, window: nat, max: nat) {
    s.score == s.member.at
    && exists i :: 0 <= i < |asks| && asks[i] == Ask(s.member.at, s.member.counter) && WasAdmitted(asks, i, window, max)
  }

  lemma {:induction false} EntriesAreAdmits(asks: seq<Ask>, window: nat, max: nat)
    ensures var k := SharedRun(asks, window, max).key;
            k.Present? ==> forall s :: s in k.members ==> IsEntry(asks, s, window, max)
  {
    hide WasAdmitted;
    if asks != [] {
      var n := |asks| - 1;
      EntriesAreAdmits(asks[..n], window, max);
      var k, a := SharedRun(asks[..n], window, max).key, asks[n];
      var k' := SharedRun(asks, window, max).key;
      if k'.Present? {
        forall s | s in k'.members ensures IsEntry(asks, s, window, max) {
          PruneKeepsSome(Live(k, a.now), a.now - window, s);
          EntryOfStep(asks, s, window, max);
        }
      }
    }
  }

  lemma EntryOfStep(asks: seq<Ask>, s: Scored, window: nat, max: nat)
    requires asks != [] && SharedRun(asks, window, max).key.Present? && s in SharedRun(asks, window, max).key.members
    requires var k := SharedRun(asks[..|asks| - 1], window, max).key;
             k.Present? ==> forall s :: s in k.members ==> IsEntry(asks[..|asks| - 1], s, window, max)
    ensures IsEntry(asks, s, window, max)
  {
    hide ZRemRangeByScore, Members;
    var n := |asks| - 1;
    var k, a := SharedRun(asks[..n], window, max).key, asks[n];
    var z := ZRemRangeByScore(Live(k, a.now), a.now - window);
    if s in z {
      PruneKeepsSome(Live(k, a.now), a.now - window, s);
      var i :| 0 <= i < n && asks[..n][i] == Ask(s.member.at, s.member.counter) && WasAdmitted(asks[..n], i, window, max);
      PrefixOfRun(asks, n, i, window, max);
      assert asks[i] == asks[..n][i];
    } else {
      ZAddAdds(z, a.now, Member(a.now, a.counter), s);
      assert WasAdmitted(asks, n, window, max);
    }
  }

  lemma ZAddAdds(z: seq<Scored>, score: int, m: Member, s: Scored)
    ensures s in ZAdd(z, score, m) ==> s in z || s == Scored(m, score)
  {
  }

  lemma ZAddHolds(z: seq<Scored>, score: int, m: Member)
    ensures Members(ZAdd(z, score, m)) == if m in Members(z) then Members(z) else Members(z) + [m]
  {
  }

  lemma OwnMemberIsHeld(k: RedisKey, m: Member, now: int, window: nat)
    requires IsOwnScored(Live(k, now)) && m in Members(Live(k, now)) && m.at > now - window
    ensures IsHeld(k, m, now, window)
  {
    hide ZRemRangeByScore;
    var live := Live(k, now);
    var i :| 0 <= i < |live| && Members(live)[i] == m;
    PruneKeepsSome(live, now - window, live[i]);
    var z := ZRemRangeByScore(live, now - window);
    var h :| 0 <= h < |z| && z[h] == live[i];
    assert Members(z)[h] == m;
  }

  lemma RunIsOwnScored(asks: seq<Ask>, window: nat, max: nat, now: int)
    ensures IsOwnScored(Live(SharedRun(asks, window, max).key, now))
  {
    hide SharedRun;
    EntriesAreAdmits(asks, window, max);
  }

  /** What was admitted within the window is in the sorted set. */
  lemma {:induction false} AdmitsAreHeld(asks: seq<Ask>, i: nat, window: nat, max: nat, later: int)
    requires i < |asks| && WasAdmitted(asks, i, window, max)
    requires IsInTime(asks) && IsPast(asks, later) && later - window < asks[i].now
    ensures IsHeld(SharedRun(asks, window, max).key, Member(asks[i].now, asks[i].counter), later, window)
  {
    hide WasAdmitted, WindowScript, SharedRun, ZRemRangeByScore, ZAdd, IsOwnScored, IsHeld, Live;
    var n := |asks| - 1;
    var k, a, m := SharedRun(asks[..n], window, max).key, asks[n], Member(asks[i].now, asks[i].counter);
    if i < n {
      PrefixOfRun(asks, n, i, window, max);
      AdmitsAreHeld(asks[..n], i, window, max, a.now);
      HeldMeaning(k, m, a.now, window);
    } else {
      AdmittedMeaning(asks, n, window, max);
    }
    StillLive(k, a, m, window, max, later);
    NextShared(asks, window, max);
    RunIsOwnScored(asks, window, max, later);
    OwnMemberIsHeld(SharedRun(asks, window, max).key, m, later, window);
  }

  lemma NextShared(asks: seq<Ask>, window: nat, max: nat)
    requires asks != []
    ensures var k, a := SharedRun(asks[..|asks| - 1], window, max).key, asks[|asks| - 1];
            SharedRun(asks, window, max).key == WindowScript(k, a.now, window, max, a.counter).key
  {
    hide WindowScript;
  }

  /** What is in the pruned set, or is being added, is there until a window after this call. */
  lemma StillLive(k: RedisKey, a: Ask, m: Member, window: nat, max: nat, later: int)
    requires later <= a.now + window
    requires var v := WindowScript(k, a.now, window, max, a.counter);
             m in Members(ZRemRangeByScore(Live(k, a.now), a.now - window))
             || (v.allowed && m == Member(a.now, a.counter))
    ensures m in Members(Live(WindowScript(k, a.now, window, max, a.counter).key, later))
  {
    hide ZRemRangeByScore, ZAdd;
    ZAddHolds(ZRemRangeByScore(Live(k, a.now), a.now - window), a.now, Member(a.now, a.counter));
  }

  lemma HeldMeaning(k: RedisKey, m: Member, now: int, window: nat)
    ensures IsHeld(k, m, now, window) <==> m in Members(ZRemRangeByScore(Live(k, now), now - window))
  {
  }

  lemma AdmittedMeaning(asks: seq<Ask>, i: nat, window: nat, max: nat)
    requires i < |asks|
    ensures WasAdmitted(asks, i, window, max)
       <==> WindowScript(SharedRun(asks[..i], window, max).key, asks[i].now, window, max, asks[i].counter).allowed
  {
  }

  /** An ask's member is in the window exactly when an admitted ask within it was the same. */
  lemma HeldIffAsked(asks: seq<Ask>, window: nat, max: nat)
    requires asks != [] && IsInTime(asks)
    ensures var n := |asks| - 1;
            var k, a := SharedRun(asks[..n], window, max).key, asks[n];
            Repeats(asks, n, window, max)
            <==> WasAdmitted(asks, n, window, max) && IsHeld(k, Member(a.now, a.counter), a.now, window)
  {
    hide WasAdmitted, SharedRun, WindowScript;
    var n := |asks| - 1;
    var init, k, a := asks[..n], SharedRun(asks[..n], window, max).key, asks[n];
    var m := Member(a.now, a.counter);
    if IsHeld(k, m, a.now, window) {
      RunIsOwnScored(init, window, max, a.now);
      HeldIsRecent(k, m, a.now, window);
      var i := HeldWasAsked(init, window, max, m, a.now);
      PrefixOfRun(asks, n, i, window, max);
    }
    if Repeats(asks, n, window, max) {
      var i :| 0 <= i < n && asks[i] == a && a.now - window < asks[i].now && WasAdmitted(asks, i, window, max);
      PrefixOfRun(asks, n, i, window, max);
      AdmitsAreHeld(init, i, window, max, a.now);
    }
  }

  lemma HeldWasAsked(asks: seq<Ask>, window: nat, max: nat, m: Member, now: int) returns (i: nat)
    requires IsHeld(SharedRun(asks, window, max).key, m, now, window)
    ensures i < |asks| && asks[i] == Ask(m.at, m.counter) && WasAdmitted(asks, i, window, max)
  {
    hide WasAdmitted, SharedRun, ZRemRangeByScore;
    EntriesAreAdmits(asks, window, max);
    var live := Live(SharedRun(asks, window, max).key, now);
    var z := ZRemRangeByScore(live, now - window);
    var h :| 0 <= h < |z| && Members(z)[h] == m;
    PruneKeepsSome(live, now - window, z[h]);
    assert IsEntry(asks, z[h], window, max);
    i :| 0 <= i < |asks| && asks[i] == Ask(m.at, m.counter) && WasAdmitted(asks, i, window, max);
  }

  /** One more ask leaves a run in step if and only if it is not an admitted repeat. */
  lemma StepFollowsIffNew(asks: seq<Ask>, window: nat, max: nat)
    requires asks != [] && IsInTime(asks) && FollowsTheRule(asks[..|asks| - 1], window, max)
    ensures FollowsTheRule(asks, window, max) <==> !Repeats(asks, |asks| - 1, window, max)
  {
    hide WindowScript, Recent, TimesOf, IsShared, LogOf, IsHeld, IsOwnScored, Repeats;
    var n := |asks| - 1;
    var init, a := asks[..n], asks[n];
    var s := SharedRun(init, window, max);
    assert IsPast(init, a.now) && IsShared(s.key, s.times, a.now, window);
    LogIsPast(CallsOf(init), window, max, "", a.now);
    HeldIffAsked(asks, window, max);
    RuleStep(asks, window, max);
    if Repeats(asks, n, window, max) {
      RunIsOwnScored(init, window, max, a.now);
      AdmitStaysInStepIffNew(s.key, s.times, a.now, window, max, a.counter);
      assert IsPast(asks, a.now);
    } else {
      forall later | IsPast(asks, later)
        ensures IsShared(SharedRun(asks, window, max).key, SharedRun(asks, window, max).times, later, window)
      {
        ScriptFollowsTheRule(s.key, s.times, a.now, window, max, a.counter, later);
      }
      ScriptFollowsTheRule(s.key, s.times, a.now, window, max, a.counter, a.now);
    }
  }

  lemma RuleStep(asks: seq<Ask>, window: nat, max: nat)
    requires asks != []
    ensures var n := |asks| - 1;
            var times, now := RuleTimes(asks[..n], window, max), asks[n].now;
            RuleTimes(asks, window, max) == if |Recent(times, now - window)| < max then times + [now] else times
  {
    hide Recent, TimesOf;
    var n := |asks| - 1;
    assert CallsOf(asks)[..n] == CallsOf(asks[..n]);
    TimesOfAppend(LogOf(CallsOf(asks[..n]), window, max), Admit("", asks[n].now), "");
  }

  lemma NothingShared(window: nat, max: nat)
    ensures FollowsTheRule([], window, max)
  {
    assert CallsOf([]) == [];
  }

  /** The exact condition on a whole run: any number of replicas admit together, after every ask,
      what one limiter counting everything would, if and only if no admitted ask repeats an
      admitted one still in the window. */
  lemma {:induction false} InStepIffClean(asks: seq<Ask>, window: nat, max: nat)
    requires IsInTime(asks)
    ensures IsInStep(asks, window, max) <==> IsClean(asks, window, max)
  {
    hide FollowsTheRule, Repeats;
    if asks == [] {
      NothingShared(window, max);
    } else {
      var n := |asks| - 1;
      InStepIffClean(asks[..n], window, max);
      forall i | 0 <= i < n ensures Repeats(asks[..n], i, window, max) == Repeats(asks, i, window, max) {
        PrefixOfRun(asks, n, i, window, max);
      }
      StepsOfPrefix(asks, window, max);
      if IsInStep(asks[..n], window, max) {
        assert asks[..n][..n] == asks[..n];
        StepFollowsIffNew(asks, window, max);
      }
    }
  }

  lemma StepsOfPrefix(asks: seq<Ask>, window: nat, max: nat)
    requires asks != []
    ensures IsInStep(asks, window, max)
       <==> IsInStep(asks[..|asks| - 1], window, max) && FollowsTheRule(asks, window, max)
  {
    hide FollowsTheRule;
    var n := |asks| - 1;
    assert asks[..n + 1] == asks;
    forall i | 0 <= i <= n ensures asks[..n][..i] == asks[..i] {
    }
    if IsInStep(asks, window, max) {
      forall i | 0 <= i <= n ensures FollowsTheRule(asks[..n][..i], window, max) {
        assert FollowsTheRule(asks[..i], window, max);
      }
      assert FollowsTheRule(asks[..n + 1], window, max);
    }
    if IsInStep(asks[..n], window, max) && FollowsTheRule(asks, window, max) {
      forall i | 0 <= i <= n + 1 ensures FollowsTheRule(asks[..i], window, max) {
        assert i <= n ==> FollowsTheRule(asks[..n][..i], window, max);
      }
    }
  }

  /** So on a clean run the cap is global, expiry and all. */
  lemma SharedCapIsGlobal(asks: seq<Ask>, window: nat, max: nat, end: int)
    requires IsInTime(asks) && IsClean(asks, window, max)
    ensures |InWindow(SharedRun(asks, window, max).times, end, window)| <= max
  {
    hide InWindow, SharedRun, TimesOf, IsClean, IsShared;
    InStepIffClean(asks, window, max);
    assert asks[..|asks|] == asks;
    assert FollowsTheRule(asks[..|asks|], window, max);
    NoWindowHoldsMore(CallsOf(asks), window, max, "", end);
  }

  /** Replicas whose moments and counters never coincide make clean runs. */
  lemma ToldApartIsClean(asks: seq<Ask>, window: nat, max: nat)
    requires forall i, j :: 0 <= i < j < |asks| ==> asks[i] != asks[j]
    ensures IsClean(asks, window, max)
  {
    hide WasAdmitted;
  }

  // ----- what a repeat costs

  function NextCounter(z: seq<Scored>): (c: nat)
    ensures forall s :: s in z ==> s.member.counter < c
  {
    if z == [] then 0
    else
      var c, last := NextCounter(z[..|z| - 1]), z[|z| - 1].member.counter + 1;
      assert z == z[..|z| - 1] + [z[|z| - 1]];
      if c < last then last else c
  }

  lemma NextIsNew(z: seq<Scored>, now: int)
    ensures Member(now, NextCounter(z)) !in Members(z)
  {
    forall i | 0 <= i < |z| ensures Members(z)[i] != Member(now, NextCounter(z)) {
      assert z[i] in z;
    }
  }

  lemma PruneAgain(z: seq<Scored>, cutoff: int, s: Scored)
    requires s.score > cutoff
    ensures var kept := ZRemRangeByScore(z, cutoff);
            ZRemRangeByScore(kept + [s], cutoff) == kept + [s]
  {
    var kept := ZRemRangeByScore(z, cutoff);
    PruneOfPruned(z, cutoff);
    assert (kept + [s])[..|kept|] == kept;
  }

  lemma {:induction false} PruneOfPruned(z: seq<Scored>, cutoff: int)
    ensures ZRemRangeByScore(ZRemRangeByScore(z, cutoff), cutoff) == ZRemRangeByScore(z, cutoff)
  {
    if z != [] {
      var n := |z| - 1;
      PruneOfPruned(z[..n], cutoff);
      var kept := ZRemRangeByScore(z[..n], cutoff);
      assert (kept + [z[n]])[..|kept|] == kept;
    }
  }

  /** The sorted set holds one fewer than was admitted within the window. */
  ghost predicate Undercounts(s: Shared, now: int, window: nat) {
    && (forall i :: 0 <= i < |s.times| ==> s.times[i] <= now)
    && |ZRemRangeByScore(Live(s.key, now), now - window)| + 1 == |Recent(s.times, now - window)|
  }

  lemma UndercountStays(asks: seq<Ask>, b: Ask, window: nat, max: nat)
    requires Undercounts(SharedRun(asks, window, max), b.now, window) && window > 0
    requires var z := ZRemRangeByScore(Live(SharedRun(asks, window, max).key, b.now), b.now - window);
             |z| < max && b.counter == NextCounter(z)
    ensures var s, s' := SharedRun(asks, window, max), SharedRun(asks + [b], window, max);
            && Undercounts(s', b.now, window)
            && |Recent(s'.times, b.now - window)| == |Recent(s.times, b.now - window)| + 1
  {
    hide Recent, ZRemRangeByScore, NextCounter;
    var s, cutoff := SharedRun(asks, window, max), b.now - window;
    var z := ZRemRangeByScore(Live(s.key, b.now), cutoff);
    var one := Scored(Member(b.now, b.counter), b.now);
    assert (asks + [b])[..|asks|] == asks;
    NextIsNew(z, b.now);
    PruneAgain(Live(s.key, b.now), cutoff, one);
    RecentAppend(s.times, b.now, cutoff);
    assert WindowScript(s.key, b.now, window, max, b.counter) == Verdict(true, Present(z + [one], b.now + window));
  }

  /** From there fresh members fill the set up to `max`, and the window to one more. */
  lemma {:induction false} FillUp(asks: seq<Ask>, now: int, window: nat, max: nat) returns (more: seq<Ask>)
    requires Undercounts(SharedRun(asks, window, max), now, window) && window > 0
    requires IsInTime(asks) && IsPast(asks, now)
    requires |Recent(SharedRun(asks, window, max).times, now - window)| <= max + 1
    ensures IsInTime(asks + more)
    ensures |InWindow(SharedRun(asks + more, window, max).times, now, window)| == max + 1
    decreases max + 1 - |Recent(SharedRun(asks, window, max).times, now - window)|
  {
    hide Recent, ZRemRangeByScore, SharedRun, NextCounter, InWindow;
    var s := SharedRun(asks, window, max);
    if |Recent(s.times, now - window)| == max + 1 {
      more := [];
      assert asks + more == asks;
      WindowAtEnd(s.times, now, window);
    } else {
      var b := Ask(now, NextCounter(ZRemRangeByScore(Live(s.key, now), now - window)));
      UndercountStays(asks, b, window, max);
      var rest := FillUp(asks + [b], now, window, max);
      more := [b] + rest;
      assert asks + more == asks + [b] + rest;
    }
  }

  /** The first repeat of any run can be followed by calls in the same millisecond that take the
      window beyond the cap. */
  lemma RepeatLeaks(asks: seq<Ask>, window: nat, max: nat) returns (more: seq<Ask>)
    requires asks != [] && IsInTime(asks)
    requires IsClean(asks[..|asks| - 1], window, max) && Repeats(asks, |asks| - 1, window, max)
    ensures IsInTime(asks + more)
    ensures |InWindow(SharedRun(asks + more, window, max).times, asks[|asks| - 1].now, window)| == max + 1
  {
    hide Recent, ZRemRangeByScore, IsShared, IsClean, TimesOf, LogOf, IsHeld, WindowScript;
    var n := |asks| - 1;
    var init, a := asks[..n], asks[n];
    var s := SharedRun(init, window, max);
    InStepIffClean(init, window, max);
    assert init[..n] == init;
    assert FollowsTheRule(init[..n], window, max);
    assert IsPast(init, a.now);
    LogIsPast(CallsOf(init), window, max, "", a.now);
    HeldIffAsked(asks, window, max);
    RunIsOwnScored(init, window, max, a.now);
    AdmitStaysInStepIffNew(s.key, s.times, a.now, window, max, a.counter);
    RepeatUndercounts(s, a, window, max);
    assert SharedRun(asks, window, max) ==
           Shared(WindowScript(s.key, a.now, window, max, a.counter).key, s.times + [a.now]);
    more := FillUp(asks, a.now, window, max);
  }

  lemma RepeatUndercounts(s: Shared, a: Ask, window: nat, max: nat)
    requires forall i :: 0 <= i < |s.times| ==> s.times[i] <= a.now
    requires WindowScript(s.key, a.now, window, max, a.counter).allowed && window > 0
    requires var z := ZRemRangeByScore(Live(s.key, a.now), a.now - window);
             && WindowScript(s.key, a.now, window, max, a.counter).key.members == z
             && |z| + 1 == |Recent(s.times + [a.now], a.now - window)|
    ensures Undercounts(Shared(WindowScript(s.key, a.now, window, max, a.counter).key, s.times + [a.now]), a.now, window)
    ensures |Recent(s.times + [a.now], a.now - window)| <= max
  {
    hide Recent, ZRemRangeByScore;
    PruneOfPruned(Live(s.key, a.now), a.now - window);
  }

  function Copies<T>(n: nat, x: T): seq<T> {
    seq(n, _ => x)
  }

  /** Without that the cap leaks: replicas whose counters agree in the same millisecond write one
      member, and any number of their calls is admitted. */
  lemma {:induction false} TwinsSlipThrough(n: nat, now: int, counter: nat, window: nat, max: nat)
    requires n > 0 && window > 0 && max >= 2
    ensures var s := SharedRun(Copies(n, Ask(now, counter)), window, max);
            && s.key == Present([Scored(Member(now, counter), now)], now + window)
            && s.times == Copies(n, now)
            && |InWindow(s.times, now, window)| == n
  {
    hide WindowScript;
    var asks, a := Copies(n, Ask(now, counter)), Ask(now, counter);
    assert asks[..n - 1] == Copies(n - 1, a) && Copies(n, now)[..n - 1] == Copies(n - 1, now);
    if n > 1 {
      TwinsSlipThrough(n - 1, now, counter, window, max);
      TwinStep(now, counter, window, max);
    } else {
      FirstTwin(now, counter, window, max);
      assert SharedRun(asks[..0], window, max) == Shared(Absent, []);
      assert Copies(1, now)[..0] == [] && InWindow([], now, window) == [];
    }
    assert Copies(n, now) == Copies(n - 1, now) + [now];
  }

  lemma FirstTwin(now: int, counter: nat, window: nat, max: nat)
    requires max >= 2
    ensures WindowScript(Absent, now, window, max, counter) ==
            Verdict(true, Present([Scored(Member(now, counter), now)], now + window))
  {
    var none := ZRemRangeByScore(Live(Absent, now), now - window);
    assert none == [] && Members(none) == [];
    assert ZAdd(none, now, Member(now, counter)) == [Scored(Member(now, counter), now)];
  }

  lemma TwinStep(now: int, counter: nat, window: nat, max: nat)
    requires window > 0 && max >= 2
    ensures var one := Present([Scored(Member(now, counter), now)], now + window);
            WindowScript(one, now, window, max, counter) == Verdict(true, one)
  {
    var z := [Scored(Member(now, counter), now)];
    assert z[..0] == [] && ZRemRangeByScore(z, now - window) == z;
    assert Members(z)[0] == Member(now, counter);
    assert ZAdd(z, now, Member(now, counter)) == z;
  }
}
