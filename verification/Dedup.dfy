/** `DeduplicationMiddleware` (kojin-core/src/middleware/dedup.rs:18-66): a map from key to the
    time it was last let through, pruned at any moment, against the full history. */
module Dedup {
  import opened Messages
  import opened Sequences

  /** `Instant::duration_since`, which never goes below zero. */
  function Since(now: int, earlier: int): nat {
    if now >= earlier then now - earlier else 0
  }

  class DeduplicationMiddleware {
    const ttl: nat
    var seen: map<string, int>

    constructor (ttl: nat)
      ensures this.ttl == ttl && seen == map[]
    {
      this.ttl := ttl;
      seen := map[];
    }

    /** The `before` hook; false is the `Duplicate` error. */
    method Before(key: Option<string>, now: int) returns (ok: bool)
      modifies this
      ensures key.None? ==> ok && seen == old(seen)
      ensures key.Some? ==> (seen, ok) == Decide(old(seen), key.value, now, ttl)
      ensures key.Some? ==> ok == !(key.value in old(seen) && now - old(seen)[key.value] < ttl && ttl > 0)
      ensures key.Some? ==> seen == if ok then old(seen)[key.value := now] else old(seen)
    {
      if key.None? {
        return true;
      }
      if key.value in seen {
        if Since(now, seen[key.value]) < ttl {
          return false;
        }
        seen := seen[key.value := now];
      } else {
        seen := seen[key.value := now];
      }
      return true;
    }

    /** Drop the entries that have expired. */
    method Cleanup(now: int)
      modifies this
      ensures seen == Pruned(old(seen), now, ttl)
      ensures forall k :: k in seen <==> k in old(seen) && now - old(seen)[k] < ttl && ttl > 0
      ensures forall k <- seen :: seen[k] == old(seen)[k]
    {
      var left := seen.Keys;
      ghost var was := seen;
      while left != {}
        invariant left <= was.Keys && seen.Keys <= was.Keys
        invariant forall k <- was :: k in seen <==> k in left || Since(now, was[k]) < ttl
        invariant forall k <- seen :: seen[k] == was[k]
        decreases |left|
      {
        var k :| k in left;
        if Since(now, seen[k]) >= ttl {
          seen := seen - {k};
        }
        left := left - {k};
      }
      assert seen == Pruned(was, now, ttl);
    }
  }

  function Decide(seen: map<string, int>, key: string, now: int, ttl: nat): (map<string, int>, bool) {
    if key in seen && Since(now, seen[key]) < ttl then (seen, false) else (seen[key := now], true)
  }

  function Pruned(seen: map<string, int>, now: int, ttl: nat): map<string, int> {
    map k | k in seen && Since(now, seen[k]) < ttl :: seen[k]
  }

  datatype Call = Before(key: string, now: int) | Cleanup(now: int)

  /** What the middleware answers to a sequence of calls. */
  function Decisions(seen: map<string, int>, calls: seq<Call>, ttl: nat): seq<bool>
    decreases |calls|
  {
    if calls == [] then [] else
    match calls[0]
    case Before(key, now) =>
      var (seen', ok) := Decide(seen, key, now, ttl);
      [ok] + Decisions(seen', calls[1..], ttl)
    case Cleanup(now) => Decisions(Pruned(seen, now, ttl), calls[1..], ttl)
  }

  datatype Pass = Pass(key: string, at: int)

  /** The specification forgets nothing: a key passes unless it passed less than `ttl` ago. */
  ghost predicate Passes(history: seq<Pass>, key: string, now: int, ttl: nat) {
    forall i :: 0 <= i < |history| && history[i].key == key ==> now - history[i].at >= ttl
  }

  ghost function Extended(history: seq<Pass>, key: string, now: int, ttl: nat): seq<Pass> {
    if Passes(history, key, now, ttl) then history + [Pass(key, now)] else history
  }

  ghost function Specified(history: seq<Pass>, calls: seq<Call>, ttl: nat): seq<bool>
    decreases |calls|
  {
    if calls == [] then [] else
    match calls[0]
    case Before(key, now) =>
      [Passes(history, key, now, ttl)] + Specified(Extended(history, key, now, ttl), calls[1..], ttl)
    case Cleanup(_) => Specified(history, calls[1..], ttl)
  }

  ghost function History(history: seq<Pass>, calls: seq<Call>, ttl: nat): seq<Pass>
    decreases |calls|
  {
    if calls == [] then history else
    match calls[0]
    case Before(key, now) => History(Extended(history, key, now, ttl), calls[1..], ttl)
    case Cleanup(_) => History(history, calls[1..], ttl)
  }

  predicate Monotone(calls: seq<Call>, from: int)
    decreases |calls|
  {
    calls == [] || (from <= calls[0].now && Monotone(calls[1..], calls[0].now))
  }

  /** The map remembers of each key its last pass, or nothing if that is `ttl` ago. */
  ghost predicate Remembers(seen: map<string, int>, history: seq<Pass>, now: int, ttl: nat) {
    && (forall i :: 0 <= i < |history| ==> history[i].at <= now)
    && (forall k <- seen :: Pass(k, seen[k]) in history)
    && (forall i :: 0 <= i < |history| ==>
         if history[i].key in seen then history[i].at <= seen[history[i].key] else now - history[i].at >= ttl)
  }

  lemma DecideIsSpec(seen: map<string, int>, history: seq<Pass>, key: string, now: int, ttl: nat)
    requires Remembers(seen, history, now, ttl)
    ensures Decide(seen, key, now, ttl).1 <==> Passes(history, key, now, ttl)
    ensures Remembers(Decide(seen, key, now, ttl).0, Extended(history, key, now, ttl), now, ttl)
  {
    if key in seen {
      var i :| 0 <= i < |history| && history[i] == Pass(key, seen[key]);
    }
  }

  /** Whatever prunings are mixed in, under a clock that does not run backwards the bounded map
      decides as the unbounded history does. */
  lemma {:induction false} DecisionsAsSpecified(seen: map<string, int>, history: seq<Pass>, calls: seq<Call>,
                                                ttl: nat, from: int)
    requires Remembers(seen, history, from, ttl) && Monotone(calls, from)
    ensures Decisions(seen, calls, ttl) == Specified(history, calls, ttl)
    decreases |calls|
  {
    if calls != [] {
      var now := calls[0].now;
      RemembersLater(seen, history, from, now, ttl);
      match calls[0] {
        case Before(key, _) =>
          DecideIsSpec(seen, history, key, now, ttl);
          DecisionsAsSpecified(Decide(seen, key, now, ttl).0, Extended(history, key, now, ttl), calls[1..], ttl, now);
        case Cleanup(_) =>
          DecisionsAsSpecified(Pruned(seen, now, ttl), history, calls[1..], ttl, now);
      }
    }
  }

  ghost predicate Spaced(history: seq<Pass>, ttl: nat) {
    forall i, j :: 0 <= i < j < |history| && history[i].key == history[j].key ==> history[j].at - history[i].at >= ttl
  }

  lemma {:induction false} PassesAreSpaced(history: seq<Pass>, calls: seq<Call>, ttl: nat)
    requires Spaced(history, ttl)
    ensures Spaced(History(history, calls, ttl), ttl)
    decreases |calls|
  {
    if calls != [] {
      match calls[0] {
        case Before(key, now) => PassesAreSpaced(Extended(history, key, now, ttl), calls[1..], ttl);
        case Cleanup(_) => PassesAreSpaced(history, calls[1..], ttl);
      }
    }
  }

  /** The calls the map lets through. */
  function Accepted(seen: map<string, int>, calls: seq<Call>, ttl: nat): seq<Pass>
    decreases |calls|
  {
    if calls == [] then [] else
    match calls[0]
    case Before(key, now) =>
      var (seen', ok) := Decide(seen, key, now, ttl);
      (if ok then [Pass(key, now)] else []) + Accepted(seen', calls[1..], ttl)
    case Cleanup(now) => Accepted(Pruned(seen, now, ttl), calls[1..], ttl)
  }

  lemma RemembersLater(seen: map<string, int>, history: seq<Pass>, now: int, later: int, ttl: nat)
    requires Remembers(seen, history, now, ttl) && now <= later
    ensures Remembers(seen, history, later, ttl) && Remembers(Pruned(seen, later, ttl), history, later, ttl)
  {
  }

  lemma {:induction false} AcceptedIsHistory(seen: map<string, int>, history: seq<Pass>, calls: seq<Call>, ttl: nat,
                                             from: int)
    requires Remembers(seen, history, from, ttl) && Monotone(calls, from)
    ensures History(history, calls, ttl) == history + Accepted(seen, calls, ttl)
    decreases |calls|
  {
    if calls != [] {
      var now := calls[0].now;
      RemembersLater(seen, history, from, now, ttl);
      if calls[0].Before? {
        var key := calls[0].key;
        var seen', history' := Decide(seen, key, now, ttl).0, Extended(history, key, now, ttl);
        DecideIsSpec(seen, history, key, now, ttl);
        AcceptedIsHistory(seen', history', calls[1..], ttl, now);
        var passed := if Decide(seen, key, now, ttl).1 then [Pass(key, now)] else [];
        assert history' == history + passed;
        Regroup(history, passed, Accepted(seen', calls[1..], ttl));
      } else {
        AcceptedIsHistory(Pruned(seen, now, ttl), history, calls[1..], ttl, now);
      }
    }
  }

  /** Hence what a fresh middleware lets through with one key is at least `ttl` apart. */
  lemma AcceptedAreSpaced(calls: seq<Call>, ttl: nat, from: int)
    requires Monotone(calls, from)
    ensures Spaced(Accepted(map[], calls, ttl), ttl)
  {
    AcceptedIsHistory(map[], [], calls, ttl, from);
    PassesAreSpaced([], calls, ttl);
    assert [] + Accepted(map[], calls, ttl) == Accepted(map[], calls, ttl);
  }
}
