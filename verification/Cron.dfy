/** The cron scheduler loop (kojin-core/src/cron.rs:70-118).  Times count nanoseconds. */
module Cron {
  import opened Messages

  const SECOND: int := 1_000_000_000

  /** `instants` is the schedule, `next` the first of them after a given time. */
  datatype Entry = Entry(name: string, instants: int -> bool, next: int -> Option<int>)

  ghost predicate NextIsFirst(e: Entry) {
    && (forall t :: e.next(t).Some? ==> e.next(t).value > t && e.instants(e.next(t).value))
    && (forall t, x :: x > t && e.instants(x) ==> e.next(t).Some? && e.next(t).value <= x)
  }

  datatype Firing = Firing(name: string, instant: int, at: int)

  /** One entry's last firing poll, and its firings. */
  datatype Track = Track(last: Option<int>, fired: seq<Firing>)

  function Poll(e: Entry, t: Track, now: int): Track {
    var last := if t.last.Some? then t.last.value else now - SECOND;
    var due := e.next(last);
    if due.Some? && due.value <= now then Track(Some(now), t.fired + [Firing(e.name, due.value, now)]) else t
  }

  function After(e: Entry, polls: seq<int>): Track {
    if polls == [] then Track(None, []) else Poll(e, After(e, polls[..|polls| - 1]), polls[|polls| - 1])
  }

  /** The firings of one entry. */
  function Of(fired: seq<Firing>, name: string): seq<Firing> {
    if fired == [] then [] else
    var (front, last) := (fired[..|fired| - 1], fired[|fired| - 1]);
    if last.name == name then Of(front, name) + [last] else Of(front, name)
  }

  lemma OfOneMore(fired: seq<Firing>, f: Firing, name: string)
    ensures Of(fired + [f], name) == if f.name == name then Of(fired, name) + [f] else Of(fired, name)
  {
    assert (fired + [f])[..|fired|] == fired;
  }

  predicate DistinctNames(entries: seq<Entry>) {
    forall i, j :: 0 <= i < j < |entries| ==> entries[i].name != entries[j].name
  }

  ghost predicate Tracked(e: Entry, polls: seq<int>, lastRuns: map<string, int>, fired: seq<Firing>) {
    var t := After(e, polls);
    Of(fired, e.name) == t.fired && (if e.name in lastRuns then t.last == Some(lastRuns[e.name]) else t.last.None?)
  }

  /** In the poll at `now`, after those of `done`, the first `i` entries have had their turn. */
  ghost predicate PartTracked(entries: seq<Entry>, i: nat, done: seq<int>, now: int, lastRuns: map<string, int>,
                              fired: seq<Firing>)
  {
    forall k :: 0 <= k < |entries| ==>
      Tracked(entries[k], if k < i then done + [now] else done, lastRuns, fired)
  }

  /** What the turn of entry `i` leaves of the last runs and the firings. */
  function Polled(e: Entry, now: int, lastRuns: map<string, int>, fired: seq<Firing>): (map<string, int>, seq<Firing>) {
    var due := e.next(if e.name in lastRuns then lastRuns[e.name] else now - SECOND);
    if due.Some? && due.value <= now
    then (lastRuns[e.name := now], fired + [Firing(e.name, due.value, now)]) else (lastRuns, fired)
  }

  lemma EntryPolled(entries: seq<Entry>, i: nat, done: seq<int>, now: int, lastRuns: map<string, int>,
                    fired: seq<Firing>)
    requires DistinctNames(entries) && i < |entries| && PartTracked(entries, i, done, now, lastRuns, fired)
    ensures var (lastRuns', fired') := Polled(entries[i], now, lastRuns, fired);
      PartTracked(entries, i + 1, done, now, lastRuns', fired')
  {
    var (lastRuns', fired') := Polled(entries[i], now, lastRuns, fired);
    forall k | 0 <= k < |entries|
      ensures Tracked(entries[k], if k < i + 1 then done + [now] else done, lastRuns', fired')
    {
      assert Tracked(entries[k], if k < i then done + [now] else done, lastRuns, fired);
      if k == i {
        OwnPolled(entries[i], done, now, lastRuns, fired);
      } else {
        OtherPolled(entries[k], entries[i], if k < i then done + [now] else done, now, lastRuns, fired);
      }
    }
  }

  lemma OwnPolled(e: Entry, done: seq<int>, now: int, lastRuns: map<string, int>, fired: seq<Firing>)
    requires Tracked(e, done, lastRuns, fired)
    ensures var (lastRuns', fired') := Polled(e, now, lastRuns, fired); Tracked(e, done + [now], lastRuns', fired')
  {
    assert (done + [now])[..|done|] == done;
    var due := e.next(if e.name in lastRuns then lastRuns[e.name] else now - SECOND);
    if due.Some? { OfOneMore(fired, Firing(e.name, due.value, now), e.name); }
  }

  lemma OtherPolled(e: Entry, other: Entry, polls: seq<int>, now: int, lastRuns: map<string, int>, fired: seq<Firing>)
    requires Tracked(e, polls, lastRuns, fired) && other.name != e.name
    ensures var (lastRuns', fired') := Polled(other, now, lastRuns, fired); Tracked(e, polls, lastRuns', fired')
  {
    var due := other.next(if other.name in lastRuns then lastRuns[other.name] else now - SECOND);
    if due.Some? { OfOneMore(fired, Firing(other.name, due.value, now), e.name); }
  }

  /** Two loops, over polls and entries, sharing one map of last runs: every entry fires as if
      it were alone. */
  method SchedulerLoop(entries: seq<Entry>, polls: seq<int>) returns (fired: seq<Firing>)
    requires DistinctNames(entries)
    ensures forall e <- entries :: Of(fired, e.name) == After(e, polls).fired
  {
    var lastRuns: map<string, int> := map[];
    fired := [];
    for p := 0 to |polls|
      invariant forall k :: 0 <= k < |entries| ==> Tracked(entries[k], polls[..p], lastRuns, fired)
    {
      var now := polls[p];
      ghost var done := polls[..p];
      for i := 0 to |entries|
        invariant PartTracked(entries, i, done, now, lastRuns, fired)
      {
        var e := entries[i];
        EntryPolled(entries, i, done, now, lastRuns, fired);
        var last := if e.name in lastRuns then lastRuns[e.name] else now - SECOND;
        var due := e.next(last);
        if due.Some? && due.value <= now {
          fired := fired + [Firing(e.name, due.value, now)];
          lastRuns := lastRuns[e.name := now];
        }
      }
      assert done + [now] == polls[..p + 1];
    }
    assert polls[..|polls|] == polls;
  }

  predicate Nondecreasing(polls: seq<int>) {
    forall i, j :: 0 <= i < j < |polls| ==> polls[i] <= polls[j]
  }

  /** Each firing is for an instant not after its poll and after the poll of the one before. */
  predicate Spread(e: Entry, t: Track) {
    && (forall i :: 0 <= i < |t.fired| ==> e.instants(t.fired[i].instant) && t.fired[i].instant <= t.fired[i].at)
    && (forall i, j :: 0 <= i < j < |t.fired| ==> t.fired[i].at < t.fired[j].instant)
    && t.last == if t.fired == [] then None else Some(t.fired[|t.fired| - 1].at)
  }

  lemma {:induction false} FiringsSpread(e: Entry, polls: seq<int>)
    requires NextIsFirst(e) && Nondecreasing(polls)
    ensures Spread(e, After(e, polls))
    ensures polls == [] ==> After(e, polls).fired == []
    ensures polls != [] && After(e, polls).last.Some? ==> After(e, polls).last.value <= polls[|polls| - 1]
  {
    if polls != [] {
      FiringsSpread(e, polls[..|polls| - 1]);
      var t := After(e, polls[..|polls| - 1]);
      var t' := After(e, polls);
      if t' != t {
        forall i, j | 0 <= i < j < |t'.fired| ensures t'.fired[i].at < t'.fired[j].instant {
          if j == |t.fired| { assert t.fired[i].at <= t.last.value; }
        }
      }
    }
  }

  /** No instant is fired twice, and firings come in the order of their instants. */
  lemma FiringsAreInOrder(e: Entry, polls: seq<int>)
    requires NextIsFirst(e) && Nondecreasing(polls)
    ensures var f := After(e, polls).fired;
      (forall i :: 0 <= i < |f| ==> e.instants(f[i].instant))
      && (forall i, j :: 0 <= i < j < |f| ==> f[i].instant < f[j].instant)
  {
    FiringsSpread(e, polls);
  }

  ghost predicate SomeInstant(e: Entry, from: int, to: int) {
    exists x :: from < x <= to && e.instants(x)
  }

  /** A poll fires exactly when an instant lies between the entry's last firing poll - before
      the first firing, the second before this poll - and now. */
  lemma FiresIff(e: Entry, polls: seq<int>, now: int)
    requires NextIsFirst(e) && Nondecreasing(polls)
    ensures var f := After(e, polls).fired; var f' := After(e, polls + [now]).fired;
      var from := if f == [] then now - 1_000_000_000 else f[|f| - 1].at;
      && (f' != f <==> SomeInstant(e, from, now))
      && (f' != f ==> |f'| == |f| + 1 && f'[..|f|] == f && f'[|f|].at == now && from < f'[|f|].instant)
      && (f' != f ==> forall x :: from < x <= now && e.instants(x) ==> f'[|f|].instant <= x)
  {
    FiringsSpread(e, polls);
    assert (polls + [now])[..|polls|] == polls;
    var t := After(e, polls);
    var from := if t.fired == [] then now - SECOND else t.fired[|t.fired| - 1].at;
    assert After(e, polls + [now]) == Poll(e, t, now);
    var due := e.next(from);
    if due.Some? && due.value <= now {
      assert e.instants(due.value);
    }
  }

  /** So once an entry has fired, no later instant is missed: the first poll at or after it
      fires for it or for an earlier instant since the last firing. */
  lemma InstantsCovered(e: Entry, polls: seq<int>, now: int, x: int)
    requires NextIsFirst(e) && Nondecreasing(polls + [now]) && e.instants(x) && x <= now
    requires polls != [] && polls[|polls| - 1] < x && After(e, polls).fired != []
    ensures var f := After(e, polls).fired; var f' := After(e, polls + [now]).fired;
      |f'| == |f| + 1 && f'[|f|].at == now && f[|f| - 1].at < f'[|f|].instant <= x
  {
    forall i, j | 0 <= i < j < |polls| ensures polls[i] <= polls[j] {
      assert (polls + [now])[i] == polls[i] && (polls + [now])[j] == polls[j];
    }
    FiringsSpread(e, polls);
    FiresIff(e, polls, now);
    var f := After(e, polls).fired;
    assert f[|f| - 1].at < x;
  }
}
