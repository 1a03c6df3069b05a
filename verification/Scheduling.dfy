/** The sorted set of scheduled messages and one run of the poll script
    (kojin-redis/src/scripts.rs:12-26, broker.rs:58-73, 183-198). */
module Scheduling {
  import opened Messages

  datatype Due = Due(score: int, message: Message)

  const POLL_LIMIT: nat := 100

  /** Sorted-set order: by score, equal scores by text; `rank` is where a text sorts. */
  predicate NotAfter(rank: Message -> int, a: Due, b: Due) {
    a.score < b.score || (a.score == b.score && rank(a.message) <= rank(b.message))
  }

  predicate InOrder(rank: Message -> int, s: seq<Due>) {
    forall i, j :: 0 <= i < j < |s| ==> NotAfter(rank, s[i], s[j])
  }

  predicate OncePerText(s: seq<Due>) {
    forall i, j :: 0 <= i < j < |s| ==> s[i].message != s[j].message
  }

  function Insert(rank: Message -> int, s: seq<Due>, d: Due): seq<Due> {
    if s == [] || NotAfter(rank, d, s[0]) then [d] + s else [s[0]] + Insert(rank, s[1..], d)
  }

  /** Adding a member again moves it. */
  function Dropped(s: seq<Due>, m: Message): seq<Due> {
    if s == [] then [] else if s[0].message == m then Dropped(s[1..], m) else [s[0]] + Dropped(s[1..], m)
  }

  lemma {:induction false} InsertInOrder(rank: Message -> int, s: seq<Due>, d: Due)
    requires InOrder(rank, s)
    ensures InOrder(rank, Insert(rank, s, d))
    ensures multiset(Insert(rank, s, d)) == multiset(s) + multiset{d}
  {
    if s != [] && !NotAfter(rank, d, s[0]) {
      InsertInOrder(rank, s[1..], d);
      var t := Insert(rank, s[1..], d);
      assert s == [s[0]] + s[1..];
      forall i | 0 <= i < |t| ensures NotAfter(rank, s[0], t[i]) {
        assert t[i] in multiset(t);
      }
    }
  }

  lemma {:induction false} DroppedInOrder(rank: Message -> int, s: seq<Due>, m: Message)
    requires InOrder(rank, s)
    ensures InOrder(rank, Dropped(s, m))
    ensures forall d :: d in Dropped(s, m) <==> d in s && d.message != m
  {
    if s != [] {
      DroppedInOrder(rank, s[1..], m);
      assert forall d :: d in s <==> d == s[0] || d in s[1..];
    }
  }

  lemma {:induction false} InsertOncePerText(rank: Message -> int, s: seq<Due>, d: Due)
    requires OncePerText(s) && forall e <- s :: e.message != d.message
    ensures OncePerText(Insert(rank, s, d))
    ensures forall e :: e in Insert(rank, s, d) <==> e in s || e == d
  {
    if s != [] && !NotAfter(rank, d, s[0]) {
      InsertOncePerText(rank, s[1..], d);
      assert s == [s[0]] + s[1..];
      assert forall e <- s[1..] :: e.message != s[0].message;
    }
  }

  lemma {:induction false} DroppedOncePerText(s: seq<Due>, m: Message)
    requires OncePerText(s)
    ensures OncePerText(Dropped(s, m))
    ensures forall d :: d in Dropped(s, m) <==> d in s && d.message != m
  {
    if s != [] {
      DroppedOncePerText(s[1..], m);
      assert s == [s[0]] + s[1..];
      assert forall e <- s[1..] :: e.message != s[0].message;
    }
  }

  /** How many entries at the front have a score of `now` or less. */
  function DueCount(s: seq<Due>, now: int): (n: nat)
    ensures n <= |s| && forall i :: 0 <= i < n ==> s[i].score <= now
  {
    if s == [] || s[0].score > now then 0 else 1 + DueCount(s[1..], now)
  }

  /** What `ZRANGEBYSCORE … LIMIT 0 100` reads. */
  function Polled(s: seq<Due>, now: int): seq<Due> {
    if DueCount(s, now) < POLL_LIMIT then s[..DueCount(s, now)] else s[..POLL_LIMIT]
  }

  /** The messages for queue `q`, in order. */
  function Routed(items: seq<Due>, q: string): seq<Message> {
    if items == [] then [] else
    var (front, last) := (items[..|items| - 1], items[|items| - 1]);
    if last.message.queue == q then Routed(front, q) + [last.message] else Routed(front, q)
  }

  lemma {:induction false} DueAreFirst(rank: Message -> int, s: seq<Due>, now: int)
    requires InOrder(rank, s)
    ensures forall i :: 0 <= i < |s| ==> (s[i].score <= now <==> i < DueCount(s, now))
  {
    if s != [] && s[0].score <= now {
      DueAreFirst(rank, s[1..], now);
      assert forall i :: 1 <= i < |s| ==> s[i] == s[1..][i - 1];
    }
  }

  /** A poll splits the set in three: the first hundred due entries, in order of score, are
      moved; the rest of the due ones are removed and moved nowhere; those not yet due stay. */
  lemma PollSplits(rank: Message -> int, s: seq<Due>, now: int)
    requires InOrder(rank, s)
    ensures var n := DueCount(s, now); var moved := Polled(s, now); var lost := s[|moved|..n]; var kept := s[n..];
      && s == moved + lost + kept
      && (forall d <- moved + lost :: d.score <= now) && (forall d <- kept :: d.score > now)
      && (forall a, b :: a in moved && b in lost ==> a.score <= b.score)
      && (lost == [] <==> n <= 100)
      && |lost| == if n <= 100 then 0 else n - 100
  {
    DueAreFirst(rank, s, now);
    var moved, n := Polled(s, now), DueCount(s, now);
    assert s == moved + s[|moved|..n] + s[n..];
    forall a, b | a in moved && b in s[|moved|..n] ensures a.score <= b.score {
      var i :| 0 <= i < |moved| && moved[i] == a;
      var j :| 0 <= j < |s[|moved|..n]| && s[|moved|..n][j] == b;
      assert s[i] == a && s[|moved| + j] == b;
    }
  }

  lemma {:induction false} RoutedAll(items: seq<Due>, d: Due)
    ensures d in items ==> d.message in Routed(items, d.message.queue)
  {
    if items != [] && d in items {
      var last := |items| - 1;
      assert items == items[..last] + [items[last]];
      RoutedAll(items[..last], d);
    }
  }

  lemma {:induction false} RoutedOnly(items: seq<Due>, q: string)
    ensures forall m <- Routed(items, q) :: m.queue == q && exists d <- items :: d.message == m
  {
    if items != [] {
      var last := |items| - 1;
      RoutedOnly(items[..last], q);
      assert items == items[..last] + [items[last]];
      forall m <- Routed(items, q) ensures m.queue == q && exists d <- items :: d.message == m {
        if m in Routed(items[..last], q) {
          var d :| d in items[..last] && d.message == m;
          assert d in items;
        } else {
          assert items[last] in items;
        }
      }
    }
  }

  /** Queues get exactly what was moved, so a poll loses nothing exactly when at most a
      hundred entries are due. */
  lemma PollLosesNothingIff(rank: Message -> int, s: seq<Due>, now: int)
    requires InOrder(rank, s) && OncePerText(s)
    ensures (forall d <- s :: d.score <= now ==> d.message in Routed(Polled(s, now), d.message.queue))
      <==> DueCount(s, now) <= 100
  {
    PollSplits(rank, s, now);
    var n, moved := DueCount(s, now), Polled(s, now);
    if n <= POLL_LIMIT {
      forall d <- s | d.score <= now ensures d.message in Routed(moved, d.message.queue) {
        RoutedAll(moved, d);
      }
    } else {
      var d := s[POLL_LIMIT];
      RoutedOnly(moved, d.message.queue);
      assert d in s && d.score <= now;
      forall e <- moved ensures e.message != d.message {
        var i :| 0 <= i < |moved| && moved[i] == e;
        assert e == s[i];
      }
    }
  }
}
