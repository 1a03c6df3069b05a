/** The Redis broker (kojin-redis/src/broker.rs:58-200, scripts.rs:12-26): lists that grow at the
    left and are consumed at the right, one processing list searched by text, keys that
    suppress duplicates, and a sorted set of scheduled messages.  One Redis command or script
    is atomic. */
module RedisBrokers {
  import opened Messages
  import opened Brokers
  import opened BrokerCalls
  import opened Scheduling
  import opened Sequences

  function Reverse<T>(s: seq<T>): (r: seq<T>)
    ensures |r| == |s|
  {
    if s == [] then [] else Reverse(s[1..]) + [s[0]]
  }

  lemma {:induction false} ReverseLast<T>(s: seq<T>)
    requires s != []
    ensures Reverse(s) == [s[|s| - 1]] + Reverse(s[..|s| - 1])
  {
    if |s| > 1 {
      ReverseLast(s[1..]);
      assert s[1..][..|s| - 2] == s[..|s| - 1][1..];
    }
  }

  function Lists(lists: map<string, seq<Message>>, q: string): seq<Message> {
    if q in lists then lists[q] else []
  }

  function Last<T>(s: seq<T>): T
    requires s != []
  {
    s[|s| - 1]
  }

  predicate FirstFilled(lists: map<string, seq<Message>>, names: seq<string>, i: nat)
    requires i < |names|
  {
    Lists(lists, names[i]) != [] && forall j :: 0 <= j < i ==> Lists(lists, names[j]) == []
  }

  /** A message went from queue `names[i]` to the processing list, every queue listed before
      being empty. */
  predicate Taken(r: Redis, r': Redis, names: seq<string>, i: nat, m: Message)
    requires i < |names|
  {
    FirstFilled(r.queues, names, i) && m == Last(Lists(r.queues, names[i])) && r' == r.Move(names[i])
  }

  /** The text of a message contains its own id and those that `others` gives: its
      callback's, its parent's, whatever its payload and headers quote. */
  predicate Mentions(others: Message -> set<Id>, m: Message, id: Id) {
    id == m.id || id in others(m)
  }

  /** Index of the first entry whose text contains `id`; the length if there is none. */
  function FirstMention(others: Message -> set<Id>, s: seq<Message>, id: Id): (i: nat)
    ensures i <= |s|
    ensures i < |s| ==> Mentions(others, s[i], id)
    ensures forall j :: 0 <= j < i ==> !Mentions(others, s[j], id)
  {
    if s == [] || Mentions(others, s[0], id) then 0
    else 1 + FirstMention(others, s[1..], id)
  }

  function Without<T>(s: seq<T>, i: nat): seq<T>
    requires i <= |s|
  {
    if i < |s| then s[..i] + s[i + 1..] else s
  }

  /** The keys of one Redis server as one broker uses them. */
  datatype Redis = Redis(
    queues: map<string, seq<Message>>, dlqs: map<string, seq<Message>>,
    processing: seq<Message>, dedups: set<string>)
  {
    function LPush(m: Message): Redis {
      this.(queues := queues[m.queue := [m] + Lists(queues, m.queue)])
    }

    /** `enqueue`: a live duplicate key swallows the message. */
    function Enqueue(m: Message): Redis {
      if m.dedupKey.None? then LPush(m)
      else if m.dedupKey.value in dedups then this
      else LPush(m).(dedups := dedups + {m.dedupKey.value})
    }

    /** `BLMOVE queue processing RIGHT LEFT`. */
    function Move(q: string): Redis
      requires Lists(queues, q) != []
    {
      var l := Lists(queues, q);
      this.(queues := queues[q := l[..|l| - 1]], processing := [Last(l)] + processing)
    }

    function Ack(others: Message -> set<Id>, id: Id): Redis {
      this.(processing := Without(processing, FirstMention(others, processing, id)))
    }

    function Nack(others: Message -> set<Id>, m: Message): Redis {
      Ack(others, m.id).Enqueue(m)
    }

    function DeadLetter(others: Message -> set<Id>, m: Message): Redis {
      var r := Ack(others, m.id);
      r.(dlqs := dlqs[m.queue := [m] + Lists(dlqs, m.queue)])
    }

    /** The same contents as a first-in-first-out broker has them. */
    ghost predicate Shows(b: Broker) {
      ListsShow(queues, q => b.Queue(q)) && ListsShow(dlqs, q => b.Dlq(q)) && Tracks(processing, b.processing)
    }
  }

  ghost predicate ListsShow(lists: map<string, seq<Message>>, fifo: string -> seq<Message>) {
    forall q :: fifo(q) == Reverse(Lists(lists, q))
  }

  /** The entries by id. */
  function ById(p: seq<Message>): map<Id, Message> {
    if p == [] then map[] else ById(p[1..])[p[0].id := p[0]]
  }

  predicate Distinct(p: seq<Message>) {
    p != [] ==> p[0].id !in ById(p[1..]) && Distinct(p[1..])
  }

  predicate Tracks(p: seq<Message>, tracked: map<Id, Message>) {
    tracked == ById(p) && Distinct(p)
  }

  /** `items` reached their queues, in order, behind what was there. */
  ghost predicate Delivered(before: map<string, seq<Message>>, after: map<string, seq<Message>>, items: seq<Due>) {
    forall q :: Reverse(Lists(after, q)) == Reverse(Lists(before, q)) + Routed(items, q)
  }

  lemma RoutedSnoc(items: seq<Due>, d: Due, q: string)
    ensures Routed(items + [d], q) == Routed(items, q) + if d.message.queue == q then [d.message] else []
  {
    assert (items + [d])[..|items|] == items;
  }

  lemma ReverseCons<T>(x: T, s: seq<T>)
    ensures Reverse([x] + s) == Reverse(s) + [x]
  {
    assert ([x] + s)[1..] == s;
  }

  /** One queue when `d` is pushed on its own. */
  lemma DeliverAt(was: seq<Message>, l: seq<Message>, items: seq<Due>, d: Due, q: string)
    requires Reverse(l) == was + Routed(items, q)
    ensures Reverse(if q == d.message.queue then [d.message] + l else l) == was + Routed(items + [d], q)
  {
    RoutedSnoc(items, d, q);
    ReverseCons(d.message, l);
    Regroup(was, Routed(items, q), [d.message]);
  }

  function Deliver(lists: map<string, seq<Message>>, m: Message): map<string, seq<Message>> {
    lists[m.queue := [m] + Lists(lists, m.queue)]
  }

  lemma DeliverOne(before: map<string, seq<Message>>, after: map<string, seq<Message>>, items: seq<Due>, d: Due)
    requires Delivered(before, after, items)
    ensures Delivered(before, Deliver(after, d.message), items + [d])
  {
    forall q {
      DeliverAt(Reverse(Lists(before, q)), Lists(after, q), items, d, q);
    }
  }

  lemma NothingDelivered(lists: map<string, seq<Message>>)
    ensures Delivered(lists, lists, [])
  {
  }

  class RedisBroker {
    const others: Message -> set<Id>
    var queues: map<string, seq<Message>>
    var dlqs: map<string, seq<Message>>
    var processing: seq<Message>
    var dedups: set<string>
    var scheduled: seq<Due>

    function View(): Redis
      reads this
    {
      Redis(queues, dlqs, processing, dedups)
    }

    constructor (others: Message -> set<Id>)
      ensures View() == Redis(map[], map[], [], {}) && scheduled == [] && this.others == others
    {
      this.others := others;
      queues, dlqs, processing, dedups, scheduled := map[], map[], [], {}, [];
    }

    method Enqueue(m: Message)
      modifies this
      ensures View() == old(View()).Enqueue(m) && scheduled == old(scheduled)
    {
      if m.dedupKey.Some? {
        if m.dedupKey.value in dedups {
          return;
        }
        dedups := dedups + {m.dedupKey.value};
      }
      queues := queues[m.queue := [m] + Lists(queues, m.queue)];
    }

    /** One `BLMOVE` per queue, in the order given, until one yields. */
    method Dequeue(names: seq<string>) returns (r: Option<Message>)
      modifies this
      ensures r.None? ==> View() == old(View()) && forall q <- names :: Lists(queues, q) == []
      ensures r.Some? ==> exists i: nat :: i < |names| && Taken(old(View()), View(), names, i, r.value)
      ensures (View(), r) == RedisStep(others, old(View()), Op.Dequeue(names))
      ensures scheduled == old(scheduled)
    {
      for i := 0 to |names|
        invariant View() == old(View()) && scheduled == old(scheduled)
        invariant forall j :: 0 <= j < i ==> Lists(queues, names[j]) == []
      {
        ReadyListAt(View(), names, i);
        assert names[i..][0] == names[i];
        var l := Lists(queues, names[i]);
        if l != [] {
          var m := Last(l);
          queues := queues[names[i] := l[..|l| - 1]];
          processing := [m] + processing;
          assert Taken(old(View()), View(), names, i, m);
          return Some(m);
        }
      }
      ReadyListAt(View(), names, |names|);
      return None;
    }

    /** Scan a copy of the processing list for the id, then `LREM` the text found. */
    method Ack(id: Id)
      modifies this
      ensures View() == old(View()).Ack(others, id) && scheduled == old(scheduled)
    {
      var items := processing;
      for i := 0 to |items|
        invariant View() == old(View()) && scheduled == old(scheduled)
        invariant forall j :: 0 <= j < i ==> !Mentions(others, items[j], id)
      {
        if Mentions(others, items[i], id) {
          LRem(items[i], i);
          return;
        }
      }
    }

    /** `LREM processing 1 item`; `i` is where the item first stands. */
    method LRem(item: Message, ghost i: nat)
      requires i < |processing| && processing[i] == item && forall j :: 0 <= j < i ==> processing[j] != item
      modifies this
      ensures View() == old(View()).(processing := Without(old(processing), i)) && scheduled == old(scheduled)
    {
      var k := 0;
      while processing[k] != item
        invariant 0 <= k <= i
        decreases i - k
      {
        k := k + 1;
      }
      processing := processing[..k] + processing[k + 1..];
    }

    method Nack(m: Message)
      modifies this
      ensures View() == old(View()).Nack(others, m) && scheduled == old(scheduled)
    {
      Ack(m.id);
      Enqueue(m);
    }

    method DeadLetter(m: Message)
      modifies this
      ensures View() == old(View()).DeadLetter(others, m) && scheduled == old(scheduled)
    {
      Ack(m.id);
      dlqs := dlqs[m.queue := [m] + Lists(dlqs, m.queue)];
    }

    /** `ZADD`: the set stays ordered by score, then text. */
    method Schedule(m: Message, eta: int, rank: Message -> int)
      requires InOrder(rank, scheduled) && OncePerText(scheduled)
      modifies this`scheduled
      ensures InOrder(rank, scheduled) && OncePerText(scheduled)
      ensures multiset(scheduled) == multiset(Dropped(old(scheduled), m)) + multiset{Due(eta, m)}
    {
      DroppedInOrder(rank, scheduled, m);
      DroppedOncePerText(scheduled, m);
      InsertOncePerText(rank, Dropped(scheduled, m), Due(eta, m));
      InsertInOrder(rank, Dropped(scheduled, m), Due(eta, m));
      scheduled := Insert(rank, Dropped(scheduled, m), Due(eta, m));
    }

    /** The poll script: the first hundred due entries go to their queues, every due entry
        leaves the set. */
    method PollScheduled(now: int) returns (count: nat)
      modifies this`queues, this`scheduled
      ensures count == |Polled(old(scheduled), now)|
      ensures scheduled == old(scheduled)[DueCount(old(scheduled), now)..]
      ensures Delivered(old(queues), queues, Polled(old(scheduled), now))
    {
      var items := Polled(scheduled, now);
      NothingDelivered(queues);
      if |items| == 0 {
        return 0;
      }
      assert items[..0] == [];
      for i := 0 to |items|
        invariant scheduled == old(scheduled) && Delivered(old(queues), queues, items[..i])
      {
        DeliverOne(old(queues), queues, items[..i], items[i]);
        assert items[..i] + [items[i]] == items[..i + 1];
        queues := Deliver(queues, items[i].message);
      }
      assert items[..|items|] == items;
      scheduled := scheduled[DueCount(scheduled, now)..];
      return |items|;
    }
  }

  // ---------------------------------------------------------------- searching by text

  /** Every entry of a processing list is found by its own id exactly when no text names the
      id of an entry further down, that is, of one dequeued earlier. */
  lemma AcksFindTheirOwnIff(others: Message -> set<Id>, s: seq<Message>)
    ensures (forall j :: 0 <= j < |s| ==> FirstMention(others, s, s[j].id) == j)
      <==> (forall i, j :: 0 <= i < j < |s| ==> !Mentions(others, s[i], s[j].id))
  {
    forall j | 0 <= j < |s| && forall i :: 0 <= i < j ==> !Mentions(others, s[i], s[j].id)
      ensures FirstMention(others, s, s[j].id) == j
    {
      assert Mentions(others, s[j], s[j].id);
    }
  }

  /** A broker on which `a`, then `b` were enqueued and then dequeued. */
  function Dequeued(a: Message, b: Message): Redis
    requires a.queue == b.queue && a.dedupKey.None? && b.dedupKey.None?
  {
    Redis(map[], map[], [], {}).Enqueue(a).Enqueue(b).Move(a.queue).Move(a.queue)
  }

  /** Whenever the message dequeued later quotes the other's id - in its payload, say - acking
      the other removes the quoting one, and the one acked stays. */
  lemma QuotedAckTakesAnother(others: Message -> set<Id>, a: Message, b: Message)
    requires a.queue == b.queue && a.dedupKey.None? && b.dedupKey.None?
    requires a.id != b.id && a.id in others(b)
    ensures Dequeued(a, b).processing == [b, a] && Dequeued(a, b).Ack(others, a.id).processing == [a]
  {
    var q := a.queue;
    var both := Redis(map[], map[], [], {}).Enqueue(a).Enqueue(b);
    assert Lists(both.queues, q) == [b, a];
    assert Lists(both.Move(q).queues, q) == [b] && both.Move(q).processing == [a];
    assert Dequeued(a, b).processing == [b, a];
    assert FirstMention(others, [b, a], a.id) == 0;
  }

  // ---------------------------------------------------------------- the same broker as the memory one

  function ReadyList(r: Redis, names: seq<string>): (q: Option<string>)
    ensures q.Some? ==> Lists(r.queues, q.value) != []
  {
    if names == [] then None
    else if Lists(r.queues, names[0]) != [] then Some(names[0])
    else ReadyList(r, names[1..])
  }

  lemma {:induction false} ReadyListAt(r: Redis, names: seq<string>, i: nat)
    requires i <= |names| && forall j :: 0 <= j < i ==> Lists(r.queues, names[j]) == []
    ensures ReadyList(r, names) == ReadyList(r, names[i..])
  {
    if i > 0 {
      assert names[1..][i - 1..] == names[i..];
      forall j | 0 <= j < i - 1 ensures Lists(r.queues, names[1..][j]) == [] { assert names[1..][j] == names[j + 1]; }
      ReadyListAt(r, names[1..], i - 1);
    }
  }

  /** The queue that a call takes an entry from. */
  function SourceList(r: Redis, op: Op): (q: Option<string>)
    ensures q.Some? ==> Lists(r.queues, q.value) != []
  {
    match op
    case Dequeue(names) => ReadyList(r, names)
    case Take(q) => if Lists(r.queues, q) != [] then Some(q) else None
    case _ => None
  }

  function RedisStep(others: Message -> set<Id>, r: Redis, op: Op): (Redis, Option<Message>) {
    match op
    case Enqueue(m) => (r.Enqueue(m), None)
    case Ack(id) => (r.Ack(others, id), None)
    case Nack(m) => (r.Nack(others, m), None)
    case DeadLetter(m) => (r.DeadLetter(others, m), None)
    case Expire(key) => (r.(dedups := r.dedups - {key}), None)
    case _ =>
      match SourceList(r, op)
      case None => (r, None)
      case Some(q) => (r.Move(q), Some(Last(Lists(r.queues, q))))
  }

  /** What the Redis broker asks of the call: no duplicate key on what is pushed, no text in
      flight that names another message's id being acked, and no id taken that is in flight. */
  ghost predicate Proper(others: Message -> set<Id>, b: Broker, op: Op) {
    match op
    case Enqueue(m) => m.dedupKey.None?
    case Nack(m) => m.dedupKey.None? && Unquoted(others, b, m.id)
    case Ack(id) => Unquoted(others, b, id)
    case DeadLetter(m) => Unquoted(others, b, m.id)
    case Expire(_) => true
    case _ => Source(b, op).Some? ==> b.Queue(Source(b, op).value)[0].id !in b.processing
  }

  ghost predicate Unquoted(others: Message -> set<Id>, b: Broker, id: Id) {
    OnlyOwn(others, b.processing, id)
  }

  lemma {:induction false} ReadyAgree(r: Redis, b: Broker, names: seq<string>)
    requires r.Shows(b)
    ensures ReadyList(r, names) == b.Ready(names)
  {
    if names != [] {
      assert b.Queue(names[0]) == Reverse(Lists(r.queues, names[0]));
      ReadyAgree(r, b, names[1..]);
    }
  }

  lemma TakeTracks(p: seq<Message>, tracked: map<Id, Message>, m: Message)
    requires Tracks(p, tracked) && m.id !in tracked
    ensures Tracks([m] + p, tracked[m.id := m])
  {
    assert ([m] + p)[1..] == p;
  }

  ghost predicate OnlyOwn(others: Message -> set<Id>, tracked: map<Id, Message>, id: Id) {
    forall k <- tracked :: k != id ==> !Mentions(others, tracked[k], id)
  }

  lemma WithoutTail(p: seq<Message>, i: nat)
    requires p != [] && i <= |p| - 1
    ensures [p[0]] + Without(p[1..], i) == Without(p, i + 1)
  {
    if i + 1 < |p| {
      assert p[1..][..i] == p[1..i + 1];
      assert [p[0]] + p[1..i + 1] == p[..i + 1];
    }
  }

  lemma MinusCommutes(tracked: map<Id, Message>, id: Id, m: Message)
    requires m.id != id
    ensures (tracked - {id})[m.id := m] == tracked[m.id := m] - {id}
  {
  }

  lemma {:induction false} AckTracks(others: Message -> set<Id>, p: seq<Message>, id: Id)
    requires Distinct(p) && OnlyOwn(others, ById(p), id)
    ensures Tracks(Without(p, FirstMention(others, p, id)), ById(p) - {id})
  {
    if p == [] {
    } else if Mentions(others, p[0], id) {
      assert ById(p)[p[0].id] == p[0];
      assert p[0].id == id;
      assert Without(p, 0) == p[1..];
      assert ById(p) - {id} == ById(p[1..]);
    } else {
      var rest, i := ById(p[1..]), FirstMention(others, p[1..], id);
      assert forall k <- rest :: k in ById(p) && ById(p)[k] == rest[k];
      AckTracks(others, p[1..], id);
      TakeTracks(Without(p[1..], i), rest - {id}, p[0]);
      WithoutTail(p, i);
      MinusCommutes(rest, id, p[0]);
    }
  }

  lemma AckShows(others: Message -> set<Id>, r: Redis, b: Broker, id: Id)
    requires r.Shows(b) && Unquoted(others, b, id)
    ensures r.Ack(others, id).Shows(b.Untrack(id))
  {
    AckTracks(others, r.processing, id);
    assert forall q :: b.Untrack(id).Queue(q) == b.Queue(q) && b.Untrack(id).Dlq(q) == b.Dlq(q);
  }

  lemma PushShows(r: Redis, b: Broker, m: Message)
    requires r.Shows(b)
    ensures r.LPush(m).Shows(b.Push(m))
  {
    forall q ensures b.Push(m).Queue(q) == Reverse(Lists(r.LPush(m).queues, q)) {
      assert b.Queue(q) == Reverse(Lists(r.queues, q));
      assert ([m] + Lists(r.queues, m.queue))[1..] == Lists(r.queues, m.queue);
    }
    assert forall q :: b.Push(m).Dlq(q) == b.Dlq(q);
  }

  lemma PushDeadShows(r: Redis, b: Broker, m: Message)
    requires r.Shows(b)
    ensures r.(dlqs := r.dlqs[m.queue := [m] + Lists(r.dlqs, m.queue)]).Shows(b.PushDead(m))
  {
    var r' := r.(dlqs := r.dlqs[m.queue := [m] + Lists(r.dlqs, m.queue)]);
    forall q ensures b.PushDead(m).Dlq(q) == Reverse(Lists(r'.dlqs, q)) {
      assert b.Dlq(q) == Reverse(Lists(r.dlqs, q));
      assert ([m] + Lists(r.dlqs, m.queue))[1..] == Lists(r.dlqs, m.queue);
    }
    assert forall q :: b.PushDead(m).Queue(q) == b.Queue(q);
  }

  lemma MoveShows(r: Redis, b: Broker, q: string)
    requires r.Shows(b) && b.Queue(q) != [] && b.Queue(q)[0].id !in b.processing
    ensures Lists(r.queues, q) != [] && Last(Lists(r.queues, q)) == b.Queue(q)[0]
    ensures r.Move(q).Shows(b.Pop(q).Track(b.Queue(q)[0]))
  {
    var l := Lists(r.queues, q);
    assert b.Queue(q) == Reverse(l);
    ReverseLast(l);
    var m := Last(l);
    var r', b' := r.Move(q), b.Pop(q).Track(m);
    TakeTracks(r.processing, b.processing, m);
    forall n ensures b'.Queue(n) == Reverse(Lists(r'.queues, n)) { assert b.Queue(n) == Reverse(Lists(r.queues, n)); }
    assert forall n :: b'.Dlq(n) == b.Dlq(n);
  }

  lemma SourcesAgree(r: Redis, b: Broker, op: Op)
    requires r.Shows(b)
    ensures SourceList(r, op) == Source(b, op)
  {
    match op {
      case Dequeue(names) => ReadyAgree(r, b, names);
      case Take(q) => assert b.Queue(q) == Reverse(Lists(r.queues, q));
      case _ =>
    }
  }

  lemma StepAgrees(others: Message -> set<Id>, r: Redis, b: Broker, op: Op)
    requires r.Shows(b) && Proper(others, b, op)
    ensures RedisStep(others, r, op).1 == MemoryStep(b, op).1
    ensures RedisStep(others, r, op).0.Shows(MemoryStep(b, op).0)
  {
    match op {
      case Enqueue(m) => PushShows(r, b, m);
      case Ack(id) => AckShows(others, r, b, id);
      case Nack(m) =>
        AckShows(others, r, b, m.id);
        PushShows(r.Ack(others, m.id), b.Untrack(m.id), m);
      case DeadLetter(m) =>
        AckShows(others, r, b, m.id);
        PushDeadShows(r.Ack(others, m.id), b.Untrack(m.id), m);
      case Expire(_) =>
      case _ =>
        SourcesAgree(r, b, op);
        if Source(b, op).Some? { MoveShows(r, b, Source(b, op).value); }
    }
  }

  ghost predicate AllProper(others: Message -> set<Id>, b: Broker, ops: seq<Op>)
    decreases |ops|
  {
    ops == [] || (Proper(others, b, ops[0]) && AllProper(others, MemoryStep(b, ops[0]).0, ops[1..]))
  }

  function RedisRun(others: Message -> set<Id>, r: Redis, ops: seq<Op>): (Redis, seq<Option<Message>>)
    decreases |ops|
  {
    if ops == [] then (r, []) else
    var (r1, a) := RedisStep(others, r, ops[0]);
    var (r2, rest) := RedisRun(others, r1, ops[1..]);
    (r2, [a] + rest)
  }

  /** Any sequence of proper calls gets the same answers from both brokers, and leaves the
      same messages in the same places in the same order. */
  lemma {:induction false} BrokersAgree(others: Message -> set<Id>, r: Redis, b: Broker, ops: seq<Op>)
    requires r.Shows(b) && AllProper(others, b, ops)
    ensures RedisRun(others, r, ops).1 == MemoryRun(b, ops).1
    ensures RedisRun(others, r, ops).0.Shows(MemoryRun(b, ops).0)
    decreases |ops|
  {
    if ops != [] {
      StepAgrees(others, r, b, ops[0]);
      BrokersAgree(others, RedisStep(others, r, ops[0]).0, MemoryStep(b, ops[0]).0, ops[1..]);
    }
  }

  // ---------------------------------------------------------------- order

  /** A push that the duplicate filter lets through. */
  function Admitted(r: Redis, op: Op, q: string): seq<Message> {
    if (op.Enqueue? || op.Nack?) && (op.m.dedupKey.None? || op.m.dedupKey.value !in r.dedups)
    then PushedBy(op, q) else []
  }

  function AllAdmitted(others: Message -> set<Id>, r: Redis, ops: seq<Op>, q: string): seq<Message>
    decreases |ops|
  {
    if ops == [] then []
    else Admitted(r, ops[0], q) + AllAdmitted(others, RedisStep(others, r, ops[0]).0, ops[1..], q)
  }

  function Moved(r: Redis, op: Op, q: string): seq<Message> {
    if SourceList(r, op) == Some(q) then [Last(Lists(r.queues, q))] else []
  }

  function AllMoved(others: Message -> set<Id>, r: Redis, ops: seq<Op>, q: string): seq<Message>
    decreases |ops|
  {
    if ops == [] then [] else Moved(r, ops[0], q) + AllMoved(others, RedisStep(others, r, ops[0]).0, ops[1..], q)
  }

  lemma StepInOrder(others: Message -> set<Id>, r: Redis, op: Op, q: string)
    ensures var r' := RedisStep(others, r, op).0;
      Reverse(Lists(r.queues, q)) + Admitted(r, op, q) == Moved(r, op, q) + Reverse(Lists(r'.queues, q))
  {
    var l, l' := Lists(r.queues, q), Lists(RedisStep(others, r, op).0.queues, q);
    if SourceList(r, op) == Some(q) {
      ReverseLast(l);
    } else if Admitted(r, op, q) != [] {
      assert l' == [op.m] + l && l'[1..] == l;
    } else {
      assert l' == l;
    }
  }

  /** First in, first out over any sequence of calls, whatever they are and however looks at
      single queues are interleaved with them: what was queued and then let in is what was taken and
      then is queued, in order. */
  lemma {:induction false} RedisFifo(others: Message -> set<Id>, r: Redis, ops: seq<Op>, q: string)
    ensures Reverse(Lists(r.queues, q)) + AllAdmitted(others, r, ops, q)
      == AllMoved(others, r, ops, q) + Reverse(Lists(RedisRun(others, r, ops).0.queues, q))
    decreases |ops|
  {
    var l := Reverse(Lists(r.queues, q));
    if ops == [] {
      assert l + [] == [] + l;
    } else {
      var r' := RedisStep(others, r, ops[0]).0;
      StepInOrder(others, r, ops[0], q);
      RedisFifo(others, r', ops[1..], q);
      Rejoin(l, Admitted(r, ops[0], q), AllAdmitted(others, r', ops[1..], q), Moved(r, ops[0], q),
             Reverse(Lists(r'.queues, q)), AllMoved(others, r', ops[1..], q),
             Reverse(Lists(RedisRun(others, r, ops).0.queues, q)));
    }
  }

  // ---------------------------------------------------------------- duplicate keys

  /** Messages with key `k` that these calls get onto a queue. */
  function Accepted(others: Message -> set<Id>, r: Redis, ops: seq<Op>, k: string): nat
    decreases |ops|
  {
    if ops == [] then 0 else
    var pushes := (ops[0].Enqueue? || ops[0].Nack?) && ops[0].m.dedupKey == Some(k) && k !in r.dedups;
    (if pushes then 1 else 0) + Accepted(others, RedisStep(others, r, ops[0]).0, ops[1..], k)
  }

  /** How often key `k` expires while it is alive. */
  function Lapses(others: Message -> set<Id>, r: Redis, ops: seq<Op>, k: string): nat
    decreases |ops|
  {
    if ops == [] then 0
    else (if ops[0] == Op.Expire(k) && k in r.dedups then 1 else 0)
         + Lapses(others, RedisStep(others, r, ops[0]).0, ops[1..], k)
  }

  function Alive(r: Redis, k: string): nat {
    if k in r.dedups then 1 else 0
  }

  /** A key lets one message through, retries included, for each lifetime it begins: its
      acceptances are its expiries, one more if it is alive at the end, one fewer if it was at
      the start. */
  lemma {:induction false} KeyAcceptedOnce(others: Message -> set<Id>, r: Redis, ops: seq<Op>, k: string)
    ensures Accepted(others, r, ops, k) + Alive(r, k)
      == Lapses(others, r, ops, k) + Alive(RedisRun(others, r, ops).0, k)
    decreases |ops|
  {
    if ops != [] {
      KeyStep(others, r, ops[0], k);
      KeyAcceptedOnce(others, RedisStep(others, r, ops[0]).0, ops[1..], k);
    }
  }

  lemma KeyStep(others: Message -> set<Id>, r: Redis, op: Op, k: string)
    ensures Accepted(others, r, [op], k) + Alive(r, k)
      == Lapses(others, r, [op], k) + Alive(RedisStep(others, r, op).0, k)
  {
    assert [op][1..] == [];
  }

  /** A failed attempt keeps its message exactly when the message has no duplicate key that is
      still alive; otherwise the nack drops it. */
  lemma NackKeepsIff(others: Message -> set<Id>, r: Redis, m: Message)
    ensures (multiset(Lists(r.Nack(others, m).queues, m.queue)) == multiset(Lists(r.queues, m.queue)) + multiset{m})
      <==> (m.dedupKey.None? || m.dedupKey.value !in r.dedups)
  {
    assert multiset([m] + Lists(r.queues, m.queue)) == multiset{m} + multiset(Lists(r.queues, m.queue));
    assert |multiset(Lists(r.queues, m.queue)) + multiset{m}| == |Lists(r.queues, m.queue)| + 1;
  }

  /** So a message enqueued with a key and nacked before that key expires is dropped. */
  lemma RetriedKeyIsLost(others: Message -> set<Id>, r: Redis, m: Message, ops: seq<Op>, m': Message)
    requires m.dedupKey.Some? && m'.dedupKey == m.dedupKey
    requires Lapses(others, r.Enqueue(m), ops, m.dedupKey.value) == 0
    ensures var r' := RedisRun(others, r.Enqueue(m), ops).0; r'.Nack(others, m').queues == r'.queues
  {
    KeyAcceptedOnce(others, r.Enqueue(m), ops, m.dedupKey.value);
  }
}
