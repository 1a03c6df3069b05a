/** Concurrent acks on one Redis processing list (kojin-redis/src/broker.rs:141-163): each
    takes a snapshot, picks an entry from it by text, and later removes that text, while
    other executions ack and the dequeue loop adds entries. */
module RedisAcks {
  import opened Messages
  import R = RedisBrokers

  datatype Pc = Scanning | Removing(item: Message) | Acked

  datatype Acker = Acker(own: Message, pc: Pc)

  /** `ideal` is history: what the list should hold, each ack that is done having removed its
      own message and nothing else. */
  datatype Race = Race(list: seq<Message>, ackers: seq<Acker>, ideal: set<Message>)

  datatype Step =
    | Start(m: Message)  // the execution of an entry begins its ack
    | Scan(k: nat)
    | Remove(k: nat)
    | Take(m: Message)   // a dequeue adds an entry, which may be one that was here before

  function IndexOf(s: seq<Message>, m: Message): (i: nat)
    ensures i <= |s| && (i < |s| <==> m in s) && (i < |s| ==> s[i] == m)
  {
    if s == [] || s[0] == m then 0 else 1 + IndexOf(s[1..], m)
  }

  predicate Acking(a: Acker) {
    !a.pc.Acked?
  }

  /** While an id is being acked, no other text on the list names it. */
  predicate Enabled(others: Message -> set<Id>, s: Race, l: Step) {
    match l
    case Start(m) =>
      && m in s.list && (forall a <- s.ackers :: Acking(a) ==> a.own != m)
      && (forall x <- s.list :: x != m ==> !R.Mentions(others, x, m.id))
    case Scan(k) => k < |s.ackers| && s.ackers[k].pc.Scanning?
    case Remove(k) => k < |s.ackers| && s.ackers[k].pc.Removing?
    case Take(m) => m !in s.list && forall a <- s.ackers :: Acking(a) ==> !R.Mentions(others, m, a.own.id)
  }

  function Next(others: Message -> set<Id>, s: Race, l: Step): Race
    requires Enabled(others, s, l)
  {
    match l
    case Start(m) => s.(ackers := s.ackers + [Acker(m, Scanning)])
    case Scan(k) =>
      var a := s.ackers[k];
      var i := R.FirstMention(others, s.list, a.own.id);
      s.(ackers := s.ackers[k := a.(pc := if i < |s.list| then Removing(s.list[i]) else Acked)])
    case Remove(k) =>
      var a := s.ackers[k];
      Race(R.Without(s.list, IndexOf(s.list, a.pc.item)), s.ackers[k := a.(pc := Acked)], s.ideal - {a.own})
    case Take(m) => s.(list := [m] + s.list, ideal := s.ideal + {m})
  }

  ghost predicate Leads(others: Message -> set<Id>, s: Race, steps: seq<Step>, t: Race)
    decreases |steps|
  {
    if steps == [] then s == t
    else Enabled(others, s, steps[0]) && Leads(others, Next(others, s, steps[0]), steps[1..], t)
  }

  predicate Once(s: seq<Message>) {
    forall i, j :: 0 <= i < j < |s| ==> s[i] != s[j]
  }

  predicate Unquoted(others: Message -> set<Id>, s: Race) {
    forall m <- s.list, a <- s.ackers :: Acking(a) && m != a.own ==> !R.Mentions(others, m, a.own.id)
  }

  /** Whoever is acking holds on to its own entry, which is on the list and nobody else's. */
  predicate OwnOnly(s: Race) {
    && (forall a <- s.ackers :: a.pc.Removing? ==> a.pc.item == a.own)
    && (forall a <- s.ackers :: Acking(a) ==> a.own in s.list)
    && (forall j, k :: 0 <= j < k < |s.ackers| && Acking(s.ackers[j]) && Acking(s.ackers[k]) ==>
          s.ackers[j].own != s.ackers[k].own)
  }

  predicate Exact(s: Race) {
    Once(s.list) && s.ideal == set m | m in s.list
  }

  ghost predicate Inv(others: Message -> set<Id>, s: Race) {
    Exact(s) && Unquoted(others, s) && OwnOnly(s)
  }

  lemma ScanKeepsInv(others: Message -> set<Id>, s: Race, k: nat)
    requires Inv(others, s) && Enabled(others, s, Scan(k))
    ensures Inv(others, Next(others, s, Scan(k)))
    ensures Next(others, s, Scan(k)).ackers[k].pc == Removing(s.ackers[k].own)
  {
    var own := s.ackers[k].own;
    var i := R.FirstMention(others, s.list, own.id);
    assert s.ackers[k] in s.ackers && R.Mentions(others, own, own.id);
    assert i < |s.list|;
    assert s.list[i] in s.list;
    assert s.list[i] == own;
    OnlyMoves(others, s, k, Removing(own));
  }

  /** Acker `k` goes on, the list stays. */
  lemma OnlyMoves(others: Message -> set<Id>, s: Race, k: nat, pc: Pc)
    requires Inv(others, s) && k < |s.ackers| && Acking(s.ackers[k])
    requires pc == Removing(s.ackers[k].own)
    ensures Inv(others, s.(ackers := s.ackers[k := s.ackers[k].(pc := pc)]))
  {
    var s' := s.(ackers := s.ackers[k := s.ackers[k].(pc := pc)]);
    assert s.ackers[k] in s.ackers;
    forall a <- s'.ackers ensures a == s'.ackers[k] || a in s.ackers { }
  }

  lemma WithoutOnce(s: seq<Message>, i: nat)
    requires Once(s) && i < |s|
    ensures Once(R.Without(s, i)) && forall m :: m in R.Without(s, i) <==> m in s && m != s[i]
  {
    var t := R.Without(s, i);
    assert s == s[..i] + [s[i]] + s[i + 1..];
    assert forall j :: 0 <= j < |t| ==> t[j] == s[if j < i then j else j + 1];
  }

  lemma RemoveKeepsInv(others: Message -> set<Id>, s: Race, k: nat)
    requires Inv(others, s) && Enabled(others, s, Remove(k))
    ensures Inv(others, Next(others, s, Remove(k)))
  {
    var own := s.ackers[k].own;
    var s' := Next(others, s, Remove(k));
    assert s.ackers[k] in s.ackers;
    WithoutOnce(s.list, IndexOf(s.list, own));
    forall a <- s'.ackers | Acking(a) ensures a in s.ackers && a.own != own {
      var j :| 0 <= j < |s'.ackers| && s'.ackers[j] == a;
      assert j != k && s.ackers[j] == a;
    }
  }

  lemma StartKeepsInv(others: Message -> set<Id>, s: Race, m: Message)
    requires Inv(others, s) && Enabled(others, s, Start(m))
    ensures Inv(others, Next(others, s, Start(m)))
  {
  }

  lemma {:induction false} LeadsKeepsInv(others: Message -> set<Id>, s: Race, steps: seq<Step>, t: Race)
    requires Inv(others, s) && Leads(others, s, steps, t)
    ensures Inv(others, t)
    decreases |steps|
  {
    if steps != [] {
      match steps[0] {
        case Start(m) => StartKeepsInv(others, s, m);
        case Scan(k) => ScanKeepsInv(others, s, k);
        case Remove(k) => RemoveKeepsInv(others, s, k);
        case Take(m) => assert Exact(Next(others, s, steps[0]));
      }
      LeadsKeepsInv(others, Next(others, s, steps[0]), steps[1..], t);
    }
  }

  /** Any number of executions ack at once, in any interleaving, for entries that were there or
      arrive meanwhile, redelivered ones included: at every moment the list holds each entry
      once, and exactly those that arrived and whose own ack has not been done since; and
      whoever is acking still finds its own entry. */
  lemma AcksRemoveExactlyTheirOwn(others: Message -> set<Id>, list: seq<Message>, steps: seq<Step>, t: Race)
    requires Once(list) && Leads(others, Race(list, [], set m | m in list), steps, t)
    ensures Once(t.list) && (forall m :: m in t.list <==> m in t.ideal)
    ensures forall a <- t.ackers :: Acking(a) ==> a.own in t.list
  {
    LeadsKeepsInv(others, Race(list, [], set m | m in list), steps, t);
  }
}
