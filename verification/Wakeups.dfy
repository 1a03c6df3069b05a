/** The wake-up protocol between `enqueue` and `dequeue` of the memory broker
    (kojin-core/src/memory_broker.rs:45-92): check under the lock, then wait on a `Notify`,
    which all consumers share whatever queues they ask for, and which remembers one wake-up
    when nobody waits. */
module Wakeups {

  datatype Consumer =
    | Away       // not in `dequeue`
    | Checking   // about to look at its queues
    | Checked    // found them empty and released the lock
    | Parked     // waiting in `notified()`
    | Woken      // picked by `notify_one`, not yet resumed

  /** `pending` holds a queue's name once for each message in it; consumer `i` asks for the
      queues `wants[i]`. */
  datatype State = State(pending: multiset<string>, permit: bool, consumers: seq<Consumer>)

  type Wants = seq<seq<string>>

  datatype Step =
    | Push(q: string, chosen: nat) // enqueue or nack; wakes `chosen` if anybody is parked
    | Enter(i: nat)
    | Check(i: nat)           // pop a message and leave, or find nothing
    | Register(i: nat)        // poll `notified()`
    | Resume(i: nat)
    | GiveUp(i: nat, chosen: nat) // timeout, or cancelled at any await; a delivered wake-up is passed on

  predicate AnyParked(s: State) {
    exists i :: 0 <= i < |s.consumers| && s.consumers[i].Parked?
  }

  /** `notify_one`: a waiting consumer if there is one, otherwise a permit. */
  predicate MayNotify(s: State, chosen: nat) {
    if AnyParked(s) then chosen < |s.consumers| && s.consumers[chosen].Parked? else true
  }

  function Notify(s: State, chosen: nat): State
    requires MayNotify(s, chosen)
  {
    if AnyParked(s) then s.(consumers := s.consumers[chosen := Woken]) else s.(permit := true)
  }

  /** The first of `names` with a message in it. */
  function Ready(pending: multiset<string>, names: seq<string>): (i: nat)
    ensures i <= |names| && (i < |names| ==> names[i] in pending)
    ensures forall j :: 0 <= j < i ==> names[j] !in pending
  {
    if names == [] || names[0] in pending then 0 else 1 + Ready(pending, names[1..])
  }

  predicate Enabled(w: Wants, s: State, l: Step) {
    match l
    case Push(_, chosen) => MayNotify(s, chosen)
    case Enter(i) => i < |s.consumers| && s.consumers[i].Away?
    case Check(i) => i < |s.consumers| && i < |w| && s.consumers[i].Checking?
    case Register(i) => i < |s.consumers| && s.consumers[i].Checked?
    case Resume(i) => i < |s.consumers| && s.consumers[i].Woken?
    case GiveUp(i, chosen) =>
      i < |s.consumers| && !s.consumers[i].Away?
      && (s.consumers[i].Woken? ==> MayNotify(Put(s, i, Away), chosen))
  }

  function Put(s: State, i: nat, c: Consumer): State
    requires i < |s.consumers|
  {
    s.(consumers := s.consumers[i := c])
  }

  function Look(w: Wants, s: State, i: nat): State
    requires i < |s.consumers| && i < |w|
  {
    var r := Ready(s.pending, w[i]);
    if r < |w[i]| then Put(s, i, Away).(pending := s.pending - multiset{w[i][r]}) else Put(s, i, Checked)
  }

  function Next(w: Wants, s: State, l: Step): State
    requires Enabled(w, s, l)
  {
    match l
    case Push(q, chosen) => Notify(s, chosen).(pending := s.pending + multiset{q})
    case Enter(i) => Put(s, i, Checking)
    case Check(i) => Look(w, s, i)
    case Register(i) => if s.permit then Put(s, i, Checking).(permit := false) else Put(s, i, Parked)
    case Resume(i) => Put(s, i, Checking)
    case GiveUp(i, chosen) =>
      if s.consumers[i].Woken? then Notify(Put(s, i, Away), chosen) else Put(s, i, Away)
  }

  ghost predicate Leads(w: Wants, s: State, steps: seq<Step>, t: State)
    decreases |steps|
  {
    if steps == [] then s == t else Enabled(w, s, steps[0]) && Leads(w, Next(w, s, steps[0]), steps[1..], t)
  }

  lemma {:induction false} LeadsSnoc(w: Wants, s: State, steps: seq<Step>, t: State, l: Step)
    requires Leads(w, s, steps, t) && Enabled(w, t, l)
    ensures Leads(w, s, steps + [l], Next(w, t, l))
    decreases |steps|
  {
    if steps == [] {
      assert [] + [l] == [l];
    } else {
      LeadsSnoc(w, Next(w, s, steps[0]), steps[1..], t, l);
      assert (steps + [l])[1..] == steps[1..] + [l];
    }
  }

  ghost predicate Reaches(w: Wants, t: State) {
    exists steps :: Leads(w, Fresh(|w|), steps, t)
  }

  lemma ReachesNext(w: Wants, t: State, l: Step)
    requires Reaches(w, t) && Enabled(w, t, l)
    ensures Reaches(w, Next(w, t, l))
  {
    var steps :| Leads(w, Fresh(|w|), steps, t);
    LeadsSnoc(w, Fresh(|w|), steps, t, l);
  }

  function Fresh(n: nat): State {
    State(multiset{}, false, seq(n, _ => Away))
  }

  /** Somebody is on the way: a wake-up is remembered or delivered, or a look is due. */
  predicate HelpComing(s: State) {
    s.permit || exists i :: 0 <= i < |s.consumers| && (s.consumers[i].Checking? || s.consumers[i].Woken?)
  }

  /** Consumer `i` asks for a queue with a message in it. */
  predicate HasWork(w: Wants, s: State, i: nat) {
    i < |w| && exists q <- w[i] :: q in s.pending
  }

  predicate AllParked(s: State) {
    forall i :: 0 <= i < |s.consumers| ==> s.consumers[i].Parked?
  }

  predicate SameQueues(w: Wants) {
    forall i, j :: 0 <= i < |w| && 0 <= j < |w| ==> forall q <- w[i] :: q in w[j]
  }

  lemma LookFinds(w: Wants, s: State, i: nat)
    requires i < |s.consumers| && i < |w|
    ensures Look(w, s, i) == Put(s, i, Checked) <==> !HasWork(w, s, i)
    ensures HasWork(w, s, i) ==> Look(w, s, i).consumers == s.consumers[i := Away]
  {
    var r := Ready(s.pending, w[i]);
    assert Put(s, i, Checked).consumers[i] == Checked && Put(s, i, Away).consumers[i] == Away;
    if r < |w[i]| { assert w[i][r] in w[i]; }
    if HasWork(w, s, i) {
      var q :| q in w[i] && q in s.pending;
      var j :| 0 <= j < |w[i]| && w[i][j] == q;
      assert r < |w[i]|;
    }
  }

  // ---------------------------------------------------------------- all asleep

  predicate Awake(c: Consumer) {
    !c.Checked? && !c.Parked?
  }

  /** While a message waits for somebody, a wake-up is remembered or some consumer is neither
      about to sleep nor asleep; and a wake-up is remembered only while nobody waits for one. */
  ghost predicate Covered(w: Wants, s: State) {
    && |s.consumers| == |w| && (s.permit ==> !AnyParked(s))
    && ((exists i: nat :: HasWork(w, s, i)) ==> s.permit || exists i :: 0 <= i < |s.consumers| && Awake(s.consumers[i]))
  }

  lemma NotifyCovers(w: Wants, s: State, chosen: nat, pending: multiset<string>)
    requires MayNotify(s, chosen) && |s.consumers| == |w|
    ensures Covered(w, Notify(s, chosen).(pending := pending)) || (s.permit && AnyParked(s))
  {
    if AnyParked(s) { assert Awake(Notify(s, chosen).consumers[chosen]); }
  }

  lemma LookCovers(w: Wants, s: State, i: nat)
    requires SameQueues(w) && Covered(w, s) && Enabled(w, s, Check(i))
    ensures Covered(w, Next(w, s, Check(i)))
  {
    var t := Next(w, s, Check(i));
    LookFinds(w, s, i);
    if HasWork(w, s, i) {
      assert Awake(t.consumers[i]);
    } else {
      forall j: nat ensures !HasWork(w, t, j) {
        if j < |w| {
          forall q <- w[j] ensures q !in t.pending { assert q in w[i]; }
        }
      }
    }
  }

  lemma RegisterCovers(w: Wants, s: State, i: nat)
    requires Covered(w, s) && Enabled(w, s, Register(i))
    ensures Covered(w, Next(w, s, Register(i)))
  {
    var t := Next(w, s, Register(i));
    assert forall j: nat :: HasWork(w, t, j) <==> HasWork(w, s, j);
    if s.permit {
      assert Awake(t.consumers[i]);
    } else if exists j: nat :: HasWork(w, s, j) {
      var j :| 0 <= j < |s.consumers| && Awake(s.consumers[j]);
      assert Awake(t.consumers[j]);
    }
  }

  lemma StepCovers(w: Wants, s: State, l: Step)
    requires SameQueues(w) && Covered(w, s) && Enabled(w, s, l)
    ensures Covered(w, Next(w, s, l))
  {
    var t := Next(w, s, l);
    match l {
      case Push(q, chosen) => NotifyCovers(w, s, chosen, s.pending + multiset{q});
      case Enter(i) => assert Awake(t.consumers[i]);
      case Check(i) => LookCovers(w, s, i);
      case Register(i) => RegisterCovers(w, s, i);
      case Resume(i) => assert Awake(t.consumers[i]);
      case GiveUp(i, chosen) =>
        if s.consumers[i].Woken? {
          NotifyCovers(w, Put(s, i, Away), chosen, s.pending);
        } else {
          assert Awake(t.consumers[i]);
        }
    }
  }

  lemma {:induction false} RunCovers(w: Wants, s: State, steps: seq<Step>, t: State)
    requires SameQueues(w) && Covered(w, s) && Leads(w, s, steps, t)
    ensures Covered(w, t)
    decreases |steps|
  {
    if steps != [] {
      StepCovers(w, s, steps[0]);
      RunCovers(w, Next(w, s, steps[0]), steps[1..], t);
    }
  }

  /** The first `k` consumers have found nothing and gone to sleep. */
  function Asleep(n: nat, k: nat): State {
    State(multiset{}, false, seq(n, i => if i < k then Parked else Away))
  }

  lemma {:induction false} AllFallAsleep(w: Wants, k: nat)
    requires k <= |w|
    ensures Reaches(w, Asleep(|w|, k))
  {
    var n := |w|;
    if k == 0 {
      assert Asleep(n, 0) == Fresh(n);
      assert Leads(w, Fresh(n), [], Fresh(n));
    } else {
      var s := Asleep(n, k - 1);
      AllFallAsleep(w, k - 1);
      ReachesNext(w, s, Enter(k - 1));
      var s1 := Put(s, k - 1, Checking);
      LookFinds(w, s1, k - 1);
      ReachesNext(w, s1, Check(k - 1));
      var s2 := Put(s1, k - 1, Checked);
      ReachesNext(w, s2, Register(k - 1));
      assert Put(s2, k - 1, Parked).consumers == Asleep(n, k).consumers;
    }
  }

  /** Everybody sleeps; a push on `q` wakes `j`, who does not ask for `q` and sleeps again. */
  lemma WrongOneWoken(w: Wants, j: nat, q: string)
    requires j < |w| && q !in w[j]
    ensures Reaches(w, Asleep(|w|, |w|).(pending := multiset{q}))
  {
    var s := Asleep(|w|, |w|);
    AllFallAsleep(w, |w|);
    assert s.consumers[j].Parked? && AnyParked(s);
    ReachesNext(w, s, Push(q, j));
    var s1 := Put(s, j, Woken).(pending := multiset{q});
    assert Next(w, s, Push(q, j)) == s1;
    ReachesNext(w, s1, Resume(j));
    var s2 := Put(s, j, Checking).(pending := multiset{q});
    assert Next(w, s1, Resume(j)).consumers == s2.consumers;
    LookFinds(w, s2, j);
    ReachesNext(w, s2, Check(j));
    var s3 := Put(s, j, Checked).(pending := multiset{q});
    assert Next(w, s2, Check(j)).consumers == s3.consumers;
    ReachesNext(w, s3, Register(j));
    assert Next(w, s3, Register(j)).consumers == s.consumers;
  }

  ghost predicate NeverAllAsleepOnWork(w: Wants) {
    forall t :: Reaches(w, t) && AllParked(t) ==> forall i: nat :: !HasWork(w, t, i)
  }

  /** All consumers are asleep while a queue that one of them asks for holds a message on some
      run exactly when they do not all ask for the same queues. */
  lemma NeverAllAsleepIffSameQueues(w: Wants)
    ensures NeverAllAsleepOnWork(w) <==> SameQueues(w)
  {
    if SameQueues(w) {
      forall t, i: nat | Reaches(w, t) && AllParked(t) ensures !HasWork(w, t, i) {
        var steps :| Leads(w, Fresh(|w|), steps, t);
        RunCovers(w, Fresh(|w|), steps, t);
        if i < |w| { assert t.consumers[i].Parked?; }
      }
    } else {
      var i, j, q :| 0 <= i < |w| && 0 <= j < |w| && q in w[i] && q !in w[j];
      WrongOneWoken(w, j, q);
      var t := Asleep(|w|, |w|).(pending := multiset{q});
      assert HasWork(w, t, i) && AllParked(t);
    }
  }

  // ---------------------------------------------------------------- one asleep

  /** A message waits for a consumer that sleeps, and nothing will wake it before its timeout. */
  predicate Stranded(w: Wants, s: State) {
    !HelpComing(s) && exists i :: 0 <= i < |s.consumers| && s.consumers[i].Parked? && HasWork(w, s, i)
  }

  predicate SoloOk(w: Wants, s: State) {
    |s.consumers| == |w| == 1 &&
    (HasWork(w, s, 0) ==> match s.consumers[0]
                          case Checked => s.permit
                          case Parked => false
                          case _ => true)
  }

  lemma SoloStep(w: Wants, s: State, l: Step)
    requires SoloOk(w, s) && Enabled(w, s, l)
    ensures SoloOk(w, Next(w, s, l))
  {
    if l.Check? {
      LookFinds(w, s, 0);
    } else if l.Push? {
      SoloPush(w, s, l.q, l.chosen);
    }
  }

  lemma SoloPush(w: Wants, s: State, q: string, chosen: nat)
    requires SoloOk(w, s) && MayNotify(s, chosen)
    ensures SoloOk(w, Next(w, s, Push(q, chosen)))
  {
    assert AnyParked(s) <==> s.consumers[0].Parked?;
  }

  lemma {:induction false} SoloRun(w: Wants, s: State, steps: seq<Step>, t: State)
    requires SoloOk(w, s) && Leads(w, s, steps, t)
    ensures SoloOk(w, t)
    decreases |steps|
  {
    if steps != [] {
      SoloStep(w, s, steps[0]);
      SoloRun(w, Next(w, s, steps[0]), steps[1..], t);
    }
  }

  /** Only consumers `i` and `j` have done anything. */
  function Pair(n: nat, i: nat, a: Consumer, j: nat, b: Consumer): seq<Consumer> {
    seq(n, k => if k == i then a else if k == j then b else Away)
  }

  lemma PairPut(n: nat, i: nat, a: Consumer, j: nat, b: Consumer, c: Consumer)
    requires i < n && j < n && i != j
    ensures Pair(n, i, a, j, b)[i := c] == Pair(n, i, c, j, b) && Pair(n, i, a, j, b)[j := c] == Pair(n, i, a, j, c)
  {
  }

  /** Both look and find nothing; two messages come, for one remembered wake-up; `j` takes that
      and one message, and `i` sleeps on the other. */
  lemma OneWakeForTwo(w: Wants, i: nat, j: nat, q: string)
    requires i < |w| && j < |w| && i != j && q in w[i] && q in w[j]
    ensures Reaches(w, State(multiset{q}, false, Pair(|w|, i, Parked, j, Away)))
  {
    var n := |w|;
    BothLooked(w, i, j);
    var s := State(multiset{}, false, Pair(n, i, Checked, j, Checked));
    ReachesNext(w, s, Push(q, 0));
    var s1 := State(multiset{q}, true, s.consumers);
    assert !AnyParked(s) && Next(w, s, Push(q, 0)) == s1;
    ReachesNext(w, s1, Push(q, 0));
    var s2 := State(multiset{q, q}, true, s.consumers);
    assert !AnyParked(s1) && Next(w, s1, Push(q, 0)) == s2;
    PairPut(n, i, Checked, j, Checked, Checking);
    ReachesNext(w, s2, Register(j));
    var s3 := State(multiset{q, q}, false, Pair(n, i, Checked, j, Checking));
    PairPut(n, i, Checked, j, Checking, Parked);
    ReachesNext(w, s3, Register(i));
    var s4 := State(multiset{q, q}, false, Pair(n, i, Parked, j, Checking));
    TakesOne(w, s4, j, q);
    ReachesNext(w, s4, Check(j));
    PairPut(n, i, Parked, j, Checking, Away);
  }

  lemma TakesOne(w: Wants, s: State, j: nat, q: string)
    requires j < |s.consumers| && j < |w| && q in w[j] && s.pending == multiset{q, q}
    ensures Look(w, s, j) == Put(s, j, Away).(pending := multiset{q})
  {
    LookFinds(w, s, j);
    var r := Ready(s.pending, w[j]);
    assert r < |w[j]| by { assert HasWork(w, s, j); }
    assert w[j][r] == q;
  }

  lemma BothLooked(w: Wants, i: nat, j: nat)
    requires i < |w| && j < |w| && i != j
    ensures Reaches(w, State(multiset{}, false, Pair(|w|, i, Checked, j, Checked)))
  {
    var n := |w|;
    var none: multiset<string> := multiset{};
    var s := State(none, false, Pair(n, i, Away, j, Away));
    assert s == Fresh(n) && Leads(w, Fresh(n), [], Fresh(n));
    ReachesNext(w, s, Enter(i));
    PairPut(n, i, Away, j, Away, Checking);
    var s1 := State(none, false, Pair(n, i, Checking, j, Away));
    LookFinds(w, s1, i);
    ReachesNext(w, s1, Check(i));
    PairPut(n, i, Checking, j, Away, Checked);
    var s2 := State(none, false, Pair(n, i, Checked, j, Away));
    ReachesNext(w, s2, Enter(j));
    PairPut(n, i, Checked, j, Away, Checking);
    var s3 := State(none, false, Pair(n, i, Checked, j, Checking));
    LookFinds(w, s3, j);
    ReachesNext(w, s3, Check(j));
    PairPut(n, i, Checked, j, Checking, Checked);
  }

  ghost predicate NoneEverStranded(w: Wants) {
    forall t :: Reaches(w, t) ==> !Stranded(w, t)
  }

  /** No run strands a message exactly when at most one consumer uses the broker, or none asks for
      any queue: two of them, whatever else they ask for, suffice. */
  lemma LosesWakeupsIffShared(w: Wants)
    ensures NoneEverStranded(w) <==> |w| <= 1 || forall i :: 0 <= i < |w| ==> w[i] == []
  {
    if |w| >= 2 && exists i :: 0 <= i < |w| && w[i] != [] {
      var i :| 0 <= i < |w| && w[i] != [];
      var j := if i == 0 then 1 else 0;
      var q := w[i][0];
      var t;
      if q in w[j] {
        OneWakeForTwo(w, i, j, q);
        t := State(multiset{q}, false, Pair(|w|, i, Parked, j, Away));
      } else {
        WrongOneWoken(w, j, q);
        t := Asleep(|w|, |w|).(pending := multiset{q});
      }
      assert t.consumers[i].Parked? && HasWork(w, t, i) && Stranded(w, t);
    } else {
      forall t | Reaches(w, t) ensures !Stranded(w, t) {
        if |w| == 1 {
          var steps :| Leads(w, Fresh(1), steps, t);
          SoloRun(w, Fresh(1), steps, t);
        }
      }
    }
  }

  /** A single consumer never sleeps while one of its queues holds a message. */
  lemma SingleConsumerNeverSleepsOnWork(w: Wants, t: State)
    requires |w| == 1 && Reaches(w, t) && t.consumers == [Parked]
    ensures forall q <- w[0] :: q !in t.pending
  {
    var steps :| Leads(w, Fresh(1), steps, t);
    SoloRun(w, Fresh(1), steps, t);
  }
}
