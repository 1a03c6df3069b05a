/** The SQS broker on a standard queue (kojin-sqs/src/broker.rs:90-271): delays capped at what
    SQS allows, and receipts.  Times count nanoseconds.  One SQS request is atomic; which
    visible message a receive yields, and its handle, are chosen by SQS. */
module SqsBrokers {
  import opened Messages

  const SECOND: int := 1_000_000_000
  const LONGEST: int := 900

  /** The seconds SQS is asked to hold a message back. */
  function Delay(eta: int, now: int): (d: int)
    ensures 0 <= d <= LONGEST
  {
    var left := (eta - now) / SECOND;
    if left < 0 then 0 else if left > LONGEST then LONGEST else left
  }

  datatype Slot = Slot(body: Message, visibleFrom: int)

  /** Beyond the cap the eta travels with the message. */
  function Carrying(m: Message, eta: int, now: int): Message {
    if (eta - now) / SECOND > LONGEST then m.(eta := Some(eta)) else m
  }

  /** A queue by handle, the handles this broker got for task ids, and the dead letters. */
  datatype Sqs = Sqs(slots: map<nat, Slot>, receipts: map<Id, nat>, dead: seq<Message>, next: nat) {
    predicate Receivable(h: nat, now: int) {
      h in slots && slots[h].visibleFrom <= now
    }

    function Receive(h: nat, now: int, hidden: nat): (Sqs, Message)
      requires Receivable(h, now)
    {
      var m := slots[h].body;
      (this.(slots := slots[h := Slot(m, now + hidden)], receipts := receipts[m.id := h]), m)
    }

    function Ack(id: Id): Sqs {
      if id in receipts then this.(slots := slots - {receipts[id]}, receipts := receipts - {id}) else this
    }

    /** Make the message visible again; what is stored stays as it was. */
    function Nack(m: Message, now: int): Sqs {
      if m.id !in receipts then this else
      var h := receipts[m.id];
      var s := this.(receipts := receipts - {m.id});
      if h in slots then s.(slots := slots[h := slots[h].(visibleFrom := now)]) else s
    }
  }

  class SqsBroker {
    const queueNames: set<string>
    const hasDlq: bool
    var slots: map<nat, Slot>
    var receipts: map<Id, nat>
    var dead: seq<Message>
    var next: nat

    function View(): Sqs
      reads this
    {
      Sqs(slots, receipts, dead, next)
    }

    ghost predicate Valid()
      reads this
    {
      forall h <- slots :: h < next
    }

    constructor (queueNames: set<string>, hasDlq: bool)
      ensures Valid() && View() == Sqs(map[], map[], [], 0)
      ensures this.queueNames == queueNames && this.hasDlq == hasDlq
    {
      this.queueNames, this.hasDlq := queueNames, hasDlq;
      slots, receipts, dead, next := map[], map[], [], 0;
    }

    /** False is `QueueNotFound`.  A message with an eta is held back towards it. */
    method Enqueue(m: Message, now: int) returns (ok: bool)
      requires Valid()
      modifies this
      ensures Valid() && ok == (m.queue in queueNames)
      ensures !ok ==> View() == old(View())
      ensures ok ==> old(next) !in old(slots) && View() == old(View()).(
        slots := old(slots)[old(next) := Slot(m, if m.eta.Some? then now + Delay(m.eta.value, now) * SECOND else now)],
        next := old(next) + 1)
    {
      if m.queue !in queueNames {
        return false;
      }
      var visible := now;
      if m.eta.Some? {
        var delay := (m.eta.value - now) / SECOND;
        if delay > LONGEST {
          delay := LONGEST;
        }
        if delay > 0 {
          visible := now + delay * SECOND;
        }
      }
      slots := slots[next := Slot(m, visible)];
      next := next + 1;
      return true;
    }

    /** If the delay ends a second or more before the eta, the message carries its eta. */
    method Schedule(m: Message, eta: int, now: int) returns (ok: bool)
      requires Valid()
      modifies this
      ensures Valid() && ok == (m.queue in queueNames)
      ensures !ok ==> View() == old(View())
      ensures ok ==> old(next) !in old(slots) && View() == old(View()).(
        slots := old(slots)[old(next) := Slot(Carrying(m, eta, now), now + Delay(eta, now) * SECOND)],
        next := old(next) + 1)
      ensures Carrying(m, eta, now).(eta := m.eta) == m
      ensures (now + Delay(eta, now) * SECOND + SECOND <= eta ==> Carrying(m, eta, now).eta == Some(eta))
    {
      if m.queue !in queueNames {
        return false;
      }
      var delay := (eta - now) / SECOND;
      if delay < 0 {
        delay := 0;
      }
      var msg := m;
      if delay > LONGEST {
        msg := msg.(eta := Some(eta));
      }
      slots := slots[next := Slot(msg, now + (if delay > LONGEST then LONGEST else delay) * SECOND)];
      next := next + 1;
      return true;
    }

    method Dequeue(h: nat, now: int, hidden: nat) returns (m: Message)
      requires Valid() && View().Receivable(h, now)
      modifies this
      ensures Valid() && (View(), m) == old(View()).Receive(h, now, hidden)
    {
      m := slots[h].body;
      slots := slots[h := Slot(m, now + hidden)];
      receipts := receipts[m.id := h];
    }

    method Ack(id: Id)
      requires Valid()
      modifies this
      ensures Valid() && View() == old(View()).Ack(id)
    {
      if id in receipts {
        var h := receipts[id];
        receipts := receipts - {id};
        slots := slots - {h};
      }
    }

    method Nack(m: Message, now: int)
      requires Valid()
      modifies this
      ensures Valid() && View() == old(View()).Nack(m, now)
    {
      if m.id in receipts {
        var h := receipts[m.id];
        receipts := receipts - {m.id};
        if h in slots {
          slots := slots[h := slots[h].(visibleFrom := now)];
        }
      }
    }

    /** Without a configured dead-letter queue the message is deleted and kept nowhere. */
    method DeadLetter(m: Message)
      requires Valid()
      modifies this
      ensures Valid() && View() == old(View()).Ack(m.id).(dead := if hasDlq then old(dead) + [m] else old(dead))
    {
      Ack(m.id);
      if hasDlq {
        dead := dead + [m];
      }
    }
  }

  // ---------------------------------------------------------------- delays towards an eta

  /** The send times of one message until its eta: at each the eta is still ahead, so the worker
      defers it; the next comes only after the delay asked for, however much later. */
  predicate Deferred(eta: int, times: seq<int>) {
    && (forall i :: 0 <= i < |times| ==> times[i] < eta)
    && (forall i :: 0 <= i < |times| - 1 ==> times[i + 1] >= times[i] + Delay(eta, times[i]) * SECOND)
  }

  function Delayed(eta: int, times: seq<int>): nat {
    if times == [] then 0 else (if Delay(eta, times[0]) > 0 then 1 else 0) + Delayed(eta, times[1..])
  }

  /** `d` over the longest delay, rounded up. */
  function Caps(d: nat): (n: nat)
    ensures n * (LONGEST * SECOND) >= d && (n > 0 ==> (n - 1) * (LONGEST * SECOND) < d)
  {
    (d + 899_999_999_999) / 900_000_000_000
  }

  lemma {:induction false} NoDelayLeft(eta: int, times: seq<int>)
    requires Deferred(eta, times) && times != [] && eta - times[0] < SECOND
    ensures Delayed(eta, times) == 0
  {
    if |times| > 1 {
      DeferredTail(eta, times);
      assert Delay(eta, times[0]) == 0;
      NoDelayLeft(eta, times[1..]);
    }
  }

  lemma DeferredTail(eta: int, times: seq<int>)
    requires Deferred(eta, times) && times != []
    ensures Deferred(eta, times[1..])
  {
    var rest := times[1..];
    forall i | 0 <= i < |rest| - 1 ensures rest[i + 1] >= rest[i] + Delay(eta, rest[i]) * SECOND {
      assert times[i + 2] >= times[i + 1] + Delay(eta, times[i + 1]) * SECOND;
    }
  }

  /** However late deliveries are, a message due `d` nanoseconds ahead is sent with a delay at
      most `d` over nine hundred seconds times, rounded up. */
  lemma {:induction false} DelayedSendsBounded(eta: int, times: seq<int>)
    requires Deferred(eta, times) && times != []
    ensures Delayed(eta, times) <= Caps(eta - times[0])
  {
    var left := eta - times[0];
    if |times| > 1 {
      DeferredTail(eta, times);
      var later := eta - times[1];
      assert times[1] >= times[0] + Delay(eta, times[0]) * SECOND;
      if left >= LONGEST * SECOND {
        assert Delay(eta, times[0]) == LONGEST;
        DelayedSendsBounded(eta, times[1..]);
        assert times[1] < eta && later <= left - 900_000_000_000;
      } else {
        assert later < SECOND;
        NoDelayLeft(eta, times[1..]);
      }
    } else {
      assert Delayed(eta, times[1..]) == 0;
    }
  }

  predicate Whole(t: int) {
    t % SECOND == 0
  }

  /** Sends in the last second before the eta. */
  function LastSecond(eta: int, times: seq<int>): nat {
    if times == [] then 0 else (if eta - times[0] < SECOND then 1 else 0) + LastSecond(eta, times[1..])
  }

  /** A send asks for a delay unless it falls in the last second. */
  lemma {:induction false} SendsSplit(eta: int, times: seq<int>)
    requires forall i :: 0 <= i < |times| ==> times[i] < eta
    ensures |times| == Delayed(eta, times) + LastSecond(eta, times)
  {
    if times != [] {
      SendsSplit(eta, times[1..]);
    }
  }

  lemma {:induction false} NoneInLastSecond(eta: int, times: seq<int>)
    requires forall i :: 0 <= i < |times| ==> eta - times[i] >= SECOND
    ensures LastSecond(eta, times) == 0
  {
    if times != [] {
      NoneInLastSecond(eta, times[1..]);
    }
  }

  /** Sends are bounded when none falls in the last second. */
  lemma EarlySendsBounded(eta: int, times: seq<int>)
    requires Deferred(eta, times) && times != [] && forall t <- times :: eta - t >= SECOND
    ensures |times| <= Caps(eta - times[0])
  {
    SendsSplit(eta, times);
    forall i | 0 <= i < |times| ensures eta - times[i] >= SECOND { assert times[i] in times; }
    NoneInLastSecond(eta, times);
    DelayedSendsBounded(eta, times);
  }

  /** In whole seconds that bounds all sends. */
  lemma WholeSecondSendsBounded(eta: int, times: seq<int>)
    requires Deferred(eta, times) && times != [] && Whole(eta) && forall t <- times :: Whole(t)
    ensures |times| <= Caps(eta - times[0])
  {
    EarlySendsBounded(eta, times);
  }

  /** The clock shows multiples of `g` nanoseconds. */
  ghost predicate OnGrid(g: nat, t: int) {
    exists k: int :: t == k * g
  }

  ghost predicate AllOnGrid(g: nat, eta: int, times: seq<int>) {
    OnGrid(g, eta) && forall t <- times :: OnGrid(g, t)
  }

  ghost predicate SendsBounded(g: nat) {
    forall eta, times :: AllOnGrid(g, eta, times) && Deferred(eta, times) && times != [] ==>
      |times| <= Caps(eta - times[0])
  }

  lemma GridGap(g: nat, eta: int, t: int)
    requires OnGrid(g, eta) && OnGrid(g, t) && t < eta
    ensures eta - t >= g
  {
    var a: int :| eta == a * g;
    var b: int :| t == b * g;
    assert eta - t == (a - b) * g;
    if a - b <= 0 { NoGap(a - b, g); } else { WideGap(a - b, g); }
  }

  lemma NoGap(k: int, g: nat)
    requires k <= 0
    ensures k * g <= 0
  {
  }

  lemma WideGap(k: int, g: nat)
    requires k >= 1
    ensures k * g >= g
  {
  }

  /** A finer clock lets any number of sends happen in the last second, all without delay. */
  lemma LastFractionSpins(g: nat, n: nat)
    requires 0 < g < SECOND
    ensures var times := seq(n, _ => 0);
      Deferred(g, times) && AllOnGrid(g, g, times) && |times| == n && LastSecond(g, times) == n && Caps(g) == 1
    decreases n
  {
    var times := seq(n, _ => 0);
    assert g == 1 * g && 0 == 0 * g;
    SendsSplit(g, times);
    if n > 0 { NoDelayLeft(g, times); }
  }

  /** So the sends before an eta are bounded, whatever the eta and the deliveries, exactly when
      the clock shows whole seconds or coarser. */
  lemma SendsBoundedIff(g: nat)
    requires g > 0
    ensures SendsBounded(g) <==> g >= SECOND
  {
    if g >= SECOND {
      forall eta, times | AllOnGrid(g, eta, times) && Deferred(eta, times) && times != []
        ensures |times| <= Caps(eta - times[0])
      {
        forall t <- times ensures eta - t >= SECOND { GridGap(g, eta, t); }
        EarlySendsBounded(eta, times);
      }
    } else {
      LastFractionSpins(g, 2);
      var times := seq(2, _ => 0);
      assert AllOnGrid(g, g, times) && Deferred(g, times) && |times| > Caps(g - times[0]);
    }
  }

  /** SQS may deliver it and the worker's eta guard lets it through. */
  predicate MayRun(x: Slot, t: int) {
    x.visibleFrom <= t && (x.body.eta.None? || x.body.eta.value <= t)
  }

  ghost predicate NeverEarly(x: Slot, eta: int, now: int) {
    forall t :: t >= now && MayRun(x, t) ==> t >= eta
  }

  /** A message given to `schedule` cannot run before its eta exactly when it carries an eta
      that late, or the eta is past, beyond the cap, or a whole number of seconds away.
      Otherwise the delay is rounded down and nothing else holds the message back. */
  lemma ScheduledNeverEarlyIff(m: Message, eta: int, now: int)
    ensures NeverEarly(Slot(Carrying(m, eta, now), now + Delay(eta, now) * SECOND), eta, now)
      <==> ((m.eta.Some? && m.eta.value >= eta) || eta <= now || (eta - now) / SECOND > LONGEST || Whole(eta - now))
  {
    var x := Slot(Carrying(m, eta, now), now + Delay(eta, now) * SECOND);
    if !((m.eta.Some? && m.eta.value >= eta) || eta <= now || (eta - now) / SECOND > LONGEST || Whole(eta - now)) {
      assert MayRun(x, eta - 1);
    }
  }

  // ---------------------------------------------------------------- retries

  /** `handle_failure` on this broker. */
  function Fail(s: Sqs, m: Message, now: int, hasDlq: bool): Sqs {
    if m.retries < m.maxRetries then s.Nack(m.(retries := m.retries + 1, state := Retry), now)
    else var s' := s.Ack(m.id); if hasDlq then s'.(dead := s'.dead + [m.(state := DeadLettered)]) else s'
  }

  /** When a message was received, and when its handler failed. */
  datatype Delivery = Delivery(received: int, failed: int)

  predicate InTime(times: seq<Delivery>) {
    && (forall i :: 0 <= i < |times| ==> times[i].received <= times[i].failed)
    && (forall i, j :: 0 <= i < j < |times| ==> times[i].failed <= times[j].received)
  }

  /** Deliveries of the message with handle `h`, each failing. */
  function Failures(s: Sqs, h: nat, times: seq<Delivery>, hidden: nat, hasDlq: bool): Sqs {
    if times == [] then s else
    var d := times[|times| - 1];
    var s' := Failures(s, h, times[..|times| - 1], hidden, hasDlq);
    if !s'.Receivable(h, d.received) then s' else
    var (r, m) := s'.Receive(h, d.received, hidden);
    Fail(r, m, d.failed, hasDlq)
  }

  /** A nack redelivers the stored text, so retries never count up: a message that always fails
      leaves the queue exactly when it was stored with no retries left, and then at its first
      failure; otherwise it fails for ever, and is there again after each failure. */
  lemma {:induction false} RetriesNeverCount(s: Sqs, h: nat, times: seq<Delivery>, hidden: nat, hasDlq: bool)
    requires h in s.slots && InTime(times) && (times != [] ==> s.Receivable(h, times[0].received))
    ensures var m := s.slots[h].body; var t := Failures(s, h, times, hidden, hasDlq);
      && (h in t.slots <==> times == [] || m.retries < m.maxRetries)
      && (h in t.slots ==> t.slots[h].body == m && t.dead == s.dead)
      && (h in t.slots && times != [] ==> t.Receivable(h, times[|times| - 1].failed))
      && (h !in t.slots ==> t.dead == s.dead + if hasDlq then [m.(state := DeadLettered)] else [])
    decreases |times|
  {
    if times != [] {
      RetriesNeverCount(s, h, times[..|times| - 1], hidden, hasDlq);
    }
  }
}
