/** What a message has of the signature it was made of (kojin-core/src/signature.rs:88-98). */
module Instances {
  import opened Messages

  /** Task, queue, payload, retries, eta, priority and duplicate key are the signature's. */
  predicate Carries(m: Message, sig: Signature) {
    && m.taskName == sig.taskName && m.queue == sig.queue && m.payload == sig.payload
    && m.maxRetries == sig.maxRetries && m.eta == sig.eta
    && m.priority == sig.priority && m.dedupKey == sig.dedupKey
  }

  /** The headers are the signature's, and `added`. */
  predicate Dressed(m: Message, sig: Signature, added: map<Key, Header>) {
    && m.headers.Keys == sig.headers.Keys + added.Keys
    && forall k <- m.headers :: m.headers[k] == if k in added then added[k] else sig.headers[k]
  }

  predicate Instantiates(m: Message, sig: Signature, added: map<Key, Header>) {
    Carries(m, sig) && Dressed(m, sig, added)
  }

  /** A message that has not been executed yet. */
  predicate Untried(m: Message) {
    m.state == Pending && m.retries == 0
  }

  lemma MadeOf(sig: Signature, id: Id)
    ensures var m := IntoMessage(sig, id);
      && Instantiates(m, sig, map[]) && Untried(m) && m.id == id
      && m.correlationId.None? && m.groupId.None? && m.groupTotal.None? && m.chordCallback.None?
  {
  }

  /** What the `i`-th step of a chain has in its headers besides: the last result, and the steps
      that are left. */
  function ChainAdded(sigs: seq<Signature>, i: nat, outputs: seq<Value>): map<Key, Header>
    requires i < |sigs| && i <= |outputs|
  {
    (if i > 0 then map[ChainInputKey := ChainInput(outputs[i - 1])] else map[])
    + (if i + 1 < |sigs| then map[ChainNextKey := ChainNext(sigs[i + 1..])] else map[])
  }
}
