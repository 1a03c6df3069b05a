/** Task messages and signatures (kojin-core/src/message.rs, signature.rs, state.rs).

    A header value is the value that was serialised into it, so reading a header back
    yields what was written.  A `Text` value under a reserved key is one that does not
    parse as what the reader expects there. */
module Messages {
  type Id = nat

  datatype Option<+T> = None | Some(value: T)

  datatype TaskState = Pending | Received | Started | Success | Failure | Retry | Revoked | DeadLettered

  /** A JSON value. */
  datatype Value = Null | Bool(b: bool) | Num(n: int) | Str(s: string) | List(items: seq<Value>)

  /** `kojin.chain_next`, `kojin.chain_input`, `kojin.group_results`, or a name of the user's own. */
  datatype Key = ChainNextKey | ChainInputKey | GroupResultsKey | User(name: string)

  datatype Header =
    | Text(text: string)
    | ChainNext(rest: seq<Signature>)
    | ChainInput(input: Value)
    | GroupResults(results: seq<Value>)

  datatype Signature = Signature(
    taskName: string, queue: string, payload: Value, maxRetries: nat, eta: Option<int>,
    headers: map<Key, Header>, priority: Option<nat>, dedupKey: Option<string>)

  datatype Message = Message(
    id: Id, taskName: string, queue: string, payload: Value, state: TaskState,
    retries: nat, maxRetries: nat, eta: Option<int>, headers: map<Key, Header>,
    correlationId: Option<Id>, groupId: Option<Id>, groupTotal: Option<nat>,
    chordCallback: Option<Message>, priority: Option<nat>, dedupKey: Option<string>)

  /** `Signature::into_message`; `id` is the fresh task id. */
  function IntoMessage(sig: Signature, id: Id): Message {
    Message(id, sig.taskName, sig.queue, sig.payload, Pending, 0, sig.maxRetries, sig.eta, sig.headers,
            None, None, None, None, sig.priority, sig.dedupKey)
  }

  /** The signature does not itself smuggle in a chain continuation. */
  predicate Plain(sig: Signature) {
    Unchained(sig.headers)
  }

  predicate Unchained(headers: map<Key, Header>) {
    ChainNextKey !in headers
  }

  /** The message that carries on a chain after a step succeeded with `v`, if there is one
      (worker.rs, "Handle chain continuation"). */
  function NextMessage(m: Message, v: Value, newId: Id): Option<Message> {
    if ChainNextKey !in m.headers then None
    else match m.headers[ChainNextKey]
      case ChainNext(rest) =>
        if rest == [] then None else
        var next := IntoMessage(rest[0], newId);
        var withInput := next.headers[ChainInputKey := ChainInput(v)];
        Some(next.(
             headers := if |rest| > 1 then withInput[ChainNextKey := ChainNext(rest[1..])] else withInput,
             correlationId := m.correlationId))
      case _ => None
  }

  const U32: nat := 0x1_0000_0000
}
