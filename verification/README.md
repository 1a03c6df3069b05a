# Kojin's task lifecycle, verified

Kojin is a task queue: workers take messages from a broker, run handlers, retry or
dead-letter failures, and turn successes into the next step of a chain, a counted group
member, or a chord's callback. This project models that lifecycle as a state machine with
every await an interleaving point, proves its guarantees for all runs, and proves the
in-place code (memory broker, result backends, worker, submission, Redis, Postgres and SQS
parts, middleware, cron, hashing, backoff) against specifications of its own.

`dafny verify dfyconfig.toml` checks everything. The Dafny version is 4.11.

## How it is put together

* `Messages`, `Workflows`, `Instances`, `Results`, `Brokers`, `Execution` hold the values and the
  pure meaning of each operation. `Execution.Resume` is `execute_task` and `handle_failure` as a
  coroutine: one program counter for each operation awaited, and what happens when it
  completes. What the clock, the hooks and the handler answer is an arbitrary `Oracle`.
* `Cluster` is the running system: any number of workers with their permits and dequeue
  loops, any number of spawned executions, and submissions that still have group members to
  send, over one memory broker and at most one memory result backend. Its events interleave
  freely, including a dequeue cancelled between its pop and its insert into `processing`.
* `Protocol` is the same system seen from the messages: where each one is, and which workflow
  and position it serves. `Refinement` and `Guarantees.RunsRefine` prove that each run of
  the cluster is a run of the protocol. `Invariants` and `Preservation` hold the inductive
  invariant.
* `Chords`, `Chains`, `Budget`, `Permits`, `Guarantees`, `Outcomes`, `Returns`, `Storage`,
  `Attempts`, `Fidelity`, `Drain`, `Settlement`, `Quiescence` are the theorems.
* `MemoryBroker`, `MemoryBackend`, `Worker`, `Submission` are the imperative code, each
  method proved to compute what the functions used by the state machines say, so that
  the theorems are about the code (`Workers.DriveIsRun`, `Submission.ApplyIsRun`).
* `BrokerCalls`, `Wakeups`, `Postgres`, `Finishers`, `RedisBroker`, `RedisAcks`, `Scheduling`, `SqsBroker`, `Dedup`,
  `Cron`, `Hooks`, `Backoff`, `Fnv` each treat one component on its own;
  `Sequences`, `Sums` and `Powers` hold what they share.

## What turned out not to hold

The code is modelled as it is. Where a property one would expect fails, a lemma gives the
exact condition under which it holds, or a run on which it does not.

* A message popped by a dequeue that is then cancelled is lost: `Guarantees.PopThenCancelLoses`
  is such a run, and `Guarantees.OnlyCancelLoses` shows that nothing else loses one.
* Consumers that share a memory broker share its one notification: with two or more, one of them
  can sleep on a message until its timeout with nobody on the way
  (`Wakeups.LosesWakeupsIffShared`). All of them can be asleep on work if and only if they do not
  all list the same queues (`Wakeups.NeverAllAsleepIffSameQueues`).
* On Postgres the upsert and the count are two statements, so several finishers can be told the
  total, and each of them fires the chord callback: with each member completing once, all members
  of a group of any size can be (`Finishers.EveryoneCanBeTold`), and never more than one is if and
  only if the group has at most one member (`Finishers.NeverToldTwiceIff`). A redelivered member
  is told again (`Finishers.RedeliveredToldAgain`).
* A Redis nack passes the duplicate filter again and drops a message whose key is alive
  (`RedisBrokers.NackKeepsIff`, `RedisBrokers.RetriedKeyIsLost`).
* A Redis ack finds its entry by text and takes another message's entry exactly when that one
  stands further left and quotes the id (`RedisBrokers.AcksFindTheirOwnIff`,
  `RedisBrokers.QuotedAckTakesAnother`).
* One poll of the Redis scheduled set reads a hundred due entries and removes all of them
  (`Scheduling.PollLosesNothingIff`).
* SQS redelivers the stored body, so `retries` never counts up and a message that always fails
  is never dead-lettered by the worker unless it has no retries at all
  (`SqsBrokers.RetriesNeverCount`).
* A message given to the SQS `schedule` up to 900 seconds ahead carries no eta of its own, and
  its delay is rounded down to whole seconds, so that it may run early by a fraction of a second
  (`SqsBrokers.ScheduledNeverEarlyIff`); and in the last second before an eta the worker
  reschedules without any delay, so that its sends are bounded only on a clock of whole seconds
  (`SqsBrokers.SendsBoundedIff`).
* A cluster can stick: messages on queues that no worker still looks at stay there. Otherwise it
  goes on (`Settlement.NeverStuck`, and exactly when in `Settlement.MovesIff`), and with one worker
  that serves every queue in use it can come to rest (`Quiescence.ComesToRest`).

Where documentation and code differ, the code is followed: the comment on the deduplication
middleware says that the caller should ack and discard a duplicate, while the worker sends the
`Duplicate` error to `handle_failure`, which retries (kojin-core/src/worker.rs:252-255); the
comment on the SQS broker says that `dead_letter` without a configured queue nacks, while the
code acks, which deletes the message (kojin-sqs/src/broker.rs:214-234); the comment in the
Postgres `init_group` speaks of a single insert, while the code loops.

## Conventions

A header value is a datatype holding what was serialised into it. Ids are natural numbers drawn
in increasing order; a workflow's correlation id and its group id are written as the same fresh
number, since no code compares one with the other. Sequence positions stand for list positions
in Redis as they are (index 0 is the left end). `Sendable` states what the lifecycle theorems
ask of a submitted canvas: fewer than 2^32 group members, and no signature that carries its own
`kojin.chain_next` header. Between a dequeue's pop and its insert the cluster lets everything
else run, which is more than the queue lock permits, so the theorems cover that too.

## Model

| member | source | states |
|---|---|---|
| Outcomes.ChordFiresOnce | kojin-core/src/worker.rs:283-324 | on every run of any number of workers, after a chord of n >= 1 members was submitted at any point, its callback has been enqueued exactly once if n members have been counted and none is still busy firing it, and not at all otherwise |
| Outcomes.CallbackCarriesResults | kojin-core/src/worker.rs:299-311 | wherever a chord's callback is found on a cluster - queued, taken, running or dead-lettered - task, queue, payload, retries allowed, eta, priority, duplicate key and headers are those of the callback's first task, with the list of the n stored results added as `kojin.group_results`, and it is in no workflow |
| Returns.ResultsAreReturned | kojin-core/src/worker.rs:260-324 | that list is a permutation of what the successful handler calls of n distinct messages returned, one for each member, of its own task and payload, each the only one of its message |
| Returns.SucceedsOnce | kojin-core/src/worker.rs:260-272 | on every run a handler succeeds at most once for a message, and the message's result is what it returned |
| Storage.ResultsStored | kojin-core/src/worker.rs:277-280 | on every run, a task has a result in the backend if and only if there is a backend, its handler returned, and no execution of it has yet to store what it returned; the result is what that one call returned |
| Storage.ResultsStay | kojin-core/src/worker.rs:277-280 | a stored result is neither overwritten nor removed on any later run |
| Storage.OnlyStoresTouch | kojin-core/src/worker.rs:277-280 | no event but the store step of an execution changes any result |
| Chords.ChordFiresOnce | kojin-core/src/worker.rs:283-324 | seen from the messages: the callback is enqueued once exactly when all members have succeeded and been counted; it then carries their results, permuted, and is otherwise the message submitted |
| Chords.ResultsPermute | kojin-core/src/memory_result_backend.rs:83-104 | once a group is complete its stored results are its members' results, as a multiset |
| Chords.FiredIffAllDone | kojin-core/src/worker.rs:298-323 | in every reachable state the callback is out if and only if every member is done with its group part |
| Chords.FireCountIs | kojin-core/src/worker.rs:311 | how often a run enqueues a callback is whether its message exists at the end less whether it existed before: never twice |
| Chords.DeadMemberSilences | kojin-core/src/worker.rs:434-441 | once a member is dead-lettered or lost, the callback has never been enqueued and never will be |
| Chords.EmptyChordNeverFires | kojin-core/src/canvas.rs:108-131 | a chord without members, or without a result backend, never fires |
| Chords.GoneStays | kojin-core/src/worker.rs:434-441 | a dead-lettered or lost message stays so, unchanged, on every run |
| Outcomes.ChainRunsInOrder | kojin-core/src/worker.rs:338-361 | on every run of any number of workers, the successful handler calls of a submitted chain are those of a prefix of its leaves, in order, each once, each fed the result before it in `kojin.chain_input` |
| Chains.ChainRefinesProgram | kojin-core/src/worker.rs:338-384 | every step of the system is a step of the sequential program of a chain's leaves, or leaves that program where it is; and the program stops for good exactly when the chain's last message is dead-lettered or lost, or when there is no result backend to hand it on |
| Chains.StoppedIffCutShort | kojin-core/src/worker.rs:277-384 | in every reachable state the program has stopped if and only if the chain was cut short in that way |
| Chains.StepSeesPrevious | kojin-core/src/worker.rs:341-361 | a leaf's handler is called only when all leaves before it have finished, with the last result in its header and under the chain's correlation id |
| Chains.OneTokenLive | kojin-core/src/worker.rs:361 | at most one message of a chain is live in any reachable state |
| Chains.SuccessesInOrder | kojin-core/src/worker.rs:260-272 | on every run a chain's handlers succeed in the order of its leaves, none skipped, none twice |
| Chains.StoppedForGood | kojin-core/src/worker.rs:434-441 | a chain whose step was dead-lettered or lost never moves again |
| Workflows.FlattenConcat | kojin-core/src/canvas.rs:137-151 | flattening a chain distributes over concatenation of its steps |
| Workflows.ChainsRegroup | kojin-core/src/canvas.rs:137-151 | an inner chain may be spliced into its parent without changing what is submitted |
| Workflows.PlanReads | kojin-core/src/canvas.rs:56-165 | what every canvas submits: a chain, its tasks read from left to right with inner chains opened where they stand and groups and chords passed over; a group or chord, its single members in order, each once; a chord's callback, the first task it reads as; a callback without tasks, a group that is opened and nothing sent; no tasks, nothing |
| Workflows.SinglesAreSpelled | kojin-core/src/canvas.rs:71-91 | a chain of single tasks, however many, is submitted as all of them |
| Workflows.WorkflowsAreSkipped | kojin-core/src/canvas.rs:143-148 | a group or chord inside a chain contributes nothing |
| Outcomes.CallsBounded | kojin-core/src/worker.rs:412-441 | on every run handlers are called at most once for each `max_retries + 1` submitted |
| Budget.RunsAreBounded | kojin-core/src/worker.rs:412-441 | the same at the level of messages, and a bound on all steps in terms of what was submitted and how often a message was sent back for its eta |
| Budget.ResumeCosts | kojin-core/src/worker.rs:234-441 | every operation of an execution strictly lowers a natural-number measure, except sending a message back for its eta; an attempt is always paid for |
| Budget.NextPays | kojin-core/src/worker.rs:412-441 | every step of the system pays for itself out of what submissions granted |
| Budget.RunsPay | kojin-core/src/worker.rs:412-441 | hence whole runs do |
| Settlement.WorkBounded | kojin-core/src/worker.rs:143-200 | on every run of a cluster, the events that move a message on are bounded by what was submitted and by how often a message was sent back for its eta |
| Quiescence.PunctualWorkBounded | kojin-core/src/worker.rs:234-245 | on every run on which no eta lies ahead of the clock when it is submitted, no message is ever sent back for its eta, so that the events that move a message on are bounded by what was submitted alone |
| Settlement.NeverStuck | kojin-core/src/worker.rs:143-200 | from every reachable cluster with anything queued, taken, running or still to be sent, whose non-empty queues are each listed by an uncancelled worker of some concurrency, an event that moves a message on is possible at once, or after a worker went round its loop and got a permit |
| Quiescence.ComesToRest | kojin-core/src/worker.rs:143-200 | from every reachable cluster with one uncancelled worker of some concurrency that lists the queues of everything submitted so far, and whatever hooks and handlers answer from then on, some run without submissions ends with nothing queued, taken, running or still to be sent |
| Settlement.MovesIff | kojin-core/src/worker.rs:143-200 | exactly when a reachable cluster is stuck: without new submissions some run moves a message on if and only if something is running, being sent or taken, or a worker that holds a permit, waits for one, or is at its loop's head and was not cancelled lists a non-empty queue |
| Settlement.ChainSettles | kojin-core/src/worker.rs:338-441 | with a result backend, when all is quiet, a submitted chain has run all its leaves if and only if no message of it was dead-lettered or lost |
| Settlement.ChordSettles | kojin-core/src/worker.rs:283-441 | with a result backend, when all is quiet, the callback of a submitted chord of n >= 1 members has been enqueued once if no member was dead-lettered or lost, and not at all otherwise |
| Settlement.CutChordNeverFires | kojin-core/src/worker.rs:283-441 | on the cluster: once a member is dead-lettered or lost, the callback has not been enqueued and never will be |
| Outcomes.RetriesExact | kojin-core/src/worker.rs:412-441 | on every run a queued message is Pending if it never failed and Retry otherwise and has failed exactly `retries <= max_retries` times; a dead letter is DeadLettered and has failed exactly `max_retries + 1` times; both sit under their own queue's name |
| Outcomes.NeverBeforeEta | kojin-core/src/worker.rs:234-245 | no handler is called before its message's eta |
| Fidelity.ChainMessages | kojin-core/src/signature.rs:88-98 | on every run, each message of a submitted chain, wherever it is, was made of one of its leaves: task, queue, payload, retries allowed, eta, priority, duplicate key and headers are that leaf's, with the last result and the leaves left as the only headers added; queued it has failed as often as it was retried, dead-lettered once more than its leaf allows; its handler is not called before the leaf's eta, nor before all earlier leaves succeeded |
| Fidelity.MemberMessages | kojin-core/src/signature.rs:88-98 | the same for each message of a group or chord and the signature of its member, with no header added; two messages are never of one member |
| Fidelity.CallbackMessage | kojin-core/src/signature.rs:88-98 | the same for a chord's callback, with the results added |
| Fidelity.EnqueuedMessage | kojin-core/src/signature.rs:88-98 | the same for a task enqueued outside any canvas |
| Attempts.HandlersAreGated | kojin-core/src/worker.rs:250-257 | at each point of every run, an execution has called its handler or is about to exactly as often as its `before` hooks have all passed, which is once at most |
| Attempts.FailuresAre | kojin-core/src/worker.rs:250-272 | on every run a message's failures are its refusals by `before` hooks and its handler's errors, and nothing else |
| Attempts.SleptSoFar | kojin-core/src/worker.rs:412-428 | on every run, a message retried r times, wherever it is, has slept 2^r - 1 seconds in all if r is at most nine, and 511 + 300 (r - 9) otherwise |
| Outcomes.CountsAgree | kojin-core/src/worker.rs:222-442 | failures, enqueued messages, handler calls and allowances counted along a cluster's run agree with those of the lifecycle run behind it |
| Guarantees.RunsRefine | kojin-core/src/worker.rs:113-219 | every run of the cluster of workers, broker and backend is a run of the message lifecycle |
| Refinement.Simulated | kojin-core/src/worker.rs:143-200 | every single event of the cluster is a lifecycle step or changes nothing the lifecycle knows of |
| Refinement.StepSimulated | kojin-core/src/worker.rs:222-442 | in particular every operation of an execution is the same operation in both |
| Guarantees.OnePlace | kojin-core/src/memory_broker.rs:45-111 | on every run no message is ever in two places: queue positions, dead-letter positions, dequeues under way and executions |
| Guarantees.ProcessingIsRunning | kojin-core/src/memory_broker.rs:65-110 | `processing` holds exactly the messages whose execution has not let go of them |
| Guarantees.OnlyCancelLoses | kojin-core/src/worker.rs:160-180 | an event leaves a message in no place if and only if it ends a successful execution of it or cancels a dequeue between its pop and its insert |
| Guarantees.GoneForGood | kojin-core/src/worker.rs:160-180 | over whole runs: a message that was somewhere and then is nowhere is in no place on any run from there |
| Guarantees.PopThenCancelLoses | kojin-core/src/worker.rs:160-180 | a run on which that happens: a worker pops the only message, is cancelled, and the message is nowhere |
| Permits.ConcurrencyBounded | kojin-core/src/worker.rs:143-216 | free permits, the loop's permit and running executions always add up to the concurrency; so at most that many run, and after a drain that ended with all permits back none of the worker's executions runs |
| Drain.TakingsBalance | kojin-core/src/worker.rs:143-219 | on every run, worker by worker and message by message: what was in hand and then was taken is what ended - in success, back on the queue, in the dead-letter queue or dropped by a cancelled dequeue - and what is still in hand |
| Drain.DrainSettlesAll | kojin-core/src/worker.rs:202-219 | so once a drain has ended with all permits back, the worker has settled every message exactly as often as it took it |
| Drain.EndingIs | kojin-core/src/worker.rs:222-442 | what each of these endings does: the message succeeded, is last on its queue, is last on its dead-letter queue, or was dropped |
| Permits.NextKeepsPermits | kojin-core/src/worker.rs:148-200 | every event conserves every worker's permits |
| Preservation.NextKeepsInv | kojin-core/src/worker.rs:222-442 | every step keeps the invariant that ties messages, chains, groups and the result backend together |
| Preservation.LeadsKeepsInv | kojin-core/src/worker.rs:222-442 | so every reachable state satisfies it |
| Preservation.NextStepMessage | kojin-core/src/worker.rs:338-361 | the continuation built from a step's headers is the next leaf of the chain that was submitted, or nothing after the last |
| Preservation.SendKeepsInv | kojin-core/src/canvas.rs:99-130 | sending one more group member keeps the invariant, whatever ran since the members before it were sent |
| MemoryBrokers.MemoryBroker.Enqueue | kojin-core/src/memory_broker.rs:45-53 | the message is appended to its own queue and to that queue's history |
| MemoryBrokers.MemoryBroker.Dequeue | kojin-core/src/memory_broker.rs:55-92 | the front of the first non-empty queue requested is taken and recorded in `processing`; nothing changes if all are empty; what was popped and then what is queued is always what was pushed, in order |
| MemoryBrokers.MemoryBroker.Ack | kojin-core/src/memory_broker.rs:94-97 | the message leaves `processing`, nothing else changes |
| MemoryBrokers.MemoryBroker.Nack | kojin-core/src/memory_broker.rs:99-103 | the message leaves `processing` and is appended to its queue and to that queue's history |
| MemoryBrokers.MemoryBroker.DeadLetter | kojin-core/src/memory_broker.rs:105-111 | the message leaves `processing` and is appended to its dead-letter queue; no queue changes |
| MemoryBrokers.MemoryBroker.Schedule | kojin-core/src/memory_broker.rs:113-120 | scheduling enqueues at once, and is recorded in the queue's history |
| Brokers.Broker.ReadyIsFirst | kojin-core/src/memory_broker.rs:66-70 | the queue a dequeue takes from is non-empty and all queues listed before it are empty; none is ready exactly when all are empty |
| BrokerCalls.Fifo | kojin-core/src/memory_broker.rs:45-120 | over any sequence of calls, retries included: what was queued and then pushed on a queue is what was taken from it and then is queued, in order |
| MemoryBackends.MemoryResultBackend.Store | kojin-core/src/memory_result_backend.rs:41-47 | a result is stored under its id |
| MemoryBackends.MemoryResultBackend.InitGroup | kojin-core/src/memory_result_backend.rs:71-81 | a group is opened afresh |
| MemoryBackends.MemoryResultBackend.CompleteGroupMember | kojin-core/src/memory_result_backend.rs:83-96 | the count goes up by one modulo 2^32 and the result is appended; an unknown group is an error and changes nothing |
| MemoryBackends.MemoryResultBackend.GetGroupResults | kojin-core/src/memory_result_backend.rs:98-104 | the results so far, or an error for an unknown group |
| Workers.ExecuteTask | kojin-core/src/worker.rs:222-394 | one execution leaves exactly the broker and backend that running the coroutine to its end leaves, with or without a backend. Ahead of its eta the message goes back as it is; if a hook refuses, whatever the handler would say, or the handler fails, it is retried or dead-lettered with the backend untouched, after 2^retries seconds, at most 300, if it is retried; otherwise it leaves `processing` and, given a backend, its result is stored under its id |
| Workers.HandleFailure | kojin-core/src/worker.rs:396-442 | with retries left: one more retry, state Retry, back on its queue, after 2^retries seconds counted before the increment and at most 300; otherwise a dead letter and no delay |
| Workers.CompleteGroup | kojin-core/src/worker.rs:283-336 | the same for the group part: the member that completes the count takes the callback, adds the results and enqueues it |
| Workers.ContinueChain | kojin-core/src/worker.rs:338-384 | the next step is enqueued if the header parses and is not empty, with input, correlation id and rest |
| Workers.RunHooks | kojin-core/src/worker.rs:250-257 | the `before` hooks pass if and only if all do |
| Workers.DriveIsRun | kojin-core/src/worker.rs:222-442 | that coroutine run alone is a run of the cluster, so the theorems on runs apply to it |
| Submission.Apply | kojin-core/src/canvas.rs:56-134 | submitting a canvas pushes the messages of its plan in order, returns their ids, and opens the plan's group if it has one, error paths of empty chains and callbacks included |
| Submission.ChainEnqueues | kojin-core/src/canvas.rs:63-91 | for a canvas that reads as a chain: one message, made of the first task, with all the others in its header and the fresh correlation id; no group |
| Submission.GroupEnqueues | kojin-core/src/canvas.rs:92-106 | for a group: one message for each single member, in order, made of it, with the correlation id, the group's id and size; a group of that size is opened and nothing else in the backend changes |
| Submission.ChordEnqueues | kojin-core/src/canvas.rs:107-130 | for a chord: the same, and every member carries the one callback made of the callback's first task, under an id no member has |
| Submission.NothingEnqueued | kojin-core/src/canvas.rs:72-78 | a chain without tasks does nothing; a chord whose callback has no task opens its group and sends nothing |
| Submission.IdAt | kojin-core/src/canvas.rs:60-130 | the handle's i-th task id is that of the i-th message enqueued |
| Submission.FlattenChainOf | kojin-core/src/canvas.rs:137-151 | the loop returns the leaves of nested chains in order, other canvases skipped |
| Submission.FlattenGroupOf | kojin-core/src/canvas.rs:154-165 | the loop returns the single members in order, others skipped |
| Submission.SendMembers | kojin-core/src/canvas.rs:99-130 | all members are enqueued in order with consecutive fresh ids, which the handle lists |
| Submission.ApplyIsRun | kojin-core/src/canvas.rs:56-134 | a submission sent without interruption is a run of the cluster |
| Wakeups.LosesWakeupsIffShared | kojin-core/src/memory_broker.rs:45-92 | for any number of consumers, each with its own list of queues, over all interleavings of pushes, looks, waits, time-outs and cancellations: a message is never left for a consumer that sleeps with nobody on the way if and only if there is at most one consumer or nobody lists any queue |
| Wakeups.NeverAllAsleepIffSameQueues | kojin-core/src/memory_broker.rs:45-92 | they are never all asleep while a queue that one of them lists holds a message if and only if they all list the same queues |
| Wakeups.SingleConsumerNeverSleepsOnWork | kojin-core/src/memory_broker.rs:45-92 | a single consumer never waits while one of its queues holds a message |
| Postgres.PostgresGroups.InitGroup | kojin-postgres/src/result_backend.rs:162-181 | the loop adds the placeholders that are missing, touches no other row and never changes what is counted |
| Postgres.PostgresGroups.UpsertMember | kojin-postgres/src/result_backend.rs:189-203 | the member's row holds its result and is completed |
| Postgres.PostgresGroups.CompleteGroupMember | kojin-postgres/src/result_backend.rs:183-217 | the whole call when nothing runs between its statements: the member is counted, once however often it completes, and the count returned is that of the distinct members, cut to 32 bits |
| Postgres.UpsertCounts | kojin-postgres/src/result_backend.rs:189-203 | an upsert adds its member to the counted ones of its group, once however often repeated, and to no other group's |
| Postgres.CountsDistinctMembers | kojin-postgres/src/result_backend.rs:183-217 | in every interleaving of upserts and counts, redeliveries included, a finisher is told the total only if all distinct members have completed; and if they have and no call is under way, some finisher was told |
| Finishers.NeverToldTwiceIff | kojin-postgres/src/result_backend.rs:183-217 | over all runs on which each member completes once: never more than one finisher is told the total if and only if the group has at most one member |
| Finishers.EveryoneCanBeTold | kojin-postgres/src/result_backend.rs:183-217 | for a group of any size, a run on which each member completes once and every one of them is told the total |
| Finishers.RedeliveredToldAgain | kojin-postgres/src/result_backend.rs:183-217 | with redelivery, every group of one member or more can have the total told any number of times from its size up |
| Finishers.UninterruptedToldOnce | kojin-postgres/src/result_backend.rs:183-217 | when each call's count directly follows its upsert and each member completes once, the total has been told exactly once if all members' calls have returned and not at all otherwise |
| Finishers.FinishersTold | kojin-postgres/src/result_backend.rs:183-217 | in every single run, the finishers told the total are as many as the counts taken after the last member's upsert |
| Postgres.ResultsAreSorted | kojin-postgres/src/result_backend.rs:219-232 | the results are those of exactly the counted members in increasing order of id |
| Postgres.ResultsIgnoreOrder | kojin-postgres/src/result_backend.rs:219-232 | and do not depend on the order of completion |
| RedisBrokers.BrokersAgree | kojin-redis/src/broker.rs:78-181 | any sequence of calls, dequeues whole or as single looks at one queue interleaved with other calls, gets the same answers from the Redis and the memory broker and leaves the same messages in the same places and order, given no duplicate keys on what is pushed, no text in flight naming another id being acked, and no id dequeued that is in flight already |
| RedisBrokers.RedisFifo | kojin-redis/src/broker.rs:78-168 | over any sequence of calls without exception: what was queued and then let through by the duplicate filter is what was taken and then is queued, in order |
| RedisBrokers.StepAgrees | kojin-redis/src/broker.rs:78-181 | the same for each single call |
| RedisBrokers.RedisBroker.Enqueue | kojin-redis/src/broker.rs:78-108 | the message is pushed at the left unless its duplicate key is alive; then nothing changes |
| RedisBrokers.RedisBroker.Dequeue | kojin-redis/src/broker.rs:110-140 | the rightmost entry of the first non-empty queue moves to the left of the processing list; nothing if all are empty |
| RedisBrokers.RedisBroker.Ack | kojin-redis/src/broker.rs:142-163 | the first entry that mentions the id is removed, if there is one |
| RedisBrokers.RedisBroker.Nack | kojin-redis/src/broker.rs:165-168 | ack, then enqueue through the duplicate filter |
| RedisBrokers.RedisBroker.DeadLetter | kojin-redis/src/broker.rs:170-181 | ack, then push on the dead-letter list |
| RedisBrokers.RedisBroker.Schedule | kojin-redis/src/broker.rs:183-198 | the scheduled set gains the message under its new score, loses it under an old one, and stays ordered with one entry for each text |
| RedisBrokers.RedisBroker.PollScheduled | kojin-redis/src/scripts.rs:12-26 | the entries polled reach their queues in order behind what was there, and every due entry leaves the set |
| RedisBrokers.AcksFindTheirOwnIff | kojin-redis/src/broker.rs:147-160 | every entry of the processing list is found by its own id if and only if no entry quotes the id of one further right |
| RedisBrokers.QuotedAckTakesAnother | kojin-redis/src/broker.rs:147-160 | for any two messages dequeued one after the other, the later quoting the earlier's id: acking the earlier removes the later from the processing list, and the earlier stays |
| RedisBrokers.KeyAcceptedOnce | kojin-redis/src/broker.rs:82-98 | over any sequence of calls and expiries, the messages a duplicate key lets onto a queue are one for each of its lifetimes, retries included |
| RedisBrokers.NackKeepsIff | kojin-redis/src/broker.rs:165-168 | a nack keeps its message if and only if the message has no duplicate key that is alive |
| RedisBrokers.RetriedKeyIsLost | kojin-redis/src/broker.rs:82-98 | so a message enqueued with a key and nacked before the key expires is dropped, whatever happened in between |
| RedisAcks.AcksRemoveExactlyTheirOwn | kojin-redis/src/broker.rs:142-163 | any number of acks begun at any time for entries on the list, each a scan and a later removal, interleaved with each other and with arriving entries, redelivered ones included: the list always holds, once each, exactly the entries that arrived and whose own ack has not been done since, given that no text on the list quotes another id while it is being acked |
| Scheduling.PollSplits | kojin-redis/src/scripts.rs:15-25 | a poll splits the set in three: the first hundred due entries in order of score, which move; the other due ones, which vanish; the rest, which stay |
| Scheduling.PollLosesNothingIff | kojin-redis/src/scripts.rs:15-25 | every due entry reaches its queue if and only if at most a hundred are due |
| Scheduling.DueAreFirst | kojin-redis/src/scripts.rs:15 | in an ordered set the due entries are exactly the first ones |
| Scheduling.InsertInOrder | kojin-redis/src/broker.rs:183-198 | adding an entry keeps the set ordered and adds nothing else |
| SqsBrokers.SqsBroker.Enqueue | kojin-sqs/src/broker.rs:92-134 | a message with an eta is held back towards it, never past the cap; an unknown queue is an error |
| SqsBrokers.SqsBroker.Schedule | kojin-sqs/src/broker.rs:238-282 | the delay is clamped, and a message whose delay ends a second or more before the eta carries the eta |
| SqsBrokers.SqsBroker.Ack | kojin-sqs/src/broker.rs:182-194 | the slot whose receipt is held is deleted, and the receipt forgotten |
| SqsBrokers.SqsBroker.Nack | kojin-sqs/src/broker.rs:196-210 | the slot becomes visible, with the body that was stored |
| SqsBrokers.SqsBroker.DeadLetter | kojin-sqs/src/broker.rs:212-236 | the slot is deleted; the message is kept only if a dead-letter queue is configured |
| SqsBrokers.DelayedSendsBounded | kojin-sqs/src/broker.rs:243-271 | however late deliveries are, a message due some time ahead is sent with a delay at most that time over 900 seconds, rounded up, times |
| SqsBrokers.WholeSecondSendsBounded | kojin-sqs/src/broker.rs:243-271 | when all times are whole seconds that bounds all sends before the eta |
| SqsBrokers.SendsSplit | kojin-sqs/src/broker.rs:243-271 | a send asks for a delay unless it falls in the last second before the eta |
| SqsBrokers.SendsBoundedIff | kojin-sqs/src/broker.rs:243-271 | the sends before an eta are bounded so, whatever the eta and the deliveries, if and only if the clock shows whole seconds or coarser |
| SqsBrokers.LastFractionSpins | kojin-sqs/src/broker.rs:243-271 | for every finer clock, and every n, a deferral of n sends all in the last second, where the bound is one |
| SqsBrokers.ScheduledNeverEarlyIff | kojin-sqs/src/broker.rs:243-271 | a scheduled message cannot run before its eta if and only if it carries an eta that late, or the eta is past, beyond the cap, or whole seconds away |
| SqsBrokers.RetriesNeverCount | kojin-sqs/src/broker.rs:196-210 | whenever its deliveries and failures happen, a message that always fails leaves the queue exactly when it was stored without retries left, at its first failure, and is then a dead letter if a queue for them is configured; otherwise it is redelivered unchanged for ever |
| Dedup.DeduplicationMiddleware.Before | kojin-core/src/middleware/dedup.rs:43-67 | no key always passes; a key passes unless the map has it from less than ttl ago |
| Dedup.DeduplicationMiddleware.Cleanup | kojin-core/src/middleware/dedup.rs:35-38 | exactly the expired entries are dropped |
| Dedup.DecisionsAsSpecified | kojin-core/src/middleware/dedup.rs:35-67 | for every trace with a clock that does not run backwards, and any prunings, the answers are those of the specification that remembers everything |
| Dedup.AcceptedAreSpaced | kojin-core/src/middleware/dedup.rs:51-63 | passes of one key are at least ttl apart |
| Cron.SchedulerLoop | kojin-core/src/cron.rs:69-111 | with distinct names, every entry of the shared loop fires as if it were alone |
| Cron.FiringsAreInOrder | kojin-core/src/cron.rs:86-109 | the firings of an entry are for strictly increasing instants of its schedule: never two for one instant |
| Cron.FiresIff | kojin-core/src/cron.rs:86-109 | a poll fires an entry if and only if an instant lies after the entry's last firing poll - before the first firing, after one second ago - and not after now, and it fires the first such instant |
| Cron.InstantsCovered | kojin-core/src/cron.rs:86-109 | after an entry's first firing, the first poll at or after an instant fires for that instant or an earlier one since the last firing |
| Hooks.CountersBalance | kojin-core/src/worker.rs:250-270 | in every state of any number of interleaved attempts: succeeded, failed and open past the metrics hook add up to started and aborted by an earlier hook; timings are kept for exactly the attempts between their passes of the otel hook, and every other attempt that passed it has left one duration |
| Hooks.QuietPipeline | kojin-core/src/middleware/otel.rs:72-111 | so when no attempt is under way no timing is left and each attempt that passed the otel hook left one duration |
| Hooks.Attempt | kojin-core/src/worker.rs:250-270 | the hooks of one attempt called in place on the two middlewares, `before` up to the first refusal, then all of `after` or of `on_error`: a run of that pipeline which ends with the attempt over; it counts one start if it came that far, one success if all hooks passed and the handler returned and one failure if not, and leaves the time from entry to exit as one duration |
| Backoff.DelayIsExact | kojin-core/src/backoff.rs:16-28 | for every 32-bit retry the saturating computation is the exact exponential, capped |
| Backoff.DelaysGrow | kojin-core/src/backoff.rs:16-28 | delays never shrink from one retry to a later one, and stay within the cap |
| Backoff.SleptInAll | kojin-core/src/backoff.rs:16-28 | the default delays of the first k retries come to 2^k - 1 seconds in all up to nine retries, and 511 + 300 (k - 9) beyond |
| Fnv.Fnv1a64 | kojin-core/src/message.rs:164-171 | the loop folds the byte step over the input from the offset basis |
| Fnv.StepIsBijective | kojin-core/src/message.rs:166-169 | exclusive or with a byte and multiplication modulo 2^64 is a bijection on states |
| Fnv.FoldConcat | kojin-core/src/message.rs:164-171 | hashing a concatenation continues from the hash of its front |
| Fnv.FoldTellsStates | kojin-core/src/message.rs:164-171 | a common suffix keeps different states different |
| Fnv.OneByteNeverCollides | kojin-core/src/message.rs:164-171 | two inputs that differ in exactly one byte never collide |
| Fnv.FoldReachesAll | kojin-core/src/message.rs:164-171 | every state is reached from some starting state by every input |
| Fnv.PublishedHashes | kojin-core/src/message.rs:164-171 | the published FNV-1a hashes of the empty input and of "a", which fix the offset basis, the prime and the order of the two operations |

## Left out

- MemoryBrokers.MemoryBroker.Dequeue: one pass over the queues; waiting for a notification and the deadline are in `Wakeups` and in the cluster's `Miss` event, not in the method.
- MemoryBrokers.MemoryBroker.Enqueue: the wake-up it gives is modelled in `Wakeups` only.
- Workers.ExecuteTask: `after` hooks, whose errors the code only logs, leave no trace in it; `Hooks` follows every hook call. The memory broker and backend it runs on give no error but an unknown group.
- Workers.HandleFailure: `on_error` hooks, whose errors the code only logs, leave no trace in it; the backoff sleep is its result and not a wait.
- RedisBrokers.RedisBroker.Dequeue: its looks at the queues run with no other client in between; single looks interleaved with other calls are in `RedisBrokers.BrokersAgree` and `RedisBrokers.RedisFifo`. Waiting inside `BLMOVE` is not modelled.
- RedisBrokers.BrokersAgree: a scan and its removal in one ack are one step here; interleaved acks are in `RedisAcks`.
- Postgres.CountsDistinctMembers: for groups below 2^32 members, since the count is cut to 32 bits; the lemmas of `Finishers` likewise.
- SqsBrokers.SqsBroker.Dequeue: which visible message is received, and its handle, are arguments; a handle stays the same over redeliveries; FIFO queues and a queue's own default delay are not modelled.
- Hooks.CountersBalance: counters are unbounded numbers, not 64-bit atomics.
- Cron.SchedulerLoop: a failed enqueue counts as fired, as in the code; the loop runs over the polls made until cancellation.
- The loop of `Worker::run` is a state machine over its awaits (`Cluster`) and not a method, since its point is what runs between them.
- `created_at`, `updated_at` and `parent_id` of a message; message priorities, which none of the modelled brokers uses.
- Handler panics, process crashes and clocks that run backwards.
- A nested group or chord in a chain, or a nested canvas in a group, is skipped as in the code; a chord's callback keeps only its first signature and no correlation id, as in the code.
- The Redis result backend, whose atomic counter script behaves as the memory backend does for an opened group; `get`, `delete`, `wait` and its polling of every result backend; result expiry.
- kojin-amqp, rate limiting, tracing, OpenTelemetry export, the dashboard, the macros, kojin-agent, queue weights, key builders, configuration.
- JSON text, UUIDs, calendars and cron expressions: abstract values, fresh numbers, integer times and an arbitrary set of instants.
