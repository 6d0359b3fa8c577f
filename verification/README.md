# BytePS: verified model of the gradient exchange

BytePS sums gradients over many machines, each with several GPUs, through parameter servers. This
Dafny project models the parts of it where something can go wrong in a non-local way and proves what
they promise, for every input and every run.

* **Parameter server.** `RoundProtocol` is the request handler and the engine of one key as a state
  machine, closed with any number of workers that loop over push, acknowledgement, pull, response.
  `RoundSafety` is its inductive invariant; `RoundTheorems` says what workers can rely on, and
  `RoundProgress` that a worker that has pushed can always still be answered;
  `LatePulls` and `LateWitness` settle when a pull answered by the handler carries the right value.
  `Server` is the server object itself, with all keys, engine threads, queues and flags, and
  `Execution` shows that under any schedule what it does for each key is a run of that key's machine.
  `ThreadAssignment` is the choice of engine threads.
* **Reducers.** `Tensors` and `Reducers` hold the streaming sum, the replica buffer and the sum,
  serial sum, median and hybrid kernels as loops over arrays of exact reals. `Robustness` holds their
  order independence, the robustness of the median and its limit, and the interpolation laws.
* **From tensor to servers and back.** `Partition` splits tensors and makes keys, `Collectives` is the
  shard arithmetic in elements and bytes, and `AllReduce` is what the GPUs and the host of a machine
  do before the push and after the pull. `ServedAllReduce` joins it to the runs of the server of one
  key and says, for every answer of every run and in every reduction mode, what the GPUs end with;
  `TensorExchange` does so for whole tensors, with one run per key, and says exactly when the exchange
  gives the reduction of the machines' tensors, which in the summing modes is a flat all-reduce.
* **Codecs.** `Bits`, `Elias`, `BitStreams` and `EliasDelta` are the packed bit writer and reader and
  the Elias delta codes; `CommandCodec` is the pairing of request type and data type.
* **Coordination of the GPUs of a machine.** `Coordination` is the READY/DO protocol as a state
  machine over FIFO channels; `CoordinationSafety`, `CoordinationRuns` and `CoordinationTheorems` are
  its invariant and theorems, `CoordinationLists` ties its places to the queue lists, and
  `CoordinationCredits` joins it to the credit-controlled reduce queue. `ScheduledQueues` holds the ready tables and the credit-controlled queues, `Completion` the queue
  lists and the callback at the end.
* **Worker side in Python.** `CrossBarriers` is the main thread with its hooks and its synchronisation,
  and the poller, over locks, countdowns, handles and events; `DistributedOptimizers` holds the hooks
  and `synchronize` of the plain optimizer.

The step functions of the state machines only compute (`RoundProtocol.Push`, `Pull`, `Engine`,
`Coordination.Next`, `CrossBarriers.After`, `Completion.Stepped`); what they keep and what follows
from it is stated by the lemmas below, and the server object and the tensor task are proved to do
what these functions say.

`Arithmetic`, `Options` and `Sequences` are small helpers. `dafny verify dfyconfig.toml` checks everything.

Places where a promise one might expect does not hold of the code, with the exact condition:

* The store that `COPY_FIRST` overwrites is the buffer from which late pulls are answered. A late
  answer is right for all gradients if and only if the engine has not yet executed a message of the
  next round (`LatePulls.LateAnswerExact`); with two or more workers the bad schedule exists
  (`LateWitness.LatePullHappens`). The same condition decides whether the GPUs of the machine end with
  the reduction of the machines' sums (`ServedAllReduce.LateAllReduceExact`), and, over the keys of a
  tensor that are answered late, whether they end with the reduction of the tensors
  (`TensorExchange.LateTensorExact`).
* The root announces a collective call before it posts it. A device's calls are a prefix of the calls
  the root has announced; they are a prefix of those the root has posted if and only if the device has
  not received the announcement in hand (`CoordinationTheorems.PrefixExactly`,
  `CoordinationTheorems.DeviceOvertakes`).
* Half of the workers or more can move the median anywhere, whatever the others send
  (`Robustness.MedianBreaks`).
* Keys of consecutive tensors collide if and only if the first has more than 2^16 partitions
  (`Partition.KeysCollideExactly`).
* A hook of a parameter that was not named raises a key error until the first `synchronize`
  (`DistributedOptimizers.DistributedOptimizer.Hook`); with `named_parameters=None`, which the
  constructor allows, every first hook does (`DistributedOptimizers.UnnamedHookFails`).
* With the cross barrier the backward hook's assertions can fail on the first backward pass of a step.
  They fail if and only if the poller has not seen the last push-pull finish, and the backward hook
  decided on that push-pull when all earlier ones had been seen finished
  (`CrossBarriers.HookNeverRejected`). Waiting in the forward hook rules this out; a parameter
  without a forward hook can run into it (`CrossBarriers.FirstFiringRejectedRun`).
* With the cross barrier a gradient is not always pushed exactly once per step. A step pushes it as
  often as its backward hook asks for, and once more if it has no handle when the step begins
  (`CrossBarriers.PushesPerStep`). It is not pushed if and only if neither hook ran, because the handle of
  the last step is still there (`CrossBarriers.UntouchedIsSkipped`, `CrossBarriers.SkippedRun`). It is pushed
  twice if and only if the forward hook ran again after the push, provided that it passed before
  the backward passes and there were not too many of them (`CrossBarriers.OncePerStep`,
  `CrossBarriers.PushedTwiceRun`).

Two conditions in the shard arithmetic look like such places and are not: the shards cover a partition,
and the remainder at the end of the buffer is the one behind the shards, if and only if the unit size
divides the length (`Collectives.CoverExact`, `Collectives.RemainderAligned`). Every part that the
partitioning loop makes has such a length (`TensorExchange.ByteShards`).

## Model

| member | source | states |
|---|---|---|
| RoundProtocol.AppendCommutes | byteps/server/server.cc:353-361 | appending a message commutes with an engine step, so appending a push's messages one by one while the engine works gives the same states as appending them together |
| RoundProtocol.DrainSubset | byteps/server/server.cc:180-197 | draining the pull queue answers only workers that wait |
| RoundSafety.StepInv | byteps/server/server.cc:87-469 | every step of handler, engine or worker keeps the invariant that ties queue, flags, buffers and answers to the rounds |
| RoundSafety.RunInv | byteps/server/server.cc:87-469 | the invariant holds in every reachable state |
| RoundSafety.RoundSafe | byteps/server/server.cc:169-198 | in every run each worker's r-th pull is answered at most once, after the finish message of round r and before that of round r + 1, and every r-th pull seen by then is answered |
| RoundSafety.PushOpensRound | byteps/server/server.cc:340-361 | a worker that has got all its answers pushes into the open round: it has no push in it yet, and the engine has finished all earlier rounds |
| RoundSafety.ReplicaComplete | byteps/server/server.cc:353-426 | when the finish message runs, slot j of the replica buffer is the j-th accepted push and the store holds their sum, so every mode yields the reduction of the accepted pushes |
| RoundSafety.DrainAll | byteps/server/server.cc:180-197 | draining a queue of different, unserved workers answers all of them in order, and resets the flags exactly when that serves everyone |
| RoundTheorems.PickPermutes | byteps/server/server.cc:404-429 | one accepted push per worker is a permutation of the workers' gradients |
| RoundTheorems.CompleteRound | byteps/server/server.cc:404-429 | the accepted pushes of a finished round reduce to the same value as the gradients the workers sent in that round |
| RoundTheorems.AnswersExact | byteps/server/server.cc:58-85 | in every run each answer carries the reduction of its round's gradients, except a late one given after `ahead` next-round gradients were stored, which carries their sum; answers of the engine are never late |
| RoundTheorems.NeverStuck | byteps/server/server.cc:284-469 | in every reachable state the engine has work or some worker may make a request |
| RoundProgress.PullGetsAnswered | byteps/server/server.cc:180-198 | from every reachable state, a worker that has pushed and not been answered, waiting in the pull queue or not, has a continuation of the run that sends it the answer of that round |
| LatePulls.SameRun | byteps/server/server.cc:442-466 | control flow does not depend on gradient values: runs with the same schedule have the same flags, pull queues, kinds of messages and numbers of pushes, pulls and answers |
| LatePulls.SameAnswers | byteps/server/server.cc:442-466 | runs with the same schedule answer the same workers for the same rounds in the same order, by the same side |
| LatePulls.Replay | byteps/server/server.cc:145-156 | every run can be replayed on the same schedule with gradients that tell two rounds apart |
| LatePulls.LateAnswerExact | byteps/server/server.cc:451-456 | a late pull is answered rightly for all gradients on a schedule if and only if the engine has executed no message of the next round |
| LateWitness.LatePullHappens | byteps/server/server.cc:451-456 | for every configuration with at least two workers there is a run in which a late pull is answered wrongly |
| ThreadAssignment.Least | byteps/server/server.h:176-183 | the first index of a smallest load |
| ThreadAssignment.AssignmentSound | byteps/server/server.h:165-189 | over every sequence of calls: a key is placed once, each thread's load is the sum of the first-push lengths of its keys, and loads differ by at most the longest of them |
| ThreadAssignment.ThreadNeverChanges | byteps/server/server.h:165-189 | a key once assigned keeps its thread whatever is called later |
| Server.ParameterServer.constructor | byteps/server/server.cc:533-570 | a new server is valid and every key is untouched |
| Server.ParameterServer.GetThreadId | byteps/server/server.h:165-189 | the scan over the loads does what the assignment function says, including its failing checks |
| Server.ParameterServer.InitPush | byteps/server/server.cc:298-336 | the first push of each worker only registers; the last one allocates store and replica and acknowledges all |
| Server.ParameterServer.Send | byteps/server/queue.h:49-62 | a message goes to the end of the thread's queue |
| Server.ParameterServer.Dequeue | byteps/server/queue.h:68-83 | the first message leaves the thread's queue |
| Server.ParameterServer.RoundPush | byteps/server/server.cc:340-429 | an accepted push enqueues its two messages, acknowledges, and as the last of the round enqueues the finish message and empties the request list |
| Server.ParameterServer.HandlePush | byteps/server/server.cc:284-434 | for its key a push does what the one-key machine does, other keys are untouched, and it is rejected exactly when no thread load is below the maximum |
| Server.ParameterServer.HandlePull | byteps/server/server.cc:435-468 | each failing check exactly, and otherwise the one-key machine's pull with its answer; other keys are untouched |
| Server.ParameterServer.AnswerQueued | byteps/server/server.cc:180-197 | the erase-while-iterating loop computes the drain of the queue |
| Server.ParameterServer.Work | byteps/server/server.cc:87-228 | the engine's actions on the thread's first message |
| Server.ParameterServer.EngineStep | byteps/server/server.cc:87-228 | an engine step is a step of the machine of the message's key, and other keys, also those on the same thread, are untouched |
| Execution.PullChecksHold | byteps/server/server.cc:437-442 | in a run, a pull that its worker may make finds the key initialised, assigned to a thread, and with a buffer to answer from |
| Execution.Push | byteps/server/server.cc:284-434 | a push keeps every key's state the state of a run |
| Execution.Pull | byteps/server/server.cc:435-468 | a pull passes the checks and its answer is the run's answer |
| Execution.Engine | byteps/server/server.cc:87-228 | an engine step sends the run's answers, in order |
| Execution.Play | byteps/server/server.cc:87-469 | any schedule is played action by action: each action makes the step it asks for on its key and no other, or changes nothing |
| Execution.Execute | byteps/server/server.cc:87-469 | for any number of keys, threads and any schedule, each key's part of a new server's execution is a run of that key's machine, and what left the server are the runs' answers |
| Execution.SentExact | byteps/server/server.cc:58-85 | every response that left the server is exact in the sense of AnswersExact and belongs to the round whose finish message was last processed |
| Tensors.SumRowsAt | byteps/common/cpu_reducer.cc:263-269 | element i of the streaming sum is the total of column i |
| Tensors.WriteSlot | byteps/server/server.cc:398-401 | writing a slot of the replica buffer changes that slot and no other |
| Reducers.Sort | byteps/common/cpu_reducer.cc:181-181 | a sorted permutation |
| Reducers.ReduceStoreRefines | byteps/common/cpu_reducer.cc:222-231 | with the streaming sum in the store and the rows in the slots, every mode gives the reduction of the rows, and the serial sum gives back the store |
| Reducers.SumInto | byteps/common/cpu_reducer.cc:263-269 | the in-place loop adds elementwise |
| Reducers.SumSerially | byteps/common/cpu_reducer.cc:222-231 | the in-place loop stores the column totals of the replica buffer |
| Reducers.MedianOf | byteps/common/cpu_reducer.cc:173-189 | the in-place loop stores n times the median of each column, for odd and even n |
| Reducers.HybridOf | byteps/common/cpu_reducer.cc:93-135 | the in-place loop stores the blend of sum and scaled median of each column, with one worker's values replaced by samples when noise is on |
| Reducers.HybridQuiet | byteps/common/cpu_reducer.cc:108-132 | without noise the hybrid kernel is the hybrid reduction |
| Robustness.OrderIndependent | byteps/common/cpu_reducer.cc:93-231 | sum, serial sum, median and hybrid depend only on the multiset of rows |
| Robustness.RankWithin | byteps/common/cpu_reducer.cc:181-185 | an order statistic with more honest values on both sides than arbitrary ones lies in the honest range |
| Robustness.MedianRobust | byteps/common/cpu_reducer.cc:173-189 | with fewer than n/2 arbitrary rows every element lies between n times the minimum and n times the maximum of the other rows, for odd and even n |
| Robustness.MedianBreaks | byteps/common/cpu_reducer.cc:173-189 | whatever the other rows hold, half of the rows or more can push the result above and below any bound |
| Robustness.HybridEnds | byteps/common/cpu_reducer.cc:126-132 | the hybrid is the sum at alpha 0 and n times the median at alpha 1 |
| Robustness.HybridBetween | byteps/common/cpu_reducer.cc:126-132 | for alpha in [0, 1] it lies between the two |
| Robustness.NoisyHybridRobust | byteps/common/cpu_reducer.cc:106-132 | at alpha 1 and three or more workers, the noisy worker cannot move the result out of the others' range |
| Partition.PartitionTensor | byteps/common/operations.cc:150-179 | the loop gives ceil(size / bound) adjacent nonempty parts that cover exactly the tensor |
| Partition.InitKeys | byteps/common/operations.cc:307-325 | the key loop gives as many keys as there will be parts, consecutive from the tensor's range |
| Partition.TilesShape | byteps/common/operations.cc:150-179 | size and bound determine number, offsets and lengths of the parts |
| Partition.TilesCover | byteps/common/operations.cc:150-179 | every byte lies in exactly one part |
| Partition.TilesAligned | byteps/common/global.cc:142-142 | a unit size that divides size and bound divides every offset and length |
| Partition.TilesInElements | byteps/common/operations.cc:167-168 | such parts, counted in elements, tile the elements |
| Partition.KeysDistinct | byteps/common/operations.cc:302-309 | with at most 2^16 partitions per tensor all keys differ |
| Partition.KeysCollideExactly | byteps/common/operations.cc:302-309 | a tensor runs into the next one's keys if and only if it has more |
| Collectives.ScatterPlan | byteps/common/core_loops.cc:216-217 | equal shards and a remainder for the last rank make up the partition |
| Collectives.ReducePlan | byteps/common/core_loops.cc:218-224 | with configured roots everything goes to one rank |
| Collectives.ShardsPartition | byteps/common/core_loops.cc:416-424 | every element is owned by exactly one rank |
| Collectives.BytesMatchPlan | byteps/common/core_loops.cc:416-424 | the byte offsets and lengths of the copies are the plan's, times the unit size, for every length |
| Collectives.RemainderAligned | byteps/common/core_loops.cc:247-252 | the remainder taken from the end of the buffer is the one behind the shards if and only if the unit size divides the length |
| Collectives.BytesCovered | byteps/common/core_loops.cc:416-436 | a byte is copied by a rank if and only if it lies in a whole element that the rank owns |
| Collectives.CoverExact | byteps/common/core_loops.cc:416-436 | the copies cover the partition if and only if the unit size divides its length |
| AllReduce.ReduceLocalHolds | byteps/common/core_loops.cc:232-253 | after scatter and remainder reduce every GPU holds the machine's sum on its shard, whatever its buffer held before |
| AllReduce.HostComplete | byteps/common/core_loops.cc:416-436 | once every rank has copied its shard, in any order, the host buffer is the machine's sum |
| AllReduce.DevicesHold | byteps/common/core_loops.cc:670-691 | after the copies back every GPU holds the servers' result on its shard |
| AllReduce.GatherComplete | byteps/common/core_loops.cc:254-267 | all-gather and remainder broadcast leave every GPU with the whole result |
| AllReduce.ServerSums | byteps/server/server.cc:124-130 | in both summing modes the servers return the sum of what the machines pushed |
| AllReduce.SumOfSums | byteps/common/core_loops.cc:232-267 | the sum of the machines' sums is the sum over all GPUs |
| AllReduce.PushedCombined | byteps/common/core_loops.cc:190-253 | in every mode the reduction of what the machines push is the reduction of the machines' sums |
| AllReduce.CombinedSum | byteps/common/core_loops.cc:190-253 | in both summing modes that is the sum over all GPUs of all machines |
| AllReduce.SliceOfCombined | byteps/common/operations.cc:150-179 | a partition of the reduction of the tensors' sums is the reduction of the partitions' sums, in every mode |
| AllReduce.FinalIsPulled | byteps/common/core_loops.cc:254-267 | whatever a machine pulls is what each of its GPUs ends with, at every index, whatever the buffers held before |
| AllReduce.AssembleWhole | byteps/common/operations.cc:258-270 | parts that finish in any order make up the tensor |
| ServedAllReduce.PartitionAllReduce | byteps/common/core_loops.cc:190-267 | for every mode and every answer of every run of the key's server whose workers push the machines' sums: the GPUs of the machine end with the reduction of the machines' sums if the answer was not overtaken, else with the sum of the next-round gradients stored so far |
| ServedAllReduce.PartitionSum | byteps/common/core_loops.cc:190-267 | in the summing modes an answer that was not overtaken leaves every GPU with the sum over all machines and GPUs |
| ServedAllReduce.RightIffAnswer | byteps/server/server.cc:451-456 | a machine's GPUs end with the reduction of the machines' sums if and only if the late answer carries the reduction of its round |
| ServedAllReduce.LateAllReduceExact | byteps/server/server.cc:451-456 | in every mode, on a schedule with a late pull the GPUs of that machine end with the reduction of the machines' sums for all inputs if and only if the engine has executed no message of the next round |
| TensorExchange.TensorReduce | byteps/common/core_loops.cc:190-694 | one server run per key, any mode: if no answer to a machine was overtaken, the tensor assembled on each of its GPUs, parts finishing in any order, is the reduction of the machines' tensors, each summed over its GPUs |
| TensorExchange.TensorAllReduce | byteps/common/core_loops.cc:190-694 | in the summing modes it is the sum of the tensors of all GPUs of all machines |
| TensorExchange.ByteShards | byteps/common/core_loops.cc:416-436 | for parts made by the partitioning loop the byte shards are the plan's, cover every byte, and leave the remainder at the end |
| TensorExchange.BytesAllReduce | byteps/common/operations.cc:150-179 | the same, starting from the byte parts of the partitioning loop |
| TensorExchange.RightTensorIff | byteps/common/operations.cc:258-270 | the assembled tensor is the reduction of the tensors if and only if every partition is |
| TensorExchange.LateTensorExact | byteps/server/server.cc:451-456 | with any mix of keys answered late and keys answered by the engine, the tensor is the reduction of the tensors for all inputs the schedules can carry if and only if on no key with a late pull the engine has executed a message of the next round |
| Bits.LeadingOne | byteps/common/compressor/utils.h:192-197 | a positive number is a one followed by its low bits |
| Elias.ParseCode | byteps/common/compressor/utils.h:200-215 | parsing the code of x, wherever it stands and whatever follows, gives x and takes exactly the code |
| Elias.CodeParse | byteps/common/compressor/utils.h:190-215 | whatever the parser accepts is the code of what it returns |
| Elias.PrefixFree | byteps/common/compressor/utils.h:190-198 | no code is a prefix of another |
| BitStreams.ShiftIn | byteps/common/compressor/utils.h:124-126 | shifting a bit into a full-width word keeps the low bits, whatever stale bits are above them |
| BitStreams.BitWriter.constructor | byteps/common/compressor/utils.h:122-123 | a new writer has written nothing |
| BitStreams.BitWriter.Put | byteps/common/compressor/utils.h:124-132 | one bit is appended to what was written |
| BitStreams.BitWriter.Flush | byteps/common/compressor/utils.h:134-140 | the words then hold exactly the written bits and zero padding of less than a word: no stale bit reaches the output |
| BitStreams.BitWriter.BitsAreWritten | byteps/common/compressor/utils.h:142-142 | the bit count is the number of bits written |
| BitStreams.BitReader.constructor | byteps/common/compressor/utils.h:160-160 | a new reader stands at the first bit |
| BitStreams.BitReader.Get | byteps/common/compressor/utils.h:161-167 | the bit at the reader's position, which moves by one |
| EliasDelta.Encode | byteps/common/compressor/utils.h:190-198 | the three loops append exactly the code of x |
| EliasDelta.Decode | byteps/common/compressor/utils.h:200-215 | the loops return what the parser returns and consume exactly what it consumes |
| EliasDelta.EncodeAll | byteps/common/compressor/utils.h:190-198 | the codes of all numbers are appended in order |
| EliasDelta.DecodeAll | byteps/common/compressor/utils.h:200-215 | where the codes of given numbers stand, exactly those numbers are read and exactly their codes consumed |
| EliasDelta.RoundTrip | byteps/common/compressor/utils.h:119-215 | encoding any numbers from 1 on, flushing and decoding gives them back for every word width, and the bits read are the bits written |
| CommandCodec.SquareRootIsRoot | byteps/server/server.h:82-82 | the integer square root used is the greatest number whose square is not above its argument |
| CommandCodec.DepairInverts | byteps/common/common.cc:98-101 | taking a command apart gives back request type and data type |
| CommandCodec.PairInverts | byteps/server/server.h:81-92 | every number passes the checks and pairing its parts gives it back |
| CoordinationSafety.OneAhead | byteps/common/core_loops.cc:139-188 | a device is never more than one READY signal ahead of the root, and never owes more than one copy |
| CoordinationSafety.DoFindsTask | byteps/common/core_loops.cc:344-348 | while a DO signal for a key is coming, the device's task is in that queue and its READY signal has arrived |
| CoordinationSafety.MoveKeeps | byteps/common/core_loops.cc:146-178 | passing a task on before signalling keeps the link invariant |
| CoordinationSafety.TakeKeeps | byteps/common/core_loops.cc:284-300 | taking a ready key and clearing its count keeps the link invariant |
| CoordinationRuns.ReceiveFinds | byteps/common/core_loops.cc:344-348 | the lookup by key after a DO signal finds a task |
| CoordinationRuns.CopyReceiveFits | byteps/common/core_loops.cc:727-733 | a signal to copy keeps within the limit of the copy table |
| CoordinationRuns.DeliverFits | byteps/common/communicator.cc:184-199 | a READY signal keeps within the limit of its table |
| CoordinationTheorems.StepInv | byteps/common/core_loops.cc:139-360 | every step of every loop thread on every device keeps the invariant |
| CoordinationTheorems.RunInv | byteps/common/core_loops.cc:139-360 | it holds in every reachable state |
| CoordinationTheorems.ChecksHold | byteps/common/ready_table.cc:29-34 | in every run no lookup by key has missed its task and no count limit was exceeded, and the next signal to any device or to the root will do neither |
| CoordinationTheorems.ReadyMeansQuiet | byteps/common/scheduled_queue.cc:141-146 | while a key is ready no READY signal for it is under way, so none can come between the look at the table and its clearing |
| CoordinationTheorems.CallsArePrefix | byteps/common/core_loops.cc:284-358 | in every run each device's posted calls with group boundaries are a prefix of the root's announced calls, of which the root has posted all but perhaps the last |
| CoordinationTheorems.PrefixExactly | byteps/common/core_loops.cc:296-301 | they are a prefix of the root's posted calls if and only if the device has not received the call the root is still announcing |
| CoordinationTheorems.DeviceOvertakes | byteps/common/core_loops.cc:296-301 | a run in which a device posts a call before the root |
| CoordinationTheorems.NeverStuck | byteps/common/core_loops.cc:139-360 | no deadlock: in every reachable state in which the root and all devices have a task for a key some thread can move, where waiting for a collective call counts only once all GPUs have posted the whole group, and taking a task for a reduce only if the bytes under way leave credit for it |
| CoordinationCredits.BytesAreBusy | byteps/common/scheduled_queue.cc:148-203 | the bytes the queue has handed out are those of the keys whose reduce is posted and not finished |
| CoordinationCredits.QueueNeverStuck | byteps/common/scheduled_queue.cc:125-163 | in such a state some thread can move, or the scheduled reduce queue, with its credits and its ready table, hands out a task that the root may take |
| ScheduledQueues.ReadyTable.AddReadyCount | byteps/common/ready_table.cc:29-34 | one more, or nothing when the limit is reached; other keys keep their counts |
| ScheduledQueues.ReadyTable.SetReadyCount | byteps/common/ready_table.cc:36-39 | the count of that key alone is set |
| ScheduledQueues.ReadyTable.ClearReadyCount | byteps/common/ready_table.cc:41-44 | the count of that key alone becomes 0 |
| ScheduledQueues.SortTasks | byteps/common/scheduled_queue.cc:87-95 | a permutation in order of priority, then key |
| ScheduledQueues.ScheduledQueue.constructor | byteps/common/scheduled_queue.cc:26-46 | only the reduce queue of the signal root with a configured credit is scheduled; then its budget is that many partition bounds, so any partition fits |
| ScheduledQueues.ScheduledQueue.AddTask | byteps/common/scheduled_queue.cc:82-96 | the task is added and nothing lost; a scheduled queue stays sorted, another one is first in, first out |
| ScheduledQueues.ScheduledQueue.ChoiceIsBest | byteps/common/scheduled_queue.cc:82-160 | the chosen task is best by priority and key among the eligible ones |
| ScheduledQueues.ScheduledQueue.IdleQueueDispatches | byteps/common/scheduled_queue.cc:130-160 | with nothing under way, a task that only needs credit within the budget makes the queue hand out a task |
| ScheduledQueues.ScheduledQueue.GetTask | byteps/common/scheduled_queue.cc:125-163 | the first eligible task, or nothing if and only if there is none; if credits and dispatched bytes made up the budget they still do |
| ScheduledQueues.ScheduledQueue.GetTaskOf | byteps/common/scheduled_queue.cc:165-190 | the first task of the key, and exactly when the checks on scheduling and events fail |
| ScheduledQueues.PassOn | byteps/common/core_loops.cc:139-149 | a task that the coordinator passes on has lost its event, so the next queue holds only tasks without events |
| ScheduledQueues.LookUp | byteps/common/scheduled_queue.cc:165-190 | in such a queue, which is not scheduled, the lookup of a key that is there passes all its checks and finds the task |
| ScheduledQueues.ScheduledQueue.ReportFinish | byteps/common/scheduled_queue.cc:197-203 | how credits and bytes under way change for any reported length: their sum is kept when a running task reports its own length |
| ScheduledQueues.ScheduledQueue.Reset | byteps/common/scheduled_queue.cc:205-210 | sets the ready count of a key where there is a table |
| Completion.GetPushQueueList | byteps/common/operations.cc:430-461 | the stages of the device up to the push, exactly those, in pipeline order |
| Completion.GetPullQueueList | byteps/common/operations.cc:463-486 | the stages of the device from the pull on, exactly those, in pipeline order |
| Completion.AscendingUnique | byteps/common/operations.cc:430-486 | order and members determine a queue list, so the two contracts above determine the lists |
| CoordinationLists.PlacesAreQueues | byteps/common/operations.cc:430-486 | the places of a non-root device's task in the coordination model are the queues of its list, in order, for distributed jobs with one PCIe switch |
| CoordinationLists.RootPlacesAreQueues | byteps/common/operations.cc:430-486 | the same for the root |
| Completion.EnqueueTensor | byteps/common/operations.cc:231-271 | without a queue list the callback is called at once, otherwise all partitions start with the whole list |
| Completion.TensorTask.Proceed | byteps/common/core_loops.cc:93-100 | the partition leaves its first queue for the next |
| Completion.CountTellsLast | byteps/common/core_loops.cc:101-105 | under every interleaving the value read by the increment tells a thread whether every other partition has finished and been counted |
| Completion.CallerIsAlone | byteps/common/core_loops.cc:116-116 | under every interleaving a thread about to call back is the only one, nobody called before, and every partition has passed its whole list |
| Completion.TensorTask.FinishOrProceed | byteps/common/core_loops.cc:31-116 | these actions in turn |
| Completion.TensorTask.Interleave | byteps/common/core_loops.cc:31-116 | any interleaving of the partitions' threads does what the step function says |
| Completion.ExactlyOnce | byteps/common/core_loops.cc:94-116 | under every interleaving each partition visits its list in order, the callback is called at most once and only after every list is finished, and it has been called when all threads are done |
| CrossBarriers.StepOk | byteps/torch/cross_barrier.py:127-211 | every step of either thread keeps, for every parameter, the invariant on lock, countdown, handle, progress of the synchronisation and pushes since the last one |
| CrossBarriers.RunOk | byteps/torch/cross_barrier.py:127-211 | it holds after any interleaving |
| CrossBarriers.CrossBarrierSafe | byteps/torch/cross_barrier.py:140-211 | in every run at most one push-pull of a parameter is outstanding; after its forward hook passed, and until the next push, none is, and every pushed gradient has been applied once and zeroed |
| CrossBarriers.HookNeverRejected | byteps/torch/__init__.py:144-152 | the backward hook's assertions hold whenever the forward hook has passed since the last push; they fail if and only if the last push-pull is outstanding and not seen finished by the poller, and the backward hook decided on it when all earlier ones had been seen finished |
| CrossBarriers.RejectedRun | byteps/torch/__init__.py:144-152 | a run in which they fail on a second backward pass of a step |
| CrossBarriers.FirstFiringRejectedRun | byteps/torch/__init__.py:144-152 | a run in which they fail on the first backward pass of a step |
| CrossBarriers.PushesPerStep | byteps/torch/cross_barrier.py:127-138 | when a synchronisation ends every parameter has a handle, and the step pushed its gradient as often as the backward hook decided and once more if it had no handle |
| CrossBarriers.OncePerStep | byteps/torch/cross_barrier.py:127-138 | if the forward hook passed first and there were at most the allowed backward passes, the gradient was pushed once, or twice exactly if the forward hook ran again after the push |
| CrossBarriers.UntouchedIsSkipped | byteps/torch/cross_barrier.py:127-138 | a parameter is not pushed in a step if and only if neither of its hooks ran since the last synchronisation |
| CrossBarriers.SkippedRun | byteps/torch/cross_barrier.py:127-138 | a run in which that happens |
| CrossBarriers.PushedTwiceRun | byteps/torch/cross_barrier.py:204-211 | a run in which one step pushes a gradient twice, the second time after it was zeroed |
| CrossBarriers.NeverWaitsInVain | byteps/torch/cross_barrier.py:159-186 | whenever the main thread waits for a lock, in a forward hook or before a push, turns of the poller alone lead to the lock being free, if push-pulls finish |
| DistributedOptimizers.DistributedOptimizer.constructor | byteps/torch/__init__.py:85-88 | full delay for each named parameter, no handles |
| DistributedOptimizers.DistributedOptimizer.PushPull | byteps/torch/__init__.py:128-140 | a new handle for the parameter's push-pull |
| DistributedOptimizers.DistributedOptimizer.Hook | byteps/torch/__init__.py:143-157 | the hook returns, fails an assertion or misses its key exactly as said; the last of the allowed firings and no other starts the push-pull; one more is rejected and changes nothing |
| DistributedOptimizers.UnnamedHookFails | byteps/torch/__init__.py:86-87 | with no named parameters the first hook of any parameter misses its key |
| DistributedOptimizers.DistributedOptimizer.StartMissing | byteps/torch/__init__.py:161-164 | one push-pull for each parameter whose hook did not run |
| DistributedOptimizers.DistributedOptimizer.StartRest | byteps/torch/__init__.py:166-170 | one for each whose hook ran too few times |
| DistributedOptimizers.DistributedOptimizer.WaitAll | byteps/torch/__init__.py:171-183 | every handle is waited for and every delay reset |
| DistributedOptimizers.DistributedOptimizer.Synchronize | byteps/torch/__init__.py:160-183 | between two synchronisations exactly one push-pull is started for each parameter, however often its hook ran, and all are waited for |

## Left out

- Scheduled (heap) mode of the server's message queue, whose order reads counters that change while messages are in the heap.
- Server compression, blocking engine and asynchronous modes, and a server configured with no reduction mode at all.
- Rounding: gradients are exact reals; half precision and integer element types of the kernels are not modelled.
- The random noise of the hybrid kernel: noisy worker and samples are parameters.
- The push handler is one step. The source holds one lock over a whole request, so only the engine can come in between, and engine steps commute with the appended messages (RoundProtocol.AppendCommutes); the acknowledgement's time within the step is not modelled.
- A pull response takes its value when it is handed to the transport; that it refers to the buffer without a copy is not modelled.
- Transport, sockets, shared memory, CUDA and NCCL internals: channels are reliable FIFOs and collective calls are given by their meaning.
- Server.ParameterServer.HandlePush: a push whose length differs from the store's is excluded; the source does not compare the two and goes by the stored length. An empty push is excluded too.
- Server.ParameterServer.Work: copies and sums act on values, not on the in-place kernels, which are proved separately in Reducers.
- ThreadAssignment.AssignmentSound: loads are unbounded naturals and do not wrap at 64 bits.
- Partition.PartitionTensor: offsets and lengths are unbounded, the source keeps them in 32-bit fields.
- EliasDelta.RoundTrip: numbers are unbounded and any word width is allowed; the source's reader shifts an `int`, so it is right for words up to 32 bits, and takes the bit length from a floating-point logarithm.
- BitStreams.BitWriter.Put: room in the buffer is a precondition, since the source writes without a bound.
- EliasDelta.Decode: a complete code in the buffer is a precondition, since the source reads without a bound.
- CommandCodec.DepairInverts: an exact integer square root stands for the floating-point one, and command numbers do not overflow.
- Several PCIe switches on a machine, and jobs on a single machine, in Coordination: it models the queue lists of distributed jobs with one switch.
- CoordinationTheorems.RunInv: assumes at most one outstanding task per key and device.
- Compression stages of the queue lists.
- Changing `backward_passes_per_step` between synchronisations, asynchronous training, and the optimizers' update rules.
- CrossBarriers.RunOk: the threads' code is modelled as steps over values, not as objects updated in place; the backward hook's check and countdown are one step; the poller's update is one step; parameters outside the leaf modules, which have no forward hook, never take the forward steps; all parameters are named.
- The final drain of the cross barrier, which looks at the queue while the poller may hold an event.
- Profiling, logging, telemetry, elastic resume, launchers and the plugins for other frameworks.
