# asutils: a model of the epoll message transport, its thread pool and its client

asutils is a small C++ library. Its core is a client and a server that exchange framed messages over non-blocking
sockets watched with epoll, with thread pools for the reading and the writing, a background thread that reaps dead
connections, and on the client a table of response callbacks and a list of hosts to reconnect. This project models that
core in Dafny and proves what it promises, for any number of threads, descriptors, hosts and messages and for every
order in which their steps can happen. Where the code does not meet its promise on every input or in every run, the
exact condition under which it does is proved, in both directions.

The project is verified with `dafny verify dfyconfig.toml`.

## How the model is laid out

Sequential code is modelled in its own form. The two buffers, the event table, the server and the client are classes
whose methods update their fields; packing, splitting, hashing and the drain loops are loops with invariants, each
proved against a function of its input or of the old state.

- `Bytes`, `Fields`, `Frames`, `Outboxes`: bytes (signed, as `char` is on the platforms the library names), delimited
  fields, message frames, and the output side of one connection. These are the functions the methods are proved against.
- `Utils`: `split` and `hash_it`. `Buffers`: `BufferedReader` and `BufferedWriter`. `SocketUtils`: the two `pack_frame`,
  `unpack_frame`, `read_from_sfd`, `write_to_sfd`, `set_epoll`. `Interest`: the two bits of an event mask.
- `SocketServers`, `SocketClients`: the two objects. `Erasure`: how a retry pass strikes hosts off its list. `Hosts`: what
  is recorded of a host.

What depends on how threads interleave is modelled as step systems: a state, labels, when a label is enabled, and what it
does. A run is a sequence of states joined by enabled labels, from the initial state; a step is a stretch of code during
which no other thread can interfere. Every step system has an invariant that every step keeps.

- `Transport`: masks, read tasks, write tasks, senders and epoll threads of one process, a server with its one epoll
  thread or a client with one for each connection. `History`: what the state of a connection says about the steps that
  were taken. `Duties`: what epoll threads and tasks owe. `Network`: processes joined by wires. `TransportRuns`: runs in
  which something goes wrong.
- `ThreadPool`: the bounded queue with its two condition variables, and the object whose critical sections are its
  steps. A thread is asleep, woken, about to notify, and so on; spurious wakeups are steps.
- `Locks`: which mutexes each operation takes, how they nest and what is used under them, and threads that acquire and
  release them. `LockOrder`: which mutexes are ever taken while which are held. `DataRaces`: what is used without them.
- `ClientHosts`: where each host is: connected, on its way to the reaper, or on the retry list. A connection is made in
  two steps, between which other threads may come. `HostRuns`: runs in which something goes wrong.
  `ClientCallbacks`: the callback table.

The methods of `SocketClients.SocketClient` that connect, mark, reap and retry are shown to take, one after the other,
steps of `ClientHosts`.

## Hypotheses

- System calls are replaced by arbitrary outcomes: a write call takes any number of bytes not above what it was offered,
  or blocks, or fails; a read returns any non-empty piece of what has arrived, or blocks, or fails; any connection
  attempt may fail; `epoll_wait` reports any bits that are in the kernel's mask. A new descriptor has any number that the
  system has not given out, or has been told to close since; taking it and entering it in `conns` is one step.
- Each descriptor is watched by one epoll thread, as both objects arrange it. A thread sends on a descriptor when its mask
  has been set, or when a message from it has been delivered.
- A connection's bytes arrive in order and without loss.
- Ids are 37 bytes long. That they do not contain the delimiter, byte 4, is true of the text form of section 3 of
  RFC 4122 followed by a NUL; it is a condition of the theorems, not of the model. Each call has an id of its own.
- No thread is late by more than the 60 seconds of grace: a descriptor is reaped only when no thread has yet to mark it,
  to close it after a hang-up, or to record its connection. A hang-up closes the epoll descriptor of the connection, and
  the epoll thread and the reaper close it again; that number is taken not to have gone to another connection by then. In `Transport` and `ClientCallbacks` a number stands for one
  connection.
- Sizes are below 2^32, where the code's 32-bit counters would wrap.
- Host names in the list of desired hosts are distinct.

## Where the code and its intent part

| the code | what holds |
|---|---|
| the writer clears the whole slice whatever the write call took (`src/main/cpp/common/socket_utils.cpp:290`) | the stream is intact exactly in runs in which every call took its whole slice (`Outboxes.StreamIntact`, `Transport.IntactUnlessShort`); `ShortWriteCorrupts` shows what the receiver gets otherwise; clearing by the count returned needs no condition (`StreamIntactByCount`) |
| messages are not escaped | once all is quiet the receiver has the messages that the sender's threads have appended exactly if none contains the delimiter and no write call took less than its slice (`Frames.DeliveryExact`, `Network.DeliveredIsSent`) |
| the server watches a descriptor before `add` has set its mask (`src/main/cpp/common/socket_utils.cpp:131`, `src/main/cpp/common/socket_server.cpp:178-180`) | the read token is in one place throughout exactly in runs in which no toggle comes before `add` (`Transport.TokenExact`); `TransportRuns.RaceIsReachable` is the run in which it does; in the client, which adds first, it never does (`Transport.NeverRaces`) |
| `add` assigns the mask (`src/main/cpp/common/socket_server.cpp:179`) after it has made reader and writer, so that a read task that comes early can have a reply appended and EPOLLOUT armed before | output is never stranded in runs without such a toggle (`Transport.OutputNeverStranded`); in all runs some state strands output exactly if a mask is set when EPOLLOUT is armed for output that nobody else sees to (`Transport.StrandedExactly`), and the kernel is left without EPOLLOUT exactly if `epoll_ctl` is then called with such a mask (`Transport.AbandonedExactly`); `TransportRuns.ReplyStranded` is such a run |
| `retry_conn` erases ascending positions without adjusting them (`src/main/cpp/common/socket_client.cpp:227-232`) | it removes what it should exactly if at most one host was reconnected in the pass (`Erasure.ErasureExact`); `HostRuns.ThirdHostForgotten` is a run that loses a host |
| on a hang-up the client closes a descriptor at once (`src/main/cpp/common/socket_client.cpp:279-281`) while `conns` still has it, so that its number may come back and overwrite the entry | every host is accounted for throughout a run exactly if no number comes back like this and no retry pass reconnects several hosts (`ClientHosts.HostsAccountedExactly`, `ClientHosts.SoundMeans`); `HostRuns.HostOverwritten` is a run that loses a host |
| `make_connection` starts the epoll thread (`src/main/cpp/common/socket_client.cpp:181`) before it records the host as healthy (`src/main/cpp/common/socket_client.cpp:190-193`) | at rest a host is in exactly one place exactly if its connection was not recorded after its health had been cleared, or has been cleared again since; otherwise it is healthy and marked at once (`ClientHosts.ThreePlaces`); `HostRuns.HealthyAndMarked` is such a run |
| a blocking `send_msg` reads its descriptor twice (`src/main/cpp/common/socket_client.cpp:591`, `src/main/cpp/common/socket_client.cpp:491`) | its callback, which refers to its stack, can be called after it has returned exactly if the two differ (`ClientCallbacks.DanglesExactly`), that is, if the host was recorded with another descriptor in between (`ClientCallbacks.DescriptorsDiffer`) |
| a blocking `send_msg` that times out returns true, though the sample client takes a failure for a timeout (`src/main/cpp/sclient/main.cpp:94-98`) | the result is true exactly if the message was appended to a valid writer, or the callback was called before the call returned all the same; a call that came to the writer has no answer exactly if it gave up waiting or the reaper took its callback (`ClientCallbacks.BlockingResult`); `TimeoutReportsSuccess` and `RefusedButAnswered` are such runs |
| a comment says that the callback is deregistered if the message cannot be sent (`src/main/cpp/common/socket_client.cpp:495`); the code does not | the callback is gone exactly if a response or the reaper took it (`ClientCallbacks.RefusedStays`); `RefusedIsRegistered` is a run with a refused message and its callback in the table |
| a response callback runs under `call_backs_mutex` (`src/main/cpp/common/socket_client.cpp:333-360`): if it throws, `z_mutex` is taken under it, and if it sends, the same mutex or that of a writer | the locking of client and server is free of deadlock exactly if response callbacks neither throw nor send (`Locks.DeadlockFreeExactly`); `ThrowingDeadlock`, `AskingDeadlock` and `TellingDeadlock` are the three circles |
| senders and the reaper read a host's descriptors out of `h_status` without `hs_mutex` (`src/main/cpp/common/socket_client.cpp:491-492`, `src/main/cpp/common/socket_client.cpp:591`, `src/main/cpp/common/socket_client.cpp:751`) | of all that mutexes protect, two threads can be about to use the same thing at once exactly if it is the status of hosts (`DataRaces.RacesExactly`); `DataRaces.StatusRace` is a run in which one reads it while another writes it |
| the pool's size is `hardware_concurrency()`, which may be 0 (`src/main/cpp/common/socket_client.cpp:10-11`) | a pool never stops with work undone exactly if its size is not 0 (`ThreadPool.LiveUnlessEmpty`) |
| the reaper subtracts unsigned times (`src/main/cpp/common/socket_server.cpp:500`) | it reaps what it is meant to exactly if the clock is not behind a mark (`SocketServers.ReaperIntended`) |

## Model

| member | source | states |
|---|---|---|
| Fields.FeedAppend | src/main/cpp/common/buffered_reader.cpp:19-39 | Reading two pieces one after the other emits the same frames and leaves the same residue as reading them at once. |
| Fields.ChunkIndependence | src/main/cpp/common/buffered_reader.cpp:19-39 | So does every way of cutting the bytes into pieces, empty ones included. |
| Fields.FeedIsFields | src/main/cpp/common/buffered_reader.cpp:19-39 | Frames and residue are delimiter-free, join to all that was read, and there is one frame for each delimiter. |
| Fields.JoinInjective | src/main/cpp/common/utils.cpp:159-194 | Only one non-empty list of delimiter-free fields joins to a given string. |
| Fields.SplitUnique | src/main/cpp/common/utils.cpp:159-194 | The contract of `split` determines its result, and a non-empty string has one field more than delimiters. |
| Fields.SplitJoinInverse | src/main/cpp/common/utils.cpp:159-194 | Joining undoes splitting on every string; splitting undoes joining exactly on lists of delimiter-free fields other than the single empty field. |
| Fields.ReaderAgreesWithSplit | src/main/cpp/common/buffered_reader.cpp:19-39 | However non-empty data is cut up, the frames emitted followed by the residue are what `split` returns for the whole. |
| Utils.Split | src/main/cpp/common/utils.cpp:159-194 | No field for the empty string; otherwise delimiter-free fields that join to the input. |
| Utils.HashIt | src/main/cpp/common/utils.cpp:235-247 | In wrapping 32-bit arithmetic the loop computes the sum of the sign-extended bytes times powers of 32, mod 2^32. |
| Utils.WrapStep | src/main/cpp/common/utils.cpp:240-244 | Adding 31h + c to h with wrap-around at each operation is 32h + c mod 2^32. |
| Utils.HornerIsWeighted | src/main/cpp/common/utils.cpp:235-247 | The recurrence and the closed sum agree over the integers. |
| Utils.HashWindow | src/main/cpp/common/utils.cpp:235-247 | Keys of at least seven bytes, over an alphabet with distinct residues mod 32, collide exactly if they agree on the last six bytes and, mod 4, on the byte before. |
| Utils.SixAndTwoBits | src/main/cpp/common/utils.cpp:235-247 | The hash of any key of at least seven bytes, from its last six bytes and two bits of the seventh last. |
| Utils.ShortKeysInjective | src/main/cpp/common/utils.cpp:235-247 | Keys of one length up to six, over such an alphabet, do not collide. |
| Utils.DecimalKeysInjective | src/main/cpp/common/utils.cpp:235-247 | Decimal keys of at most six digits do not collide, across lengths. |
| Utils.DecimalLimit | src/main/cpp/common/utils.cpp:235-247 | Decimal keys of one length are free of collisions exactly up to length six. |
| Utils.RouteByLastByte | src/main/cpp/common/socket_client.cpp:464-465 | When the number of hosts divides 32, the host chosen for a non-empty key depends on its last byte alone. |
| Frames.PackUnpack | src/main/cpp/common/socket_utils.cpp:301-374 | Unpacking a packed frame returns id and message; repacking the parts of a frame longer than the id reproduces it exactly if it ends in byte 4. |
| Frames.FeedFrame | src/main/cpp/common/socket_server.cpp:143-156 | One frame read by an empty reader leaves nothing behind and emits a frame for each delimiter in it, the original if it is clean. |
| Frames.FeedStream | src/main/cpp/common/socket_server.cpp:143-156 | A whole stream of frames leaves the reader empty; clean messages come out as they went in, others come out as more frames than went in. |
| Frames.DeliveryExact | src/main/cpp/common/socket_server.cpp:143-156 | The messages delivered from a whole stream are those sent exactly if none contains the delimiter. |
| Frames.DeliveryDetermines | src/main/cpp/common/socket_server.cpp:143-156 | Whoever has delivered certain messages was sent exactly their stream, and a piece of a frame at most besides; they are clean. |
| Frames.DeliveryPrefix | src/main/cpp/common/socket_server.cpp:143-156 | Whatever part of a clean stream has arrived, the messages delivered are a prefix of those sent. |
| Buffers.BufferedReader.Read | src/main/cpp/common/buffered_reader.cpp:19-39 | The callback gets the completed frames, in order, and the carried buffer is the unfinished one. |
| Buffers.BufferedWriter.Write | src/main/cpp/common/buffered_writer.cpp:14-21 | Appends the whole frame at the back. |
| Buffers.BufferedWriter.IRead | src/main/cpp/common/buffered_writer.cpp:26-34 | Copies the oldest bytes into the caller's array, leaves the rest of the array and the buffer alone. |
| Buffers.BufferedWriter.Clear | src/main/cpp/common/buffered_writer.cpp:39-42 | Removes the oldest bytes. |
| Interest.BitOperations | src/main/cpp/common/socket_client.cpp:155-158 | On the 32-bit words of the kernel's masks, `|=` sets a bit and `^=` flips it, each leaving the other bit alone, as the two-bit masks of the model do. |
| SocketUtils.PackFrameChars | src/main/cpp/common/socket_utils.cpp:301-324 | Fills the array with id, message and delimiter, and touches nothing beyond. |
| SocketUtils.PackFrameVectors | src/main/cpp/common/socket_utils.cpp:329-351 | The same bytes for the same id and message. |
| SocketUtils.UnpackFrame | src/main/cpp/common/socket_utils.cpp:356-374 | Appends the id and the message of the frame to the two vectors, without the delimiter. |
| SocketUtils.EventTable.Arm | src/main/cpp/common/socket_utils.cpp:210-240 | Turns one bit of one descriptor on and tells the kernel, if it knows the descriptor. |
| SocketUtils.EventTable.Toggle | src/main/cpp/common/socket_server.cpp:57-61 | Flips one bit of one descriptor and tells the kernel. |
| SocketUtils.ReadFromSfd | src/main/cpp/common/socket_utils.cpp:159-219 | What is read reaches the reader in order. The side is closed, with no mask touched, exactly if the last call found the remote end closed or failed; otherwise nothing is left to read, EPOLLIN is armed again and the kernel told. |
| SocketUtils.WriteSlice | src/main/cpp/common/socket_utils.cpp:250-292 | One write call offers at most 1024 bytes and clears all of them unless it failed, whatever it took. |
| SocketUtils.WriteToSfd | src/main/cpp/common/socket_utils.cpp:243-296 | Terminates with an empty buffer exactly if the last call took something, with EPOLLOUT armed and the kernel told exactly if it would have blocked, with a failure exactly if it failed; bytes taken followed by bytes left are unchanged exactly if no call took less than its slice. |
| Outboxes.WritesConserve | src/main/cpp/common/socket_utils.cpp:248-294 | Through any sequence of write calls, bytes are conserved up to the number lost. |
| Outboxes.AfterConserves | src/main/cpp/common/socket_utils.cpp:248-294 | Appends and writes, in the code's form and in the form that clears by the count returned, keep the account of the stream. |
| Outboxes.StreamIntact | src/main/cpp/common/socket_utils.cpp:248-294 | In a run of appends and writes, bytes taken followed by bytes buffered are the whole frames appended, in order, exactly if every call took its whole slice. |
| Outboxes.StreamIntactByCount | src/main/cpp/common/socket_utils.cpp:287-292 | Clearing by the count returned keeps the stream whole whatever the calls take. |
| Outboxes.SentAndTaken | src/main/cpp/common/socket_utils.cpp:248-294 | What a connection counts as sent is the list of messages appended, in order, and the socket has taken as many bytes as the write calls returned. |
| Outboxes.ShortWriteCorrupts | src/main/cpp/common/socket_utils.cpp:265-290 | Two messages, a first call that takes only part of the first frame: what arrives is not a prefix of what was sent. |
| Transport.ToggleClears | src/main/cpp/common/socket_server.cpp:55-88 | A callback's `^=` turns the bit off and leaves the other alone exactly if the descriptor was added before its event is handled. |
| Transport.BaseKeeps | src/main/cpp/common/socket_utils.cpp:159-296 | Every step, even one that comes before `add`, keeps the mutexes of readers and writers with their owners, validity under them, both streams, and what is armed for output known to the kernel, for any number of threads, epoll threads and descriptors. |
| Transport.KernelAgrees | src/main/cpp/common/socket_client.cpp:558-561 | While `e_mutex` is free, `sfd_events` and the kernel's mask agree for every open descriptor. |
| Transport.StepKeeps | src/main/cpp/common/socket_client.cpp:152-179 | Every step, but a toggle that comes before `add`, also keeps masks and read tokens consistent. |
| Transport.RunKeeps | src/main/cpp/common/socket_utils.cpp:159-296 | Both in every state of a run: the first in every run, the second as long as no toggle has come before the mask is set. |
| Transport.NeverRaces | src/main/cpp/common/socket_client.cpp:130-181 | Where `add` comes before the first wait for a descriptor, as in the client, no toggle ever comes before it, and everything holds in every run. |
| Transport.TokenIsOne | src/main/cpp/common/socket_client.cpp:152-164 | The read token of a descriptor is in exactly one place: armed mask, epoll thread, one read task, or gone with the read side. |
| Transport.TokenExact | src/main/cpp/common/socket_server.cpp:40-44 | It is so throughout a run exactly if no toggle came before `add`. |
| TransportRuns.RaceIsReachable | src/main/cpp/common/socket_utils.cpp:125-141 | Registering before adding allows that: after three steps the mask that should be cleared is armed. |
| Transport.ReadTasksAlone | src/main/cpp/common/socket_client.cpp:386-402 | A read task is alone on its descriptor and never finds the read side closed. |
| Transport.ReadClosesOnce | src/main/cpp/common/socket_client.cpp:386-392 | The read side is closed at most once in any run, also one with a race, by the read mutex. |
| Transport.OutputNeverStranded | src/main/cpp/common/socket_client.cpp:536-563 | In every state of a run without a toggle before the mask is set, bytes in a valid writer have EPOLLOUT armed, or the epoll thread, a write task or a sender about to see to them. |
| Transport.StrandStep | src/main/cpp/common/socket_server.cpp:177-180 | In any state of any run, a step strands output exactly if it sets a mask when EPOLLOUT is armed for output that nobody else sees to. |
| Transport.StrandedExactly | src/main/cpp/common/socket_server.cpp:158-180 | Some state of a run strands output if and only if the run has such a step. |
| Transport.AbandonedExactly | src/main/cpp/common/socket_utils.cpp:224-238 | Some state of a run has output on an open descriptor that neither the kernel nor anybody else will see to, if and only if in the run `epoll_ctl` is called with a mask without EPOLLOUT while nobody sees to the output. |
| Transport.AbandonedIsStranded | src/main/cpp/common/socket_utils.cpp:224-238 | Such output is stranded in sfd_events as well, and only after a toggle that came before the mask was set. |
| Transport.ArmedIsKnown | src/main/cpp/common/socket_client.cpp:558-561 | In every state of every run, an armed EPOLLOUT is known to the kernel unless someone is about to tell it; after a hang-up the kernel knows nothing, whatever is armed. |
| TransportRuns.ReplyStranded | src/main/cpp/common/socket_server.cpp:158-180 | A run in which a reply that comes before the mask is set stays in the writer: nothing is at work, and neither sfd_events nor the kernel has EPOLLOUT. |
| Transport.QuietIsWatched | src/main/cpp/common/socket_utils.cpp:159-296 | In a run without a race, when nothing is going on, the kernel watches for input exactly while the read side is open, and for output while the buffer is not empty. |
| Transport.IntactUnlessShort | src/main/cpp/common/socket_utils.cpp:248-294 | In every run, what a connection has sent and holds are its frames, whole and in order, exactly if no write on it came up short. |
| History.StreamsAre | src/main/cpp/common/socket_utils.cpp:159-296 | In every state of every run, the output side of a connection is what the appends and write calls of the steps taken make of it, one after the other, and its reader has got what the read calls returned. |
| History.SentIs | src/main/cpp/common/socket_server.cpp:403-409 | What a connection counts as sent is, in order, the list of messages that threads have appended in steps of the run, none dropped or added; and what it has delivered is what the frames among the bytes read say. |
| History.AppendedWasSubmitted | src/main/cpp/common/socket_client.cpp:538-541 | The message a thread appends, and the descriptor, are those it was asked to send to, in the step that started it. |
| History.FlagsAre | src/main/cpp/common/socket_utils.cpp:176-219 | A side of a connection is valid exactly until some task has closed it, its descriptor open exactly until it was seen to hang up, and its mask set exactly by `add`. |
| History.SomeoneGoesOn | src/main/cpp/common/socket_server.cpp:296-420 | As long as a thread is at work, some thread can go on: this one, or one that it waits for through the holders of mutexes. |
| Duties.DutiesAreDone | src/main/cpp/common/socket_server.cpp:208-249 | In every run, the descriptors an epoll thread has closed and the tasks it has handed to the pools, in order, followed by what its last batch still asks for, are what `epoll_wait` has reported: an error, or EPOLLIN and then EPOLLOUT, of each event. |
| Duties.NothingIsForgotten | src/main/cpp/common/socket_utils.cpp:208-275 | A thread that has appended a frame, has been refused one by a server, or has drained a connection as far as it went, has armed the bit and told the kernel when it is done. |
| Duties.ArmHasReason | src/main/cpp/common/socket_server.cpp:400-420 | Nobody arms a bit without such a reason, on this descriptor, and for this bit. |
| Network.DeliveredIsPrefixOfSent | src/main/cpp/common/socket_utils.cpp:159-374 | End to end, if no write call took less than its slice and the messages are clean, those handed to the handler are a prefix of those that the sender's threads have appended in the steps of the history. |
| Network.DeliveredIsSent | src/main/cpp/common/socket_server.cpp:143-156 | Once writer, wire and reader are empty, the two are equal exactly if no write call took less than its slice and no message appended contains the delimiter. |
| ThreadPool.KeepsJobs | src/main/cpp/common/thread_pool.cpp:36-94 | Every step: pushed jobs are the popped ones followed by the queue, the queue is bounded, each popped job is with one worker or finished. |
| ThreadPool.KeepsWakeups | src/main/cpp/common/thread_pool.cpp:36-94 | Every step: while a worker sleeps, each queued job has a notification pending or a woken worker; likewise for producers and free places. |
| ThreadPool.RunKeeps | src/main/cpp/common/thread_pool.cpp:36-94 | Both hold in every state of every run, with any number of producers and spurious wakeups. |
| ThreadPool.TakenInPushOrder | src/main/cpp/common/thread_pool.cpp:41-84 | Jobs are dequeued in the order in which they were pushed. |
| ThreadPool.FinishedOnce | src/main/cpp/common/thread_pool.cpp:79-92 | No job runs twice. |
| ThreadPool.PushesWhatWasEntered | src/main/cpp/common/thread_pool.cpp:36-52 | A push, also one after a wait, puts on the queue the work that its caller has called with. |
| ThreadPool.RunBalances | src/main/cpp/common/thread_pool.cpp:36-55 | In every state of every run, the works pushed and those that callers still wait to push are together the works of all calls, each as often as it was asked for. |
| ThreadPool.NoLostWakeup | src/main/cpp/common/thread_pool.cpp:41-89 | A sleeper with something to do has a notification on its way or a companion already awake. |
| ThreadPool.RunsAreBounded | src/main/cpp/common/thread_pool.cpp:36-94 | The number of steps is bounded by the calls and the spurious wakeups. |
| ThreadPool.StuckIsDone | src/main/cpp/common/thread_pool.cpp:36-94 | A pool with workers stops only when every call has returned and the jobs that have run are those of all calls, each as often as it was asked for. |
| ThreadPool.LiveUnlessEmpty | src/main/cpp/common/thread_pool.cpp:8-30 | That is so in every run for exactly the sizes other than 0. |
| ThreadPool.Pool.constructor | src/main/cpp/common/thread_pool.cpp:8-30 | A new pool, with as many workers as its size, is in an initial state of the model. |
| ThreadPool.Pool.AddOrWait | src/main/cpp/common/thread_pool.cpp:38-55 | Under the mutex, the work goes to the back of the queue exactly if that is not full, else the thread goes to sleep; either is a step of the model. |
| ThreadPool.Pool.TakeOrWait | src/main/cpp/common/thread_pool.cpp:70-84 | Under the mutex, the worker gets the oldest job, the next in the order of all pushes, exactly if there is one, else it goes to sleep; either is a step of the model. |
| Locks.AllRanked | src/main/cpp/common/socket_client.cpp:333-360 | Every operation of server and client takes mutexes in rank order, except exactly a read task with a callback that throws or sends. |
| Locks.NestedFlows | src/main/cpp/common/socket_server.cpp:296-316 | Properly nested brackets of ascending rank are acquired and released in rank order, and leave nothing held. |
| Locks.NoCircle | src/main/cpp/common/socket_server.cpp:398-420 | Threads that respect the ranks never wait for one another in a circle, for any number of threads and per-descriptor mutexes. |
| Locks.SomeoneGoesOn | src/main/cpp/common/socket_server.cpp:398-420 | Whoever waits, waits through the holders of mutexes for a thread that can go on. |
| Locks.NobodyIsStuck | src/main/cpp/common/socket_server.cpp:275-517 | So in every reachable state, if response callbacks neither throw nor send. |
| Locks.DeadlockFreeExactly | src/main/cpp/common/socket_client.cpp:333-360 | No reachable state has a circle of waiting threads, exactly if response callbacks may not throw, nor send with a callback or in a blocking way, nor send without a callback. |
| Locks.ThrowingDeadlock | src/main/cpp/common/socket_client.cpp:735-754 | A read task whose callback throws and the reaper, waiting for each other. |
| Locks.AskingDeadlock | src/main/cpp/common/socket_client.cpp:496-507 | A read task whose callback sends with a callback, waiting for itself. |
| Locks.TellingDeadlock | src/main/cpp/common/socket_client.cpp:533-551 | A read task whose callback sends without a callback, a write task that has failed, and the reaper, waiting in a circle. |
| LockOrder.OrderExactly | src/main/cpp/common/socket_client.cpp:333-360 | Some operation takes one mutex while it holds another exactly for the pairs of an explicit lock order: for a server, for a client whose callbacks neither throw nor send, and for any client. |
| DataRaces.AllGuarded | src/main/cpp/common/socket_client.cpp:484-551 | Every operation uses what a mutex protects only while it holds it, but for the status of hosts; exactly those that read a descriptor out of a status use that without its mutex. |
| DataRaces.RacesExactly | src/main/cpp/common/socket_client.cpp:701-751 | Whatever callbacks may do, two threads can be about to use what the same mutex protects exactly if that is `hs_mutex`. |
| DataRaces.StatusRace | src/main/cpp/common/socket_client.cpp:491-492 | A run in which a sender is about to read a status while another thread is about to write it. |
| SocketServers.ExpiredExact | src/main/cpp/common/socket_server.cpp:500 | What the unsigned comparison of times means, whichever of the two is later. |
| SocketServers.ReapedExact | src/main/cpp/common/socket_server.cpp:494-508 | A pass picks exactly the descriptors that have expired when each is examined, each once. |
| SocketServers.ReaperIntended | src/main/cpp/common/socket_server.cpp:494-508 | These are the ones marked more than 60000 ms ago exactly if the clock is not behind a mark, but for clocks nearly 2^64 ms behind. |
| SocketServers.SocketServer.constructor | src/main/cpp/common/socket_server.cpp:10-33 | A server without descriptors; its tables agree. |
| SocketServers.SocketServer.Add | src/main/cpp/common/socket_server.cpp:140-182 | Makes fresh resources for a new descriptor, keeps existing ones, sets the mask to EPOLLIN. |
| SocketServers.SocketServer.Handle | src/main/cpp/common/socket_server.cpp:143-156 | The handler gets id and message of each frame, in order. |
| SocketServers.SocketServer.Read | src/main/cpp/common/socket_server.cpp:275-320 | The handler gets the messages of the frames completed by what was read, for this descriptor alone; the reader is closed and marked exactly if the last call found the remote end closed or failed, else EPOLLIN is armed again and the kernel told. |
| SocketServers.SocketServer.Write | src/main/cpp/common/socket_server.cpp:325-370 | Drains this writer alone; it is closed and marked exactly if the last call failed, and EPOLLOUT is armed and the kernel told exactly if it would have blocked. |
| SocketServers.SocketServer.SendMsg | src/main/cpp/common/socket_server.cpp:375-423 | Appends one whole frame to this writer alone if it is valid; arms EPOLLOUT and tells the kernel even if it is not. |
| SocketServers.SocketServer.AZombied | src/main/cpp/common/socket_server.cpp:469-479 | Records the time of death, replacing an earlier one. |
| SocketServers.SocketServer.CloseNClean | src/main/cpp/common/socket_server.cpp:429-464 | Closes the descriptor and erases it, and nothing else, from the three tables. |
| SocketServers.SocketServer.ReapPass | src/main/cpp/common/socket_server.cpp:483-522 | Closes each expired descriptor once, erases exactly those from every table, leaves every other entry as it is. |
| Erasure.EraseReconnected | src/main/cpp/common/socket_client.cpp:227-232 | The loop erases position after position in what is left, and is undefined when one is out of range. |
| Erasure.ErasureExact | src/main/cpp/common/socket_client.cpp:227-232 | It removes exactly the reconnected hosts if and only if there is at most one. |
| Erasure.SecondSurvives | src/main/cpp/common/socket_client.cpp:227-232 | With two or more, the second one reconnected stays on the list. |
| ClientHosts.StepKeeps | src/main/cpp/common/socket_client.cpp:701-782 | Every step, but for a retry pass that reconnects several hosts and a number that comes back too early, keeps every host in one place and status, connections and marks in agreement. |
| ClientHosts.HostsAccountedExactly | src/main/cpp/common/socket_client.cpp:203-238 | In a run every host tried is connected, listed or in transit, in exactly one of these ways in every state, if and only if neither of the two happened. |
| ClientHosts.SoundMeans | src/main/cpp/common/socket_client.cpp:274-283 | The two conditions in terms of the steps taken: no retry pass ended with several hosts reconnected, no connection got a number that `conns` still had. |
| ClientHosts.RevivedMeans | src/main/cpp/common/socket_client.cpp:190-193 | A connection counts as recorded too late exactly if its record came after a thread had cleared its host's health, and no thread has cleared it since. |
| ClientHosts.ThreePlaces | src/main/cpp/common/socket_client.cpp:31-55 | When no thread is in the middle of something, each host tried is healthy and connected, or awaits the reaper through its mark, or is on the retry list and recorded as unhealthy: exactly one of these if and only if its connection was not recorded too late, else the first two. |
| ClientHosts.SomeoneGoesOn | src/main/cpp/common/socket_client.cpp:203-238 | As long as a thread is in the middle of something, some thread can go on. |
| HostRuns.HealthyAndMarked | src/main/cpp/common/socket_client.cpp:181-193 | A run in which the peer closes before the host is recorded: in the end it is healthy, and its descriptor marked. |
| HostRuns.HostOverwritten | src/main/cpp/common/socket_client.cpp:274-283 | A run in which the number of a connection that hung up comes back: the first host is nowhere any more. |
| HostRuns.ThirdHostForgotten | src/main/cpp/common/socket_client.cpp:214-232 | A run in which two of three hosts are reconnected in one pass: the third is nowhere any more, and the second is connected and still listed. |
| SocketClients.RunGoesOn | src/main/cpp/common/socket_client.cpp:31-55 | The steps the methods of the object take extend any run that led to its state. |
| SocketClients.SocketClient.constructor | src/main/cpp/common/socket_client.cpp:10-26 | The tables of a new client are those of an initial state. |
| SocketClients.SocketClient.MakeConnection | src/main/cpp/common/socket_client.cpp:60-197 | A connection is recorded with a fresh descriptor, a healthy status and EPOLLIN; a failure with an unhealthy status. |
| SocketClients.SocketClient.ConnectToHosts | src/main/cpp/common/socket_client.cpp:31-55 | Exactly these steps of the model: an attempt for each host, and its record or its place on the retry list; the result counts the successes. |
| SocketClients.SocketClient.RetryPass | src/main/cpp/common/socket_client.cpp:212-234 | Exactly these steps of the model: one attempt for each listed host, with its record, then the erasures, undefined exactly when the model says so. |
| SocketClients.SocketClient.AZombied | src/main/cpp/common/socket_client.cpp:701-719 | Steps of the model: the host's health is cleared, then its descriptor marked with the time. |
| SocketClients.SocketClient.HangUp | src/main/cpp/common/socket_client.cpp:270-283 | Steps of the model: the descriptor is marked and closed, and its entries stay. |
| SocketClients.SocketClient.CloseNClean | src/main/cpp/common/socket_client.cpp:652-696 | Closes the descriptor and erases it, and nothing else, from every table but the marks. |
| SocketClients.SocketClient.ReapPass | src/main/cpp/common/socket_client.cpp:731-779 | Steps of the model; closes and erases exactly the expired descriptors, once each, with their callbacks, and connects their hosts anew or lists them. |
| SocketClients.SocketClient.Respond | src/main/cpp/common/socket_client.cpp:317-365 | The callback registered for the descriptor and the id of the frame gets the message and is removed; any other frame calls nothing. |
| SocketClients.SocketClient.SendMsg | src/main/cpp/common/socket_client.cpp:476-569 | True exactly if the host is healthy and the writer open; then one whole frame is appended, EPOLLOUT armed and the kernel told; a refused message leaves its callback registered. |
| ClientCallbacks.StepKeeps | src/main/cpp/common/socket_client.cpp:333-360 | Every step keeps each callback in the table from registration to its one exit, run once by a response and never otherwise. |
| ClientCallbacks.RunsAtMostOnce | src/main/cpp/common/socket_client.cpp:333-360 | A callback is called at most once in a run. |
| ClientCallbacks.LeavesOnce | src/main/cpp/common/socket_client.cpp:635-642 | A registered callback is in the table or has left it in exactly one way, by response, removal or reaping, and never comes back. |
| ClientCallbacks.CalledIfFound | src/main/cpp/common/socket_client.cpp:333-360 | A callback has been called, or is about to be by a read task that holds the mutex, exactly if a response has found it in the table under its descriptor and id. |
| ClientCallbacks.HealthDecides | src/main/cpp/common/socket_client.cpp:483-491 | A call that has tested the health of its host is registered or comes to the writer only if the status last recorded for the host then was healthy; if not, it never does either, and returns false. |
| ClientCallbacks.StatusIs | src/main/cpp/common/socket_client.cpp:188-193 | The status of a host is what was recorded for it last. |
| ClientCallbacks.CallGoesOn | src/main/cpp/common/socket_client.cpp:476-645 | A call that has not returned can take its next step, or a read task holds the mutex of the table and can go on. |
| ClientCallbacks.BlockingResult | src/main/cpp/common/socket_client.cpp:601-645 | A blocking call returns true exactly if its message was appended to a valid writer, or its callback was called between the assignment of that result and the return; a registered call with one descriptor has no answer exactly if the call or the reaper took its callback out of the table. |
| ClientCallbacks.RefusedStays | src/main/cpp/common/socket_client.cpp:498-511 | The callback of a call that does not block, once registered, is gone exactly if a response or the reaper took it, even if the message was refused. |
| ClientCallbacks.RefusedIsRegistered | src/main/cpp/common/socket_client.cpp:533-551 | A run in which the writer refuses a message: the call has returned false and its callback is in the table. |
| ClientCallbacks.CallerStillWaits | src/main/cpp/common/socket_client.cpp:588-647 | While the callback of a blocking call with one descriptor runs, that call has not returned. |
| ClientCallbacks.DanglesExactly | src/main/cpp/common/socket_client.cpp:588-647 | The callback of a blocking call can be called after it has returned if and only if the two descriptors it read differ. |
| ClientCallbacks.DescriptorsDiffer | src/main/cpp/common/socket_client.cpp:491-591 | The two descriptors differ exactly if the host was last recorded with another one between the two steps that read it. |
| ClientCallbacks.RefusedButAnswered | src/main/cpp/common/socket_client.cpp:601-645 | A run in which a peer answers a refused message in time: the call returns true. |
| ClientCallbacks.TimeoutReportsSuccess | src/main/cpp/common/socket_client.cpp:611-645 | A blocking call that gives up waiting returns true although its callback never ran. |

## Left out

- HTTP server, requests and responses: a thin layer over libmicrohttpd.
- SHA-1, uuid generation, the parsing of dates, running commands and the comparison of floating-point numbers: their content is in other libraries, or in single tests.
- System calls, name resolution, logging, the sample programs and the thread start-up.
- Freeing of mutexes: the model gives a descriptor's mutex no memory that could be freed while a task still waits for it.
- Reuse of a descriptor's number in `Transport` and `ClientCallbacks`: a number stands for one connection there. `ClientHosts` lets the number of a descriptor come back as soon as it is closed.
- Numbers of 2^32 bytes or more in one message, frame or read: excluded by preconditions.
- ThreadPool: waiting and notifying are steps of the model only; the methods of `ThreadPool.Pool` are the stretches between them, because a Dafny method cannot wait for another thread. Jobs are assumed to end and not to add work to their own pool.
- Transport: EPOLLERR and EPOLLHUP close the descriptor and end its events, and do no more; what a server makes before it sets a mask, a client makes on demand, which is modelled as being there from the start.
- Transport.RunKeeps: masks and read tokens are accounted for only as long as no toggle has come before the mask is set; after that only what `Transport.Base` says, and output by `Transport.StrandedExactly`.
- Transport.OutputNeverStranded: speaks of sfd_events; after a hang-up the kernel watches nothing, and output stays where it is until the descriptor is reaped.
- SocketServers.SocketServer.Read: the handler is called when the socket is drained and EPOLLIN armed; in the code it is called in between, for each piece that is read, so that a reply may be appended earlier. `Locks` and `Transport` place the handler inside the loop.
- Interest.BitOperations: the two-bit masks of the model stand for the 32-bit words of the code, of which no other bit is ever used.
- Locks: acquisitions inside the thread pools and of the condition variable's own mutex in a blocking send are not modelled, since nothing else is locked under them. Of what a response callback may do to the client, throwing and sending are modelled.
- DataRaces.AllGuarded: what a mutex protects is used by one action in its section, or without it; reads and writes are not told apart, and the pointers into the tables of readers and writers are covered by the mutexes of the descriptors.
- ClientHosts: the times at which the reaper acts are left open, so what is proved holds for any grace; the descriptor in the status of an unhealthy host, which the code leaves undefined, is -1.
- ClientHosts.HostsAccountedExactly: a thread that marks, closes or records a descriptor is assumed to finish before the descriptor is reaped.
- ClientCallbacks: the content of the responses is left open, and any response may come at any time on any descriptor.
- SocketClients.SocketClient.Respond: a callback that throws or sends is not modelled here; see `Locks`.
- SocketClients.SocketClient.MakeConnection: parsing of the host string and connecting are one outcome, success or failure.
- SocketClients: the read and write tasks, which differ from the server's only in making missing resources on the way; their steps are part of `Transport`.
- SocketUtils.EventTable.Arm: a failing `epoll_ctl` is only logged by the code, and changes nothing here.
