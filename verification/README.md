# CANopen SDO client, device lock and transmit queue

A Dafny model of the CANopen part of the SocketCAN plugin for ecmc, and proofs about it.

- `SdoProtocol.dfy` is the SDO client as a step function: one call of the real-time cycle, the
  reader thread or the asyn thread, on one SDO and the lock flag it shares. `SdoClient.dfy` is the
  class with its fields and buffers, each method proved to make exactly that step.
- `SdoFrames.dfy`, `SdoRuns.dfy`, `SdoSegments.dfy`: the frames of the client byte by byte, what one SDO keeps over
  every run (timeout, sampling, pending writes, received data), and segmentation.
- `SdoBank.dfy`, `UnlockSteps.dfy`: the SDOs of a device around their lock, at the grain of calls
  and at the finer grain in which `unlockSdo1` is three steps of either of two threads.
- `SdoServer.dfy`, `SdoTransfer.dfy`, `SdoLink.dfy`, `SdoProgress.dfy`: a server for section 7.2.4.3 of
  CiA 301, one transfer with it, and a whole device with two FIFO channels that may lose any frame.
  A frame that the full transmit queue drops is one of the losses, since the SDO ignores the result
  of `addWriteCAN`. The server sends a data segment of n bytes with data length code n + 1, as the
  client does; CiA 301 wants eight bytes in every SDO frame, and what the client makes of a server
  that pads its segments is in `SdoSegments.dfy`.
- `LeftFrames.dfy`, `StaleReplies.dfy`: what frames left under way by an earlier transfer do.
- `WriteQueue.dfy`, `WriteBuffer.dfy`: the double-buffered transmit queue, as steps and as a class.
- `Pdo.dfy`, `Heartbeat.dfy`, `Device.dfy`: process data objects, heartbeat supervision, and the
  device class whose loops are proved against the functions that the theorems are about.
- `Can.dfy`: frames, little-endian fields, cycle arithmetic.

Calls are the atomic steps, except in `UnlockSteps.dfy` and in the worker of the queue.
`dafny verify dfyconfig.toml` checks the project.

## Where the code departs from its documentation or from CiA 301

The model follows the code:

- A timeout counts execute cycles, although the limit is named in milliseconds.
- A timeout zeroes the temporary buffer but keeps a pending write, which then writes zeros
  (`SdoRuns.LastWriterStep` is the exact condition, `SdoRuns.TimeoutWritesZeros` a run).
- The read machine ignores toggle, unused-byte count and last-segment bit; padded segments only
  work for sizes divisible by 7 and full segments (`SdoSegments.PaddedReadCompletes`,
  `SdoSegments.PaddedReadDelivers`). Segment requests are 0x61/0x71.
- Nothing tells a reply to an earlier transfer from one to the present one, so frames that a timeout
  leaves under way can do harm. Of the replies it is exactly the SDO's own confirmation, the 0x60
  frame of a write and the 0x41 frame of a read (`LeftFrames.OnlyConfirmationsHarm`). Of the requests
  it is, for a read of seven bytes or more, every read request of its object, because the read then
  takes the second of two confirmations for data (`LeftFrames.ReadsNeedSafeLink`,
  `StaleReplies.LateReplyIsReadAsData`). A write, and a smaller read, may repeat its request, unless
  another object is opened behind the old one: a write of the same size, or another read
  (`LeftFrames.RepetitionsNeedSafeLink`, `LeftFrames.RetryIsDiverted`).
- `unlockSdo1` after a timeout checks only `busy_`, so an SDO that was released and has taken the
  lock again while the execute call waited loses it in the middle of its new transfer. Two SDOs can
  then be in a transfer at once, and `writeValue` can find the lock free with its own machine not idle
  (`UnlockSteps.ExclusionFails`; the exact condition is `UnlockSteps.OneOwnerStep`).
- A write of no bytes sends no segment.
- A received PDO does not restart its supervision, although the plugin's README describes the error
  as "not received within" the time (`Pdo.TimeoutIgnoresTraffic`).
- The master is not valid from its first execute on; pre-operational is stored as boot-up.

## Model

| member | source | states |
|---|---|---|
| SdoLink.CompletedTransfersDeliver | ecmc_plugin_socketcan/ecmc_plugin_socketcanApp/src/ecmcCANOpenSDO.cpp:295-454 | End-to-end safety for a whole device: any number of SDOs on one pair of lossy FIFO channels, a server for CiA 301 that hears only what is sent on `cobIdRx_` and cuts objects as it likes, any sizes, any interleaving of calls, deliveries, losses at any place and timeouts, from any state of the device and of the channels. A transfer whose SDO took the lock with nothing under way that could be taken for its start and lead it astray has delivered when it completes: a write left in the server's object exactly the bytes that `writeValue` took from the temporary buffer, a read has exactly the server's object in `dataBuffer_`, and nothing is left in the channels (but after a repeated read). Excluded are an old confirmation of it among the replies, and old requests for its object that another frame than a harmless one follows; so a write, and a read of fewer than seven bytes, may repeat a request that is still unserved. The condition is judged anew for each transfer |
| SdoLink.PlayStaysConsistent | ecmc_plugin_socketcan/ecmc_plugin_socketcanApp/src/ecmcCANOpenSDO.cpp:214-566 | The invariant behind it, over every run: one owner of the lock; while a safely opened transfer waits for its confirmation, only harmless frames are behind its requests and its confirmation; in its data phase the server stands where the transfer stands (buffer, toggle, announced size, bytes still to come) or cannot complete it |
| SdoLink.UntimedIsClean | ecmc_plugin_socketcan/ecmc_plugin_socketcanApp/src/ecmcCANOpenSDO.cpp:222-233 | In every run without timeout, from a device at rest with empty channels, every transfer is opened safely, and the channels are empty whenever the lock is free |
| SdoTransfer.ServeDownload | ecmc_plugin_socketcan/ecmc_plugin_socketcanApp/src/ecmcCANOpenSDO.cpp:359-439 | Whatever frames a safely opened write has under way, repeated requests included, each frame that the server takes leaves the server where it confirms the last segment only if it has stored the object of this SDO |
| SdoTransfer.ServeDownData | ecmc_plugin_socketcan/ecmc_plugin_socketcanApp/src/ecmcCANOpenSDO.cpp:359-439 | A write in step with the server: the server takes its segment as the next step of the same download: right key, size, toggle, bytes |
| SdoTransfer.ServeUpload | ecmc_plugin_socketcan/ecmc_plugin_socketcanApp/src/ecmcCANOpenSDO.cpp:295-332 | The same for a read transfer: received bytes, segment under way and rest at the server always make up the object |
| SdoTransfer.ServeAgain | ecmc_plugin_socketcan/ecmc_plugin_socketcanApp/src/ecmcCANOpenSDO.cpp:295-332 | And for a read of fewer than seven bytes that repeats an unserved request: received bytes, those under way and those still at the server are the object, or too few to complete |
| SdoTransfer.DeliverDownload | ecmc_plugin_socketcan/ecmc_plugin_socketcanApp/src/ecmcCANOpenSDO.cpp:359-410 | Every server answer either advances the write transfer, changes nothing, or ends it with the object stored |
| SdoTransfer.DeliverUpload | ecmc_plugin_socketcan/ecmc_plugin_socketcanApp/src/ecmcCANOpenSDO.cpp:295-357 | Every server answer either advances the read transfer, changes nothing, or ends it with the object read |
| SdoTransfer.DeliverAgain | ecmc_plugin_socketcan/ecmc_plugin_socketcanApp/src/ecmcCANOpenSDO.cpp:295-357 | The same for a repeated read; what is left under way after it cannot start another transfer |
| SdoTransfer.LossStaysLinked | ecmc_plugin_socketcan/ecmc_plugin_socketcanApp/src/ecmcSocketCANWriteBuffer.cpp:140-149 | No loss of a frame, wherever it is in its channel, breaks the invariant of a transfer |
| LeftFrames.OnlyConfirmationsHarm | ecmc_plugin_socketcan/ecmc_plugin_socketcanApp/src/ecmcCANOpenSDO.cpp:295-301 | Exactly which replies left under way do harm, for both directions: with these replies ahead and safe requests, every transfer that completes in a run without timeout has delivered, whatever the server is doing and whatever is lost, iff none of them is the SDO's own confirmation (the 0x60 or 0x41 frame with its index, subindex and, for a read, size) |
| LeftFrames.ReadsNeedSafeLink | ecmc_plugin_socketcan/ecmc_plugin_socketcanApp/src/ecmcCANOpenSDO.cpp:310-319 | For reads of seven bytes or more the condition is exact in both channels: every read that completes in a run without timeout has delivered, iff neither its confirmation nor a read request of its object was left under way when it took the lock |
| LeftFrames.RepetitionsNeedSafeLink | ecmc_plugin_socketcan/ecmc_plugin_socketcanApp/src/ecmcCANOpenSDO.cpp:359-370 | For writes of n > 0 bytes, and for reads of n > 0 bytes below seven, whose left requests carry no segment or segment request behind an own one: every transfer that completes in a run without timeout has delivered, iff no confirmation of it was left, and no own request followed by a download request of the same size for another object (for a read, by a read request for another object) |
| LeftFrames.RetriesDeliver | ecmc_plugin_socketcan/ecmc_plugin_socketcanApp/src/ecmcCANOpenSDO.cpp:222-237 | So a write or a small read may repeat its request after each timeout as often as it likes |
| LeftFrames.RetryIsDiverted | ecmc_plugin_socketcan/ecmc_plugin_socketcanApp/src/ecmcCANOpenSDO.cpp:222-237 | But not when the request of another SDO for another object (of the same size, for a write) is left in between: the server may answer the old request and then take the transfer for the other object |
| StaleReplies.StaleRepliesBreakDelivery | ecmc_plugin_socketcan/ecmc_plugin_socketcanApp/src/ecmcCANOpenSDO.cpp:222-233 | A run of the new device for the write direction (three writes, two timeouts with answers under way, two lost frames): the third write completes while the server still holds the second value |
| StaleReplies.LateReplyIsReadAsData | ecmc_plugin_socketcan/ecmc_plugin_socketcanApp/src/ecmcCANOpenSDO.cpp:310-319 | A run of the new device for the read direction: one timeout with the first reply, or even the first request, late, and no lost frame; the second read of seven bytes completes with bytes 1 to 7 of the confirmation frame in place of the server's object |
| SdoProgress.WriteCompletes | ecmc_plugin_socketcan/ecmc_plugin_socketcanApp/src/ecmcCANOpenSDO.cpp:359-439 | In every run without loss and timeout (executes, set and write calls of all SDOs, foreign frames and empty deliveries anywhere) a write of n > 0 bytes has ended, delivered, exactly when the client has taken 1 + ceil(n/7) frames, and the server as many; before that exactly one frame is under way |
| SdoProgress.ReadCompletes | ecmc_plugin_socketcan/ecmc_plugin_socketcanApp/src/ecmcCANOpenSDO.cpp:295-357 | In every such run a read whose object the server cuts into k segments has ended, delivered, exactly when the client has taken 1 + k frames, and the server as many, for every cut; before that exactly one frame is under way |
| SdoProgress.EveryTransferCanFinish | ecmc_plugin_socketcan/ecmc_plugin_socketcanApp/src/ecmcCANOpenSDO.cpp:295-410 | From every point of a transfer without loss the frames under way alone bring it to its delivered end: it never waits for something that nobody sends |
| SdoProgress.RequestOpensWrite | ecmc_plugin_socketcan/ecmc_plugin_socketcanApp/src/ecmcCANOpenSDO.cpp:499-537 | A `writeValue` that finds the lock free puts the transfer of the bytes set before on its way |
| SdoProgress.PendingOpensWrite | ecmc_plugin_socketcan/ecmc_plugin_socketcanApp/src/ecmcCANOpenSDO.cpp:234-237 | So does an execute that finds a write pending and the lock free |
| SdoProgress.ExpiredPeriodOpensRead | ecmc_plugin_socketcan/ecmc_plugin_socketcanApp/src/ecmcCANOpenSDO.cpp:239-262 | An execute that finds the lock free and the period expired puts a read request on its way |
| SdoServer.ServesReadRequest | ecmc_plugin_socketcan/ecmc_plugin_socketcanApp/src/ecmcCANOpenSDO.cpp:132-142 | The length announced by the server equals the client's expected confirmation frame iff the object has the client's size |
| SdoFrames.RequestBytes | ecmc_plugin_socketcan/ecmc_plugin_socketcanApp/src/ecmcCANOpenSDO.cpp:92-154 | The request frames byte by byte: all go to `cobIdRx_` with eight bytes, 0x40, 0x61, 0x71 and 0x21, the key low byte first and, for a write, the length low byte first |
| SdoFrames.ReplyBytes | ecmc_plugin_socketcan/ecmc_plugin_socketcanApp/src/ecmcCANOpenSDO.cpp:132-201 | The reply frames that are waited for, likewise: from `cobIdTx_`, 0x60, 0x20, 0x30, and 0x41 with the length |
| SdoFrames.ExampleOfTheSource | ecmc_plugin_socketcan/ecmc_plugin_socketcanApp/src/ecmcCANOpenSDO.cpp:93-107 | For object 0x2640 of 56 bytes of node 3 these are the frames that the source's comments show |
| SdoRuns.SentToServer | ecmc_plugin_socketcan/ecmc_plugin_socketcanApp/src/ecmcCANOpenSDO.cpp:92-154 | Over every run, whatever arrives: each frame an SDO sends has the identifier `cobIdRx_` and one to eight bytes |
| SdoBank.MutualExclusion | ecmc_plugin_socketcan/ecmc_plugin_socketcanApp/src/ecmcCANOpenSDO.cpp:499-566 | Over every interleaving of whole execute, receive, set and write calls of all SDOs of a device: at most one SDO is away from rest, the flag is set iff some (then exactly one) SDO is busy, an SDO that is not busy has both machines idle, so at this grain the branch of `writeValue` that would keep the lock is not reached |
| SdoBank.ExclusiveStep | ecmc_plugin_socketcan/ecmc_plugin_socketcanApp/src/ecmcCANOpenSDO.cpp:539-566 | Each call keeps that invariant, and an SDO that does not own the lock while another does stays silent and not busy |
| UnlockSteps.MutualExclusionAcrossUnlock | ecmc_plugin_socketcan/ecmc_plugin_socketcanApp/src/ecmcCANOpenSDO.cpp:558-566 | With `unlockSdo1` as three steps of either thread (wait for the mutex, clear the flag, reset `busy_`) and everything in between that does not need the mutex, a timed-out execute waiting for the mutex after its reset included: mutual exclusion holds in every run in which no SDO takes the lock again while a thread has still to unlock it for its previous transfer |
| UnlockSteps.OneOwnerStep | ecmc_plugin_socketcan/ecmc_plugin_socketcanApp/src/ecmcCANOpenSDO.cpp:222-233 | That condition per step, both ways: a step keeps the one-owner invariant iff it is not such a retaking of the lock |
| UnlockSteps.RetakingBreaksExclusion | ecmc_plugin_socketcan/ecmc_plugin_socketcanApp/src/ecmcCANOpenSDO.cpp:514-517 | And each such retaking leads, by the late unlock, to an SDO that could take the lock with its machine not idle, and from there with every other SDO of the device to two SDOs in a transfer |
| UnlockSteps.ExclusionFails | ecmc_plugin_socketcan/ecmc_plugin_socketcanApp/src/ecmcCANOpenSDO.cpp:222-233 | A run of the new device in which it happens: the 1001st execute times out while the reader unlocks the completed write, `writeValue` takes the lock again, the execute call unlocks it, and a second SDO takes it too; in between `writeValue` would find the lock free with the write machine not idle |
| UnlockSteps.PartsMakeExecute | ecmc_plugin_socketcan/ecmc_plugin_socketcanApp/src/ecmcCANOpenSDO.cpp:214-266 | Run without interruption the parts of an execute, timed out or not, are the execute call |
| UnlockSteps.PartsMakeReceive | ecmc_plugin_socketcan/ecmc_plugin_socketcanApp/src/ecmcCANOpenSDO.cpp:269-293 | Likewise for a received frame, completing or not |
| SdoBank.OneFrameOneSdo | ecmc_plugin_socketcan/ecmc_plugin_socketcanApp/src/ecmcCANOpenDevice.cpp:111-116 | The dispatch loop does to the device exactly what the frame does to the lock holder, even if the holder releases inside the loop; every other SDO, and a holder whose identifier does not match, is unchanged |
| SdoBank.LowestDueSdoWins | ecmc_plugin_socketcan/ecmc_plugin_socketcanApp/src/ecmcCANOpenDevice.cpp:77-81 | If the lock is free when the device cycle starts, at its end it is held iff some SDO was due, the holder is the due SDO of lowest index, and its opening frame is the only frame sent |
| SdoBank.CycleAllIsRun | ecmc_plugin_socketcan/ecmc_plugin_socketcanApp/src/ecmcCANOpenDevice.cpp:77-81 | The cycle loop is one execute of every SDO, whoever holds the lock |
| SdoBank.DispatchIsRun | ecmc_plugin_socketcan/ecmc_plugin_socketcanApp/src/ecmcCANOpenDevice.cpp:111-116 | The dispatch loop hands the frame to every SDO once |
| SdoBank.RunOfOneSdo | ecmc_plugin_socketcan/ecmc_plugin_socketcanApp/src/ecmcCANOpenDevice.cpp:206-226 | Every SDO of a device goes through a run of its own, with the same states, the same executes and the same frames sent, so all results about single SDOs hold inside the device |
| SdoRuns.CallAndLock | ecmc_plugin_socketcan/ecmc_plugin_socketcanApp/src/ecmcCANOpenSDO.cpp:539-566 | One call and the flag: afterwards the flag is set iff this SDO or another holds it, and an SDO that is not busy has both state machines idle |
| SdoRuns.HoldIsBounded | ecmc_plugin_socketcan/ecmc_plugin_socketcanApp/src/ecmcCANOpenSDO.cpp:214-233 | Whatever frames arrive and whatever the counter was left at, one transfer cannot hold the lock through 1001 executes |
| SdoRuns.HoldIsCounted | ecmc_plugin_socketcan/ecmc_plugin_socketcanApp/src/ecmcCANOpenSDO.cpp:214-233 | While one transfer holds the lock `busyCounter_` grows by exactly one per execute and never exceeds 1000 between calls |
| SdoRuns.TimeoutIsExact | ecmc_plugin_socketcan/ecmc_plugin_socketcanApp/src/ecmcCANOpenSDO.cpp:214-233 | A transfer that starts with or after an execute that found the SDO idle, or gave up an earlier transfer, is itself given up by the 1001st execute after that one and by no other |
| SdoRuns.TimeoutErrorIsSticky | ecmc_plugin_socketcan/ecmc_plugin_socketcanApp/src/ecmcCANOpenSDO.cpp:222-233 | The error code is 111 exactly from the first timeout on; no later success clears it |
| SdoRuns.NoTornReads | ecmc_plugin_socketcan/ecmc_plugin_socketcanApp/src/ecmcCANOpenSDO.cpp:310-350 | In every run of a read SDO, aborted transfers included: `recivedBytes_` stays within the size, the first `recivedBytes_` bytes are the accepted payloads in order, and `dataBuffer_` is the initial zeros or exactly the payload of the last finished transfer |
| SdoRuns.LastWriterStep | ecmc_plugin_socketcan/ecmc_plugin_socketcanApp/src/ecmcCANOpenSDO.cpp:485-537 | A call keeps the promise that the last value set is waiting or was carried by the transfer started last, iff it is not a timeout that hits a waiting value other than all zeros |
| SdoRuns.PendingWritesSurvive | ecmc_plugin_socketcan/ecmc_plugin_socketcanApp/src/ecmcCANOpenSDO.cpp:25-36 | Hence pending writes are never lost and the last writer wins in every run without such a timeout, with execute and frames interleaved between the `setValue` and the `writeValue` of the asyn callback |
| SdoRuns.TimeoutWritesZeros | ecmc_plugin_socketcan/ecmc_plugin_socketcanApp/src/ecmcCANOpenSDO.cpp:225-237 | The concrete failing run: a timeout zeroes the temporary buffer but keeps the pending flag, so zeros are written in place of the waiting value |
| SdoRuns.WriteStartsAreExact | ecmc_plugin_socketcan/ecmc_plugin_socketcanApp/src/ecmcCANOpenSDO.cpp:214-237 | Over every run of a new write SDO: a call starts a write iff it is a call to write, or an execute behind a refused call to write that no write has followed, and the lock is free or freed by this execute's own timeout; no more writes start than were called for |
| SdoRuns.RequestsAreSpaced | ecmc_plugin_socketcan/ecmc_plugin_socketcanApp/src/ecmcCANOpenSDO.cpp:239-257 | Two read requests of one SDO are at least ceil(R/E) + 1 executes apart |
| SdoRuns.FirstRequestIsExact | ecmc_plugin_socketcan/ecmc_plugin_socketcanApp/src/ecmcCANOpenSDO.cpp:239-262 | Over every run of a new read SDO: a call sends the first read request iff it is an execute, finds the lock free, and ceil(R/E) executes came before |
| SdoRuns.NextRequestIsExact | ecmc_plugin_socketcan/ecmc_plugin_socketcanApp/src/ecmcCANOpenSDO.cpp:239-262 | After a read request, with no timeout since: a call sends the next one iff it is an execute that finds the lock free with no transfer of its own, and ceil(R/E) executes came between |
| SdoRuns.TimeoutRestartsPeriod | ecmc_plugin_socketcan/ecmc_plugin_socketcanApp/src/ecmcCANOpenSDO.cpp:222-262 | If R > 0 the execute that times out sends nothing, and the next request is sent by the first execute from the ceil(R/E)-th after it on that finds the lock free |
| SdoRuns.SamplingCounterIsBounded | ecmc_plugin_socketcan/ecmc_plugin_socketcanApp/src/ecmcCANOpenSDO.cpp:239-249 | In every reachable state of a read SDO the sampling counter times the cycle stays below R + E |
| SdoSegments.TransferSendsSnapshot | ecmc_plugin_socketcan/ecmc_plugin_socketcanApp/src/ecmcCANOpenSDO.cpp:413-439 | Snapshot isolation and exact segmentation: after the request, a transfer sends a prefix of the segments of the bytes `dataBuffer_` got when the lock was acquired, however many values are set meanwhile; segment i has toggle i mod 2, nnn = 7 minus its length, c on the last only |
| SdoSegments.StartOfTransfer | ecmc_plugin_socketcan/ecmc_plugin_socketcanApp/src/ecmcCANOpenSDO.cpp:514-531 | A starting transfer carries what the temporary buffer held, or zeros if the same execute timed out before |
| SdoSegments.SendingStep | ecmc_plugin_socketcan/ecmc_plugin_socketcanApp/src/ecmcCANOpenSDO.cpp:380-404 | A segment is sent only in answer to the confirmation of the previous one with its own toggle (of the request, for the first) |
| SdoSegments.CompletionIsExact | ecmc_plugin_socketcan/ecmc_plugin_socketcanApp/src/ecmcCANOpenSDO.cpp:382-398 | A frame ends a write transfer iff all ceil(n/7) segments were sent and it confirms the last one with its toggle |
| SdoSegments.CompletedWriteSentObject | ecmc_plugin_socketcan/ecmc_plugin_socketcanApp/src/ecmcCANOpenSDO.cpp:380-439 | A write that completes has sent after its request exactly ceil(n/7) segments, and their payloads one behind the other are the bytes that the temporary buffer held when the transfer started (zeros after a timeout in the same execute) |
| SdoSegments.SegmentsConcatenate | ecmc_plugin_socketcan/ecmc_plugin_socketcanApp/src/ecmcSocketCANDefs.h:69-74 | The payloads of the ceil(n/7) segments are the object |
| SdoSegments.SegmentBytes | ecmc_plugin_socketcan/ecmc_plugin_socketcanApp/src/ecmcSocketCANDefs.h:69-74 | Segment i byte by byte: command 16(i mod 2) and seven bytes, but for the last one 16(i mod 2) + 2(7 - rest) + 1 and the rest |
| SdoSegments.RequestsAlternate | ecmc_plugin_socketcan/ecmc_plugin_socketcanApp/src/ecmcCANOpenSDO.cpp:303-329 | The k-th segment request of a read transfer, from 0, carries toggle k mod 2, whatever arrives |
| SdoSegments.SegmentRoundTrip | ecmc_plugin_socketcan/ecmc_plugin_socketcanApp/src/ecmcCANOpenSDO.cpp:310-350 | Feeding the segments of an object to a waiting read machine of the same size reproduces it and reaches READ_IDLE on the last segment and not before |
| SdoSegments.RoundTripPrefix | ecmc_plugin_socketcan/ecmc_plugin_socketcanApp/src/ecmcCANOpenSDO.cpp:310-334 | After the first k segments exactly the first 7k bytes have been read |
| SdoSegments.PaddedProgress | ecmc_plugin_socketcan/ecmc_plugin_socketcanApp/src/ecmcCANOpenSDO.cpp:310-334 | Against segments padded to eight bytes the received count stops at 7*floor(n/7) while requests keep alternating |
| SdoSegments.PaddedReadCompletes | ecmc_plugin_socketcan/ecmc_plugin_socketcanApp/src/ecmcCANOpenSDO.cpp:310-334 | Such a read of n > 0 bytes can complete iff 7 divides n |
| SdoSegments.PaddedReadDelivers | ecmc_plugin_socketcan/ecmc_plugin_socketcanApp/src/ecmcCANOpenSDO.cpp:310-334 | A server that pads its segments to eight bytes: a way to cut the object into segments makes the client read every object of that size correctly iff all segments are full |
| SdoClient.SdoObject.Execute | ecmc_plugin_socketcan/ecmc_plugin_socketcanApp/src/ecmcCANOpenSDO.cpp:214-266 | The method makes exactly the protocol step: new SDO state, flag and queued frames (the results on single SDOs, timeout and sampling included, are about this step) |
| SdoClient.SdoObject.NewRxFrame | ecmc_plugin_socketcan/ecmc_plugin_socketcanApp/src/ecmcCANOpenSDO.cpp:269-293 | Likewise for a received frame, of any length but one that would make the read copy a negative length |
| SdoClient.SdoObject.ReadDataStateMachine | ecmc_plugin_socketcan/ecmc_plugin_socketcanApp/src/ecmcCANOpenSDO.cpp:295-357 | Likewise for the read machine |
| SdoClient.SdoObject.WriteDataStateMachine | ecmc_plugin_socketcan/ecmc_plugin_socketcanApp/src/ecmcCANOpenSDO.cpp:359-410 | Likewise for the write machine |
| SdoClient.SdoObject.WriteNextDataToSlave | ecmc_plugin_socketcan/ecmc_plugin_socketcanApp/src/ecmcCANOpenSDO.cpp:413-439 | Likewise for one segment; returns the number of bytes it took |
| SdoClient.SdoObject.WriteWaitForDataConfFrame | ecmc_plugin_socketcan/ecmc_plugin_socketcanApp/src/ecmcCANOpenSDO.cpp:441-454 | True iff the frame is the confirmation with the given toggle |
| SdoClient.SdoObject.FrameEqual | ecmc_plugin_socketcan/ecmc_plugin_socketcanApp/src/ecmcCANOpenSDO.cpp:456-471 | Comparing identifier, length and eight bytes is equality of frames |
| SdoClient.SdoObject.SetValue | ecmc_plugin_socketcan/ecmc_plugin_socketcanApp/src/ecmcCANOpenSDO.cpp:485-497 | Copies ODSize_ bytes into the temporary buffer, or nothing for an empty value |
| SdoClient.SdoObject.WriteValue | ecmc_plugin_socketcan/ecmc_plugin_socketcanApp/src/ecmcCANOpenSDO.cpp:499-537 | Starts a transfer iff not busy and the flag is clear, else leaves the request pending; 0 is returned iff this call handed the download request of the temporary buffer to the queue, 110 iff it left a write pending |
| SdoClient.SdoObject.TryLockSdo1 | ecmc_plugin_socketcan/ecmc_plugin_socketcanApp/src/ecmcCANOpenSDO.cpp:539-556 | Succeeds iff the SDO is not busy and the flag was clear, and then sets both |
| SdoClient.SdoObject.UnlockSdo1 | ecmc_plugin_socketcan/ecmc_plugin_socketcanApp/src/ecmcCANOpenSDO.cpp:558-566 | Clears flag and busy together, only if busy |
| SdoClient.SdoObject.constructor | ecmc_plugin_socketcan/ecmc_plugin_socketcanApp/src/ecmcCANOpenSDO.cpp:55-92 | A new SDO is at rest, zeroed, not busy, nothing pending |
| WriteQueue.RefinesFifo | ecmc_plugin_socketcan/ecmc_plugin_socketcanApp/src/ecmcSocketCANWriteBuffer.cpp:69-107 | With adds between any two steps of the worker, frames handed to `writeCAN` ++ rest of the write buffer ++ add buffer are the accepted frames in order, each once, where accepted means that fewer than 128 waited; at most 256 in flight |
| WriteQueue.ApplyKeepsSound | ecmc_plugin_socketcan/ecmc_plugin_socketcanApp/src/ecmcSocketCANWriteBuffer.cpp:140-177 | Every step keeps the invariant, and the buffer swapped in for adding is empty |
| WriteQueue.WorkerDrains | ecmc_plugin_socketcan/ecmc_plugin_socketcanApp/src/ecmcSocketCANWriteBuffer.cpp:69-98 | From every reachable state the worker alone hands over everything accepted, in an exactly counted number of steps |
| WriteQueue.AddIsExact | ecmc_plugin_socketcan/ecmc_plugin_socketcanApp/src/ecmcSocketCANWriteBuffer.cpp:140-149 | An add is accepted, at the end of the buffer being filled, iff fewer than 128 frames wait in it; otherwise nothing changes |
| WriteQueue.NoFrameIsDroppedWhileThereIsRoom | ecmc_plugin_socketcan/ecmc_plugin_socketcanApp/src/ecmcSocketCANWriteBuffer.cpp:69-149 | From every reachable state any list of frames that fits into the 128 slots is accepted in full, and the worker hands it over behind everything accepted before |
| WriteQueue.ErrorIsLast | ecmc_plugin_socketcan/ecmc_plugin_socketcanApp/src/ecmcSocketCANWriteBuffer.cpp:134-166 | The summary error is the last non-zero write result since it was last taken |
| WriteBuffer.SocketCanWriteBuffer.AddWriteCan | ecmc_plugin_socketcan/ecmc_plugin_socketcanApp/src/ecmcSocketCANWriteBuffer.cpp:100-149 | Returns 0 and puts the frame at the end of the add buffer iff fewer than 128 frames wait there, else returns 10 and changes nothing |
| WriteBuffer.SocketCanWriteBuffer.SwitchBuffer | ecmc_plugin_socketcan/ecmc_plugin_socketcanApp/src/ecmcSocketCANWriteBuffer.cpp:168-177 | Swaps the two pointers, which never alias |
| WriteBuffer.SocketCanWriteBuffer.HandOverFrame | ecmc_plugin_socketcan/ecmc_plugin_socketcanApp/src/ecmcSocketCANWriteBuffer.cpp:158-163 | One iteration of the drain loop, with any result of the socket write |
| WriteBuffer.SocketCanWriteBuffer.WriteBuffer | ecmc_plugin_socketcan/ecmc_plugin_socketcanApp/src/ecmcSocketCANWriteBuffer.cpp:151-166 | Hands over the whole write buffer in order, then empties it, with adders between any two iterations of the loop |
| WriteBuffer.SocketCanWriteBuffer.WorkerPass | ecmc_plugin_socketcan/ecmc_plugin_socketcanApp/src/ecmcSocketCANWriteBuffer.cpp:69-98 | One pass of the worker loop, with adders between any two of its steps, hands over everything accepted before it, in order, and nothing that was not accepted |
| WriteBuffer.SocketCanWriteBuffer.GetLastWritesErrorAndReset | ecmc_plugin_socketcan/ecmc_plugin_socketcanApp/src/ecmcSocketCANWriteBuffer.cpp:134-138 | Returns the summary error and resets it |
| Pdo.FreshPdoWritesCyclically | ecmc_plugin_socketcan/ecmc_plugin_socketcanApp/src/ecmcCANOpenPDO.cpp:111-119 | In n executes a write PDO of cycle W > 0 makes exactly floor(n / ceil(W/E)) cyclic writes, whatever is set, written on demand or received in between |
| Pdo.WritesAreCyclic | ecmc_plugin_socketcan/ecmc_plugin_socketcanApp/src/ecmcCANOpenPDO.cpp:111-119 | The same from any position in the cycle; the counter is the number of executes modulo the period |
| Pdo.FramesCarryLastValue | ecmc_plugin_socketcan/ecmc_plugin_socketcanApp/src/ecmcCANOpenPDO.cpp:167-182 | Every frame a PDO sends carries on the wire the last value set (of a read PDO: set or received) |
| Pdo.SentIsCounted | ecmc_plugin_socketcan/ecmc_plugin_socketcanApp/src/ecmcCANOpenPDO.cpp:111-119 | In every run a PDO sends one frame for each write on demand and one for each cyclic write, and no other |
| Pdo.OnlyOnDemand | ecmc_plugin_socketcan/ecmc_plugin_socketcanApp/src/ecmcCANOpenPDO.cpp:111-119 | A write PDO without a cycle, and a read PDO, send none in an execute: in every run one frame for each write on demand is all |
| Pdo.TimeoutIgnoresTraffic | ecmc_plugin_socketcan/ecmc_plugin_socketcanApp/src/ecmcCANOpenPDO.cpp:99-109 | The n-th execute of a read PDO reports the timeout iff n is a multiple of max(1, ceil(T/E)), whether or not PDOs arrived |
| Pdo.SilenceIsReported | ecmc_plugin_socketcan/ecmc_plugin_socketcanApp/src/ecmcCANOpenPDO.cpp:99-142 | Without a valid PDO the error appears after one period at the latest and stays |
| Pdo.ErrorIsExact | ecmc_plugin_socketcan/ecmc_plugin_socketcanApp/src/ecmcCANOpenPDO.cpp:97-142 | The error of a read PDO after any run is 100 iff some execute whose number is a multiple of the period comes after the last valid PDO, and 0 otherwise |
| Pdo.PdoObject.Execute | ecmc_plugin_socketcan/ecmc_plugin_socketcanApp/src/ecmcCANOpenPDO.cpp:97-123 | The method makes exactly the PDO step and queues its frame, if any |
| Pdo.PdoObject.NewRxFrame | ecmc_plugin_socketcan/ecmc_plugin_socketcanApp/src/ecmcCANOpenPDO.cpp:126-142 | Takes a frame of matching identifier and length and clears the error |
| Pdo.PdoObject.SetValue | ecmc_plugin_socketcan/ecmc_plugin_socketcanApp/src/ecmcCANOpenPDO.cpp:167-171 | Takes the first ODSize_ bytes of the 64-bit value |
| Pdo.PdoObject.WriteValue | ecmc_plugin_socketcan/ecmc_plugin_socketcanApp/src/ecmcCANOpenPDO.cpp:173-182 | Queues one frame with the current value and returns the queue's error |
| Heartbeat.HeartbeatIsSupervised | ecmc_plugin_socketcan/ecmc_plugin_socketcanApp/src/ecmcCANOpenDevice.cpp:84-170 | After every run whose last heartbeat, on 0x700 + id, has one byte, and k executes since: up to k = ceil(H/E) the state is boot-up iff the byte is 0x00 or 0x7F, stopped iff 0x04, operational iff 0x05, not valid iff any other; later it is not valid. The previous state follows one execute behind; the counter is min(k, ceil(H/E)); other frames do not matter |
| Heartbeat.OtherLengthOnlyRestarts | ecmc_plugin_socketcan/ecmc_plugin_socketcanApp/src/ecmcCANOpenDevice.cpp:139-170 | A heartbeat of any other length restarts the supervision and shows what was shown before |
| Heartbeat.NothingHeard | ecmc_plugin_socketcan/ecmc_plugin_socketcanApp/src/ecmcCANOpenDevice.cpp:139-170 | Until the first heartbeat a device is not valid |
| Heartbeat.OwnHeartbeatPasses | ecmc_plugin_socketcan/ecmc_plugin_socketcanApp/src/ecmcCANOpenDevice.cpp:127-137 | The node filter never drops the node's own 0x700 + id frame |
| Heartbeat.ValidFrameIsOwn | ecmc_plugin_socketcan/ecmc_plugin_socketcanApp/src/ecmcCANOpenDevice.cpp:127-137 | The node filter passes exactly the identifiers 128 * code + node id, for all function codes |
| Heartbeat.PreOperationalIsNeverShown | ecmc_plugin_socketcan/ecmc_plugin_socketcanApp/src/ecmcCANOpenDevice.cpp:154-156 | No run ever shows the pre-operational state |
| Heartbeat.MasterIsValidOnlyBeforeExecute | ecmc_plugin_socketcan/ecmc_plugin_socketcanApp/src/ecmcCANOpenMaster.cpp:34-49 | The master's zero timeout makes it not valid from its first execute on, for good |
| Device.DeviceObject.Execute | ecmc_plugin_socketcan/ecmc_plugin_socketcanApp/src/ecmcCANOpenDevice.cpp:68-94 | All PDOs, then all SDOs in index order, then the heartbeat timeout; the frames are queued in that order |
| Device.DeviceObject.NewRxFrame | ecmc_plugin_socketcan/ecmc_plugin_socketcanApp/src/ecmcCANOpenDevice.cpp:97-124 | Drops frames of other nodes unless master; otherwise forwards to all PDOs and SDOs and checks for a heartbeat |
| Device.CallAllIsEach | ecmc_plugin_socketcan/ecmc_plugin_socketcanApp/src/ecmcCANOpenDevice.cpp:70-109 | The PDO loops make each PDO's own step once |
| Device.CallAllSendsInOrder | ecmc_plugin_socketcan/ecmc_plugin_socketcanApp/src/ecmcCANOpenDevice.cpp:70-75 | The frames of the PDO loop are those that each PDO sends on its own, in the order of the indices |
| Device.DeviceObject.ValidateFrame | ecmc_plugin_socketcan/ecmc_plugin_socketcanApp/src/ecmcCANOpenDevice.cpp:127-137 | True iff the identifier is some function code times 128 plus the node id |
| Device.DeviceObject.CheckNmt | ecmc_plugin_socketcan/ecmc_plugin_socketcanApp/src/ecmcCANOpenDevice.cpp:139-170 | A frame on 0x700 + id restarts the supervision and, with one byte, sets the state: stopped iff 0x04, operational iff 0x05, boot-up iff 0x00 or 0x7F, else not valid; no other frame changes anything; PDOs and SDOs are untouched |
| Device.DeviceObject.AddSdo | ecmc_plugin_socketcan/ecmc_plugin_socketcanApp/src/ecmcCANOpenDevice.cpp:197-226 | Appends a fresh SDO on the shared lock, at most eight, else error 1001 and nothing changes |
| Device.DeviceObject.AddPdo | ecmc_plugin_socketcan/ecmc_plugin_socketcanApp/src/ecmcCANOpenDevice.cpp:172-195 | Appends a fresh PDO, at most eight, else error 1000 and nothing changes |

## Left out

- CompletedTransfersDeliver: a transfer that finds an own old request followed by an old segment of a download (for a read below seven bytes, also by an old request for a segment) is excluded without a proof that each such frame does harm; with no such frame left, or for a read of seven bytes or more, the condition is exact (RepetitionsNeedSafeLink, ReadsNeedSafeLink). Nor is that claimed for a read of no bytes that repeats its request.
- CompletedTransfersDeliver: after a repeated read, frames of that read may be left in the channels; they cannot start another transfer of the SDO.
- CompletedTransfersDeliver: all SDOs of the device use one pair of identifiers, as the default SDO channel of CiA 301 has it; set and write calls go to write SDOs only, as the plugin registers the asyn callback for these only.
- WriteCompletes: starts with empty channels but for the request, and says nothing of n = 0, where the code waits for the confirmation of a segment that it never sends.
- NewRxFrame: a frame with no byte at all is excluded where a read has already received data, because the source then copies with a length of -1; everywhere else such a frame is handled.
- SetValue: the source of the copy has at least ODSize_ bytes, because the source reads that many whatever length it is told.
- CallbackOrder: an asyn write carries at least one byte and its request follows its set on the same thread.
- MutualExclusionAcrossUnlock: calls are cut at `unlockSdo1` and between the parts of execute; data races inside these parts of two threads on one SDO are not modelled. Any SDO may be asked to write here, although the plugin asks write SDOs only.
- Integer overflow: sizes are below 2^31 as the shell command's argument type makes them, and the products of cycle counter and sample time are taken to fit an `int`; they stay below period plus cycle.
- PDO sizes above eight bytes, for which the source's length code and buffer disagree.
- `sdos_` and `pdos_` are sequences of the objects added so far, in place of arrays of eight pointers with a counter.
- `SuperviseReply`, `SampleRead`, `CollectPayload`, `HandOverAll`, `SwitchAndWrite`, `ConfirmRequest`, `ConfirmSegment`, `GiveUp`, `CopyIntoTemp` and the one-member methods of the device are parts of the source's longer functions.
- Refresh flags, asyn parameters, debug output, names, the unused counters of the device and the destructor flag of the queue's worker.
- Sockets, threads, connecting and reading: a write to the socket is an arbitrary result code, received frames are arbitrary.
- The master's constructor, which adds three cyclic PDOs; `ecmcSocketCAN.cpp`, the shell commands, the plugin glue and the byte-to-array subroutine.
