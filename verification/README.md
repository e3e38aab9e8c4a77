# Verification of the espresso companion firmware

This project models the parts of the firmware whose correctness does not depend on a particular chip, and proves them
with Dafny 4.11. `dafny verify dfyconfig.toml` checks everything.

The firmware reads an Acaia scale over Bluetooth, listens to the pump with a motion sensor, keeps the Bluetooth radio off
while nobody needs it, and serves a small web interface. The model follows it component by component.

* **Wire codec** (`AcaiaWire`, `AcaiaEvents`, `AcaiaSamples`, `FrameStream`, `FrameFramer`). Frames `EF DD type length body ck ck` arrive in
  arbitrary pieces and are reassembled in a 64-byte buffer. The buffer machine is proved equal to one left-to-right scan of
  the whole stream, and the scan is proved to lose a valid frame only where an earlier delivered frame covers its start. What a
  scale packs into a sample comes out of the decoder as it went in.
* **Spectrum** (`Roots`, `Windows`, `Dft`, `BitReversal`, `FftStages`, `FftEngine`, `Tones`, `ToneReadings`, `OneTurn`). The in-place
  radix-2 transform with its incremental tables is proved equal to the naive Fourier sum, from the algebraic laws of the twiddle
  factors alone; the window sums behind its calibration, and what the calibrated engine reads of a tone, are computed exactly.
  `src/util/fft.h` promises a reading of 1 at a tone's bin. That holds under the rectangular window at every bin, and under the other
  two, whose values go around in N - 1 steps, at a single bin: at every other bin they read high.
* **Peaks** (`Sorting`, `Ranking`, `TopK`, `PeakClusters`, `BackgroundNoise`). The heap selection, the clustering sweep and the background
  estimate built on them.
* **Radio** (`Clock`, `ControllerTransition`, `ScaleRadio`, `RadioRuns`, `BleLifecycle`, `RadioWorld`, `RadioSettling`,
  `PowerManager`, `RadioRounds`, `RadioDemand`). The state machine that starts and stops the Bluetooth controller, its caller, and the command queue
  it talks to. `RadioRuns` leaves every answer of the environment open; `RadioWorld` interleaves the caller with the manager task;
  `RadioSettling` shows that the two come to rest if the service lets go when asked to, and `RadioRounds` that power manager and
  service do so whatever link the service has. `RadioDemand` says where they come to rest, in terms of policy, demand, display,
  diagnostic lease and link. The machine's promise of one retry for each occasion has a reachable exception, a
  contrary request that outlives the wait for it, which `RadioWorld` gives exactly.
* **BLE service** (`BleService`, `BleTraffic`, `BleReadings`). Modes, link states, connection epochs, notification generations and the manager's
  loop, with scan hits, disconnects and notifications as further methods that may come in any order. Its `Valid()` is the invariant
  of every tick boundary, `BleTraffic` keeps it over every sequence of calls, and `BleReadings` follows packed samples through a
  notification to the published values.
* **Event stream** (`SseTickets`, `SseServer`, `SseTakeover`). The ticket slot, and the server as an interleaving of single accesses to the shared
  variables by its owner, its own task, a sleeper and the ticket routes. `SseTakeover` shows that a session ends within three steps
  of being told to, and the one interleaving in which a sleeper undoes a takeover.
* **JSON** (`JsonText`, `JsonRoundTrip`, `JsonStream`). The buffered writer against a parser of RFC 8259, sections 2 to 7.
* **Backflush, pump signal** (`Backflush`, `WindowTrigger`, `WindowHistory`, `PumpDecay`, `PumpSignal`). Machines over runs of timed reports and frames.
* **Access and network** (`Hex`, `Pairing`, `AuthTokens`, `AuthRuns`, `WifiRequests`, `WifiManager`, `WifiRuns`). The persisted token list
  under failing storage, the pairing window, the request latch, and the station state under stale driver events and its timeout.

Code that changes things step by step is modelled by classes, arrays and loops, each method proved against a specification on values;
the theorems about whole runs are stated about those specifications. `millis()` is a 32-bit counter that wraps (`Clock`). Each method
or callback is one atomic step, except in `SseServer`, where a step is one access to a shared variable, and in `RadioWorld`, where the
decision chain is cut at its three contacts with the service.

## Model

| member | source | states |
|---|---|---|
| AcaiaWire.Checksum | src/ble/AcaiaV2Codec.cpp:30-40 | the two checksum bytes are the byte sums of the even and of the odd positions, each modulo 256 |
| AcaiaWire.Pack | src/ble/AcaiaV2Codec.cpp:44-57 | the packed bytes are header, type, payload and the checksum pair of the payload; the count of bytes is returned |
| AcaiaWire.ParseWireFrame | src/ble/AcaiaV2Codec.cpp:59-83 | a frame is returned exactly for a buffer of the right length with header, admissible length byte and matching checksums, and it carries the type, body and payload found there |
| AcaiaWire.PackParseRoundTrip | src/ble/AcaiaV2Codec.cpp:44-83 | parsing what was packed succeeds if and only if the payload has 1 to 59 bytes and counts itself, and then gives back type and payload |
| AcaiaWire.ParsePackRoundTrip | src/ble/AcaiaV2Codec.cpp:44-83 | every frame that parses is the packed form of the type and body it parses to |
| AcaiaWire.BodyByteCorruption | src/ble/AcaiaV2Codec.cpp:30-83 | changing one body byte of a valid frame makes it unparseable |
| AcaiaWire.SingleByteCorruption | src/ble/AcaiaV2Codec.cpp:30-83 | a frame with exactly one byte changed still parses if and only if the changed byte is the message type |
| AcaiaWire.WireLayout | src/ble/AcaiaV2Codec.cpp:18-57 | the packed bytes are EF DD, the type, the payload and the sums of its first, third, fifth bytes and of its second, fourth, sixth bytes, modulo 256 |
| AcaiaEvents.TagAgreesWithEmission | src/ble/AcaiaV2Codec.cpp:85-126 | the diagnostic tag of a verified EVENT frame and the event it emits agree, sample kind by sample kind, with the exact lengths at which a tagged sample is too short to emit |
| AcaiaSamples.WeightDecodes | src/ble/AcaiaV2Codec.cpp:344-364 | a sample packed from a 32-bit count, a decimal exponent, sign, stability and a timer decodes to the weight that times ten to the exponent is the signed count, with that stability and that timer |
| AcaiaSamples.TimerDecodes | src/ble/AcaiaV2Codec.cpp:117-127 | minutes, seconds and tenths of any time below 256 minutes add up to that time in milliseconds |
| AcaiaSamples.TimerSampleDecodes | src/ble/AcaiaV2Codec.cpp:370-373 | a timer sample emits a timer event with that time |
| AcaiaSamples.ResponseCarriesSample | src/ble/AcaiaV2Codec.cpp:379-388 | a weight or timer sample inside a heartbeat response decodes like the bare sample |
| AcaiaSamples.FrameEmits | src/ble/AcaiaV2Codec.cpp:329-349 | a sample packed into an event frame parses, and emits what the sample decodes to |
| AcaiaSamples.TagsByNumber | src/ble/AcaiaV2Codec.cpp:85-115 | which tag each message type and each sample number gets, and the lengths from which a nested sample counts, in numbers |
| FrameStream.ScanResumes | src/ble/AcaiaV2Codec.cpp:202-227 | scanning a concatenation is scanning the first part and resuming from what it left over |
| FrameStream.ChunkingIsInvisible | src/ble/AcaiaV2Codec.cpp:170-177 | how the link splits the stream into notifications never changes what is delivered, rejected or left over |
| FrameStream.ScanRest | src/ble/AcaiaV2Codec.cpp:202-227 | what a scan leaves over is an undecided suffix shorter than the 64-byte buffer |
| FrameStream.SkipNoiseKeepsScan | src/ble/AcaiaV2Codec.cpp:239-253 | dropping bytes up to the next header, or a trailing first header byte, loses no outcome |
| FrameStream.SlotsInOrder | src/ble/AcaiaV2Codec.cpp:202-237 | delivered frames are disjoint slices of the input, in input order |
| FrameStream.SlotsAreReported | src/ble/AcaiaV2Codec.cpp:202-227 | the delivered frames of a scan are exactly its slots, byte for byte |
| FrameStream.NoFrameLost | src/ble/AcaiaV2Codec.cpp:202-276 | a valid frame that starts at p is delivered by the time the 63 bytes from p on have arrived, if and only if no earlier delivered frame straddles p |
| FrameStream.PackedFrameScans | src/ble/AcaiaV2Codec.cpp:44-57 | a packed frame alone on the line is delivered as the only outcome and nothing is left over |
| FrameFramer.Framer.constructor | src/ble/AcaiaV2Codec.h:143-163 | a new receiver is waiting on nothing |
| FrameFramer.Framer.Reset | src/ble/AcaiaV2Codec.h:145-148 | after a reset the receiver is as after construction |
| FrameFramer.Framer.Push | src/ble/AcaiaV2Codec.cpp:170-177 | the callbacks of one notification are exactly what the offline scan of everything received finds in addition, and the buffer keeps what that scan is still waiting on |
| FrameFramer.Framer.AppendByte | src/ble/AcaiaV2Codec.cpp:179-200 | one byte is stored, or dropped at the door when it cannot belong to a header; a full buffer starts over |
| FrameFramer.AppendIsScanned | src/ble/AcaiaV2Codec.cpp:179-200 | dropping noise at the door changes no outcome of the scan |
| FrameFramer.NeverFull | src/ble/AcaiaV2Codec.cpp:179-200 | between two bytes the buffer is never full, so the branch that starts a full buffer over is unreachable |
| FrameFramer.Framer.Drain | src/ble/AcaiaV2Codec.cpp:202-227 | draining takes every decided outcome off the front of the buffer, in order, and terminates |
| FrameFramer.Framer.RejectFront | src/ble/AcaiaV2Codec.cpp:255-276 | a rejected front is reported and the search goes on one byte later |
| FrameFramer.Framer.Discard | src/ble/AcaiaV2Codec.cpp:229-237 | the first n buffered bytes are removed and the rest moves to the front |
| FrameFramer.Framer.SyncToHeader | src/ble/AcaiaV2Codec.cpp:239-253 | afterwards the buffer starts with a header, a lone first header byte, or is empty, and nothing but noise was dropped |
| FrameFramer.Framer.ResyncAfterReject | src/ble/AcaiaV2Codec.cpp:262-276 | after a rejection the search resumes exactly one byte on |
| FrameFramer.RejectedReports | src/ble/AcaiaV2Codec.cpp:202-227 | a callback is tagged Rejected exactly for garbled bytes and for verified EVENT frames without a sub-event, and those emit nothing |
| FrameFramer.ScanVerifies | src/ble/AcaiaV2Codec.cpp:202-227 | every delivered frame is checksum-valid |
| BitReversal.RevInvolutive | src/util/fft.cpp:71-81 | bit reversal undoes itself, so the table is a permutation |
| BitReversal.RevMirrorsBits | src/util/fft.cpp:71-81 | bit i of the reversed index is bit m-1-i of the index |
| BitReversal.RevOfSum | src/util/fft.cpp:76-80 | the reversal of 2^i + j is the sum of the reversals, which is what the table loop relies on |
| FftEngine.ReversalIsInjective | src/util/fft.cpp:174-187 | no two samples are loaded into the same place |
| Roots.WAdd | src/util/fft.cpp:83-95 | twiddle exponents add: consequence of the algebraic laws of the angles |
| Roots.WHalf | src/util/fft.cpp:83-95 | half a turn negates a twiddle |
| Roots.QuarterTurnsAreRoots | src/util/fft.cpp:83-95 | the laws assumed of the angles are satisfiable: quarter turns obey them for four points |
| Roots.QuarterSymmetry | src/util/fft.cpp:90-95 | sine and cosine mirror each other about the quarter turn, which lets one cosine fill three quarters of the table |
| Dft.SplitSum | src/util/fft.cpp:129-172 | a sum over 2h points is the even half plus the twiddled odd half |
| Dft.Butterfly | src/util/fft.cpp:129-172 | both outputs of a butterfly are the two half-sums combined with plus and with minus |
| Dft.ToneTransform | src/util/fft.cpp:116-119 | without a window, a unit-amplitude tone on bin k0 transforms to N/2 on bin k0 and to zero on every other bin below N/2 |
| Dft.ToneCalibration | src/util/fft.cpp:116-126 | with the rectangular window and its scale 2/N a unit-amplitude tone has magnitude exactly 1 on its bin and 0 elsewhere |
| FftStages.BlockMerged | src/util/fft.cpp:145-169 | one butterfly block turns two finished half-size sub-transforms into one of twice the size |
| FftStages.BlockFinished | src/util/fft.cpp:143-170 | after block j of a pass the first j+1 blocks are merged and the others untouched |
| FftStages.LoadedIsPassZero | src/util/fft.cpp:174-187 | samples loaded in bit-reversed order are the one-point sub-transforms that the first pass needs |
| FftStages.LastPassIsTransform | src/util/fft.cpp:129-172 | after the last pass every entry is the naive discrete Fourier sum |
| FftEngine.Begin | src/util/fft.cpp:26-51 | an engine exists exactly for 2 to 14 bits and enough memory, and then all its tables and its scale are right, by the laws of the angles alone |
| Windows.WindowSumIsExact | src/util/fft.cpp:116-126 | the values of a whole window add up to N, (N - 1) / 2 or 0.54 N - 0.46, so the mean that the scale divides by is never zero |
| Windows.TurnCancels | src/util/fft.cpp:97-114 | the cosines of the phases of one whole turn add up to zero |
| Windows.WindowIsSymmetric | src/util/fft.cpp:97-114 | the window reads the same from both ends |
| Tones.ToneIsModulatedWindow | src/util/fft.cpp:97-126 | under any weights, output k of a tone on bin k0 is half the transform of the weights at k + k0 plus half of it at k - k0 |
| Tones.WindowTransform | src/util/fft.cpp:97-114 | the transform of the window values, away from bin zero, in closed form |
| ToneReadings.ReadingOfTone | src/util/fft.cpp:116-126 | the exact squared reading of a unit-amplitude tone at its own bin, for every window and bin |
| ToneReadings.ToneReadsOneExactly | src/util/fft.h:18-22 | the promised reading of 1 holds if and only if the window is rectangular or the bin is a quarter of the table; otherwise the reading is higher |
| ToneReadings.HannReadsHigh | src/util/fft.h:18-22 | the promise fails under the default window for one period in eight samples |
| ToneReadings.EdgesReadTwice | src/util/fft.h:20-22 | a constant, and a tone at Nyquist, read exactly twice their amplitude under every window |
| ToneReadings.ReadTone | src/util/fft.cpp:174-196 | so reads the engine that has been set up and calibrated, from the samples of a tone |
| OneTurn.OneTurnSuffices | src/util/fft.cpp:83-114 | all that is asked of twiddle angles and window phases follows from one table of cosine and sine with N (N - 1) steps |
| FftEngine.Engine.constructor | src/util/fft.cpp:26-51 | tables, window and output scale are ready for the chosen size |
| FftEngine.Engine.InitReversal | src/util/fft.cpp:71-81 | the incremental loops fill the whole table with the bit-reversed indices |
| FftEngine.Engine.InitTwiddles | src/util/fft.cpp:83-95 | the loops define all three quarters of the shared table as sine at an index and cosine a quarter further on |
| FftEngine.Engine.InitWindow | src/util/fft.cpp:97-126 | every window value is the one its formula gives for the cosine of its phase, that phase going once around in N - 1 steps |
| FftEngine.CalibratedScale | src/util/fft.cpp:116-126 | the output scale times the sum of the window values is 2 |
| FftEngine.Engine.Calibrate | src/util/fft.cpp:116-126 | the stored scale times the sum of the window values, which is the exact one, is 2, whichever window is selected |
| FftEngine.Engine.Twiddle | src/util/fft.cpp:152-156 | both table reads are in bounds and give the twiddle of the exponent |
| FftEngine.Engine.ButterflyAt | src/util/fft.cpp:157-166 | one in-place butterfly writes its two places and no other |
| FftEngine.Engine.ButterflyInBlock | src/util/fft.cpp:152-167 | butterfly k of a block, with the twiddle read from the table, turns the block after k butterflies into the block after k + 1 |
| FftEngine.Engine.ButterflyBlock | src/util/fft.cpp:145-169 | a block of butterflies updates its 2ke places and leaves all others alone |
| FftEngine.Engine.Butterflies | src/util/fft.cpp:129-172 | from one-point blocks the in-place passes reach the full transform |
| FftEngine.Engine.Load | src/util/fft.cpp:174-187 | the load writes every slot once, windowed and bit-reversed, and clears the imaginary parts |
| FftEngine.Engine.Magnitudes | src/util/fft.cpp:189-195 | the outputs are the squared magnitudes of the transform in the calibrated scale |
| FftEngine.Engine.ComputeMagSq | src/util/fft.cpp:174-196 | each of the first N/2 outputs is the squared magnitude of the naive transform of the windowed samples in the calibrated scale; nothing beyond is written |
| Ranking.OrderedUnique | src/util/topk.h:53-56 | the order by value and then by index leaves exactly one arrangement of a set of bins |
| Ranking.RankingProperties | src/util/topk.h:49-56 | the ranking lists every bin once, louder first and lower index first among equals |
| Ranking.EnergyOfPermutation | src/util/topk.h:59-68 | the energy of a selection does not depend on its order |
| Sorting.SortProperties | src/util/topk.h:53-56 | sorting by any total order arranges the same elements in that order |
| Ranking.TopIsOptimal | src/util/topk.h:37-77 | every selection of distinct bins holds at most the energy of as many from the front of the ranking |
| TopK.HeapTop | src/util/topk.h:57-65 | the root of a heap is ahead of everything in it |
| TopK.SiftDown | src/util/topk.h:57-65 | sinking one node restores the heap below it and keeps the elements |
| TopK.MakeHeap | src/util/topk.h:52-57 | the used part of the index buffer becomes a heap of all bins |
| TopK.PopHeap | src/util/topk.h:65 | the loudest remaining bin moves behind the heap, which stays a heap |
| TopK.PopUntil | src/util/topk.h:59-68 | bins are popped in ranking order until the wanted energy, the cap or the last bin is reached, and not one earlier or later |
| TopK.ReverseTail | src/util/topk.h:70-74 | the popped tail is turned around in place |
| TopK.Relocate | src/util/topk.h:70-75 | the popped bins end up at the front in ranking order even when source and target overlap |
| TopK.TopByEnergyFraction | src/util/topk.h:37-77 | the result is the first k bins of the ranking: every shorter front holds less than the target times the energy of all bins, and the k bins hold at least that unless the cap or the end stops the selection; zero in exactly the degenerate cases; the buffer beyond the bins stays as it is |
| TopK.TotalSum | src/util/topk.h:44-47 | the single pass adds up the energy of all bins |
| TopK.TopCountIsLeast | src/util/topk.h:59-68 | the count is sufficient or capped, and every shorter front of the ranking holds less than the target times the whole energy, written as a product |
| Ranking.EnergyOfOne | src/util/topk.h:59-68 | the energy of one bin is its value |
| TopK.SelectionIsLeast | src/util/topk.h:37-77 | without a cap the selection reaches the wanted share, and no selection of distinct bins that reaches it is smaller |
| PeakClusters.SortedAscendingProperties | src/util/topk.h:136-139 | the sorted copy is ascending and holds the same bins |
| PeakClusters.RunsPartition | src/util/topk.h:141-164 | the runs put together are the sorted list; inside a run neighbours are at most the gap apart, between runs they are further apart |
| PeakClusters.LoudestIsArgmax | src/util/topk.h:90-92 | the center of a cluster is at least as loud as every other bin of it and the lowest of equals |
| PeakClusters.ClustersConserve | src/util/topk.h:128-166 | counts add up to the number of selected bins and energies to their energy |
| PeakClusters.Summarise | src/util/topk.h:152-158 | center and energy of one run |
| PeakClusters.WriteCluster | src/util/topk.h:159-163 | one more cluster is written out and the earlier ones stay |
| PeakClusters.CopySorted | src/util/topk.h:136-139 | the scratch buffer holds the selection in ascending order |
| PeakClusters.Sweep | src/util/topk.h:141-165 | a single sweep finds exactly the maximal runs, in order, up to the capacity |
| PeakClusters.ClusterPeaks | src/util/topk.h:128-166 | the first clusters up to the capacity are written with center, energy and count, also when the centers overwrite the selection |
| BackgroundNoise.ShiftedEnergy | src/vibration/VibrationSensor.cpp:192-197 | moving band-relative bin numbers to spectrum bin numbers keeps the selected energy |
| BackgroundNoise.ShiftBins | src/vibration/VibrationSensor.cpp:195-197 | each selected bin number moves by the offset of the band, in place |
| BackgroundNoise.SumClusters | src/vibration/VibrationSensor.cpp:201-202 | the loop adds up the energies of all clusters |
| BackgroundNoise.FindPeaks | src/vibration/VibrationSensor.cpp:192-202 | the selected front of the ranking of the band is clustered, in buffers at least as long as the band, and the cluster energies add up to its energy |
| BackgroundNoise.LeftoverMean | src/vibration/VibrationSensor.cpp:204-212 | the mean of the unselected bins is not negative and no selected bin lies below it |
| BackgroundNoise.NoisePerBin | src/vibration/VibrationSensor.cpp:204-212 | the per-bin noise exists exactly when some but not all bins are selected, and is the mean of the others; the clamp at zero never acts |
| BackgroundNoise.BandEnergy | src/vibration/VibrationSensor.cpp:160-177 | the accumulated band energy is the energy of all bins of the band |
| BackgroundNoise.AnalyzeBand | src/vibration/VibrationSensor.cpp:160-212 | over a whole spectrum, with buffers as long as it: least sufficient selection, its clusters, and a non-negative background below every selected bin |
| Clock.ElapsedIsDistance | src/ble/ControllerTransition.h:38-51 | unsigned subtraction gives the true distance exactly while the distance is below 2^32 ms |
| ControllerTransition.ControllerWait.Begin | src/ble/ControllerTransition.h:28-36 | a wait starts unless one is pending, which is then left alone |
| ControllerTransition.ControllerWait.Update | src/ble/ControllerTransition.h:38-51 | a pending wait ends by failure, arrival or timeout, in that order of precedence; a finished one keeps its result |
| ControllerTransition.ControllerWait.Reset | src/ble/ControllerTransition.h:56 | a reset wait is inactive |
| ControllerTransition.WaitIsBounded | src/ble/ControllerTransition.h:38-51 | a wait is over at the first look 5000 ms or more after it began, counter wrap included |
| ControllerTransition.WaitIsPatient | src/ble/ControllerTransition.h:38-51 | before that it ends exactly when the controller has arrived or failed, and never by timeout |
| ScaleRadio.ScaleRadioStateMachine.constructor | src/power/ScaleRadioStateMachine.h:275-279 | a new machine monitors under the demand policy and waits for nothing |
| ScaleRadio.ScaleRadioStateMachine.NotifyActivity | src/power/ScaleRadioStateMachine.cpp:35 | an activity report is remembered and changes nothing else |
| ScaleRadio.ScaleRadioStateMachine.SetPolicy | src/power/ScaleRadioStateMachine.cpp:37-60 | a policy change is refused exactly when external control would be taken back, or handed over by a machine that is not in Monitoring; an accepted change earns one retry |
| ScaleRadio.ScaleRadioStateMachine.Update | src/power/ScaleRadioStateMachine.cpp:209-232 | one update moves along the state diagram: the new state, the pending wait, the request and the event are those of the transition table |
| ScaleRadio.ScaleRadioStateMachine.Resolve | src/power/ScaleRadioStateMachine.cpp:234-265 | the answer to a request starts the matching wait, takes an arrival as done, or fails on a refusal |
| ScaleRadio.ScaleRadioStateMachine.AdvanceTransition | src/power/ScaleRadioStateMachine.cpp:122-149 | a stage that waits for the controller follows the outcome of its wait |
| ScaleRadio.ScaleRadioStateMachine.Fail | src/power/ScaleRadioStateMachine.cpp:72-78 | a failure ends the wait, leaves nothing to retry and reports where and why |
| ScaleRadio.ScaleRadioStateMachine.BeginControllerStop | src/power/ScaleRadioStateMachine.cpp:80-99 | with the service off: a stopped controller is taken as released, a running one is asked to stop, a stopping one is waited for, any other is a failure |
| ScaleRadio.ScaleRadioStateMachine.BeginControllerStart | src/power/ScaleRadioStateMachine.cpp:101-120 | the activity is spent; a starting controller is waited for, a failed one is a failure, any other is asked to start |
| ScaleRadio.ScaleRadioStateMachine.UpdateMonitoring | src/power/ScaleRadioStateMachine.cpp:151-166 | a stopped controller is noted, a failed one is a failure, and an unwanted running one begins the release |
| ScaleRadio.ScaleRadioStateMachine.UpdateSuspending | src/power/ScaleRadioStateMachine.cpp:168-181 | a change of mind returns to Monitoring, a service that is off lets the stop begin, and five seconds are the limit |
| ScaleRadio.ScaleRadioStateMachine.UpdateControllerStopped | src/power/ScaleRadioStateMachine.cpp:183-192 | a running controller is noted, and a wanted radio is started |
| ScaleRadio.ScaleRadioStateMachine.UpdateFailed | src/power/ScaleRadioStateMachine.cpp:194-207 | a failure is left exactly when the controller rests where the policy wants it, or rests elsewhere and activity is pending |
| RadioRuns.RunsStayConsistent | src/power/ScaleRadioStateMachine.cpp:80-149 | in every run a controller wait is pending if and only if the state is Stopping or Starting, with the matching target; external control implies Monitoring |
| RadioRuns.Play | src/power/PowerManager.cpp:344-368 | a new machine taken through any turns is in the state of their run |
| RadioRuns.ChainsEndWithoutConflict | src/power/PowerManager.cpp:344-368 | in every reachable state a decision chain ends with the answer to its one request, and the two wait-busy failures never happen |
| RadioRuns.EventsTell | src/power/ScaleRadioStateMachine.cpp:80-207 | in every consistent state each event tells of exactly one move of the machine, a failure of the stage it came from and the cause, and the activity is spent by a start, its success and every failure |
| RadioRuns.AnswersTell | src/power/ScaleRadioStateMachine.cpp:234-265 | what the answer to a stop or start request comes to, by the controller that is seen then |
| RadioRuns.StopIsDeliberate | src/power/ScaleRadioStateMachine.cpp:80-99 | a stop is requested exactly from Suspending, with the radio unwanted, the service observed off and the controller running; the suspension began with an unwanted running radio, and no poll since has found it wanted |
| RadioRuns.StartIsDeliberate | src/power/ScaleRadioStateMachine.cpp:101-120 | a start is requested exactly from ControllerStopped, with the radio wanted and the controller stopped or stopping; the controller had been seen stopped, and no poll since has found the radio wanted |
| RadioRuns.StayHasReason | src/power/ScaleRadioStateMachine.cpp:151-192 | in every run Suspending and ControllerStopped were entered for their reason and held ever since, every poll since finding the radio unwanted |
| RadioRuns.HandoverIsFinal | src/power/ScaleRadioStateMachine.cpp:37-60 | after a handover the machine stays in Monitoring under external control and requests nothing, whatever follows |
| RadioRuns.PollEndsStage | src/power/ScaleRadioStateMachine.cpp:122-181 | a stage is left at the first poll 5000 ms or more after it was entered; a stage entered anew starts its clock then |
| RadioRuns.StagesAreBounded | src/power/ScaleRadioStateMachine.cpp:122-181 | in every run polled at least every 2^32 - 5000 ms no transition state survives a poll 5000 ms or more after its entry |
| RadioRuns.SettledIsStable | src/power/PowerManager.cpp:117-131 | a settled radio stays settled and asks for nothing while the observation stays the same |
| RadioRuns.SteadyRadioSettles | src/power/PowerManager.cpp:117-131 | under a steady observation that meets the policy two polls past the deadline of the current stage settle the radio |
| BleLifecycle.RunsStayCoherent | src/ble/BleScaleService.cpp:292-322 | in every run the pending flag is up exactly while one stop or start command is queued, and its source state still holds |
| BleLifecycle.DrainCarriesOut | src/ble/BleScaleService.cpp:451-529 | draining empties the queue and carries out the queued request, if there is one, and nothing else |
| BleLifecycle.ControllerMovesAlongEdges | src/ble/BleScaleService.cpp:510-569 | the controller moves only Running, Stopping, Stopped or Failed and Stopped, Starting, Running or Failed |
| BleLifecycle.AcceptedRequestTakesEffect | src/ble/BleScaleService.cpp:292-322 | every accepted request takes effect at the next drain, whatever is asked or posted in between |
| RadioWorld.CoursesStayLinked | src/power/ScaleRadioStateMachine.cpp:122-265 | in every interleaving of the decision chain with the manager task no wait is left without the controller change it waits for |
| RadioWorld.FreshWorldIsLinked | src/ble/BleScaleService.cpp:219-235 | a new machine beside a freshly started service satisfies that link |
| RadioWorld.RetriesArePaidFor | src/power/ScaleRadioStateMachine.cpp:72-78 | under a steady target, requests are bounded by activity reports and policy changes plus an allowance of at most one |
| RadioWorld.OneRequestPerOccasion | src/power/ScaleRadioStateMachine.cpp:194-207 | after a failure, with no contrary request queued, each activity report or policy change buys at most one request |
| RadioWorld.ContraryRequestCostsOne | src/power/ScaleRadioStateMachine.cpp:194-207 | with a contrary request still queued a course without any activity makes a request |
| RadioWorld.FreeRequestExactly | src/power/ScaleRadioStateMachine.cpp:194-207 | a failed machine without pending activity can make an unpaid request if and only if a contrary request is queued |
| RadioWorld.FreeRequestHappens | src/power/ScaleRadioStateMachine.cpp:122-207 | for either target a fair course from the fresh world reaches a failed machine without pending activity whose contrary request is still queued, and an unpaid request after it |
| RadioSettling.RoundApproaches | src/power/ScaleRadioStateMachine.cpp:151-232 | with a service that lets go when asked to, one round of poll, request, answer and manager brings a willing quiet world one step nearer to rest and keeps it there |
| RadioSettling.FourRoundsSettle | src/power/PowerManager.cpp:117-131 | from every linked world with a working stack, a steady wish and a service that lets go when asked to, four rounds settle the radio for good, if and only if the machine has not failed, has activity to retry for, or finds the controller where it is wanted |
| RadioSettling.RestIsDisturbedByChangesOnly | test/test_scale_radio_convergence.cpp:4-7 | however the wish moves, the radio is found away from rest at four looks for the start and four for each change of the wish at most |
| PowerManager.PowerManager.ApplyRadioDecision | src/power/PowerManager.cpp:344-368 | the chain asks the service once, resolves the answer and never meets its limit of four rounds |
| PowerManager.PowerManager.ApplyRadioSuspension | src/power/PowerManager.cpp:381-386 | the service is suspended exactly while the machine is suspending, stopping, stopped or starting |
| PowerManager.PowerManager.constructor | src/power/PowerManager.cpp:53-58 | a new manager is consistent, applied, and linked to every service that is not being started |
| PowerManager.PowerManager.RefreshRadioStatus | src/power/PowerManager.cpp:117-131 | settled means: not failed, no transition, and the controller where the policy wants it |
| PowerManager.PowerManager.SetScaleRadioPolicy | src/power/PowerManager.cpp:95-115 | external control is handed over only with a running controller and an idle machine; status and suspension answer for the new policy at once |
| PowerManager.PowerManager.UpdateRadio | src/power/PowerManager.cpp:388-404 | one poll is one chain of observation, request and answer against the service, followed by the suspension and status that fit; machine and lifecycle stay linked, so no wait is left without its change |
| RadioRounds.Round | src/power/PowerManager.cpp:388-404 | one poll of the power manager and one round of the manager task are one round of the radio world, after which a suspended service is off |
| RadioRounds.TakeTurns | src/power/PowerManager.cpp:388-404 | any number of turns are the rounds of the radio world with a service that always lets go; with the display held still and no lease out the wish can only fall |
| RadioRounds.Settle | test/test_scale_radio_convergence.cpp:100-170 | power manager and service settle whatever link the service has: four turns under a steady wish, exactly when the machine may try; and with all else held still the radio is away from rest at eight looks in all, at twelve after a failure |
| RadioDemand.Obey | src/power/ScaleRadioStateMachine.h:48-75 | four turns or more of power manager and service from a pair with nothing under way: a bright display with a wanted scale, a diagnostic lease that lasts, or ForceRunning leave the controller running; a dimmed display without link and lease, nothing wanted, or ForceStopped leave it stopped; each exactly if the machine may retry |
| RadioDemand.Govern | src/power/ScaleRadioStateMachine.h:48-75 | the same from every working pair, whatever is under way at first |
| RadioDemand.HoldLink | src/power/ScaleRadioStateMachine.h:48-57 | a poll that finds a link being made or made leaves service and controller alone, however dim the display |
| RadioDemand.WishOfLook | src/power/PowerManager.cpp:286-296 | the radio is wanted at a poll exactly under ForceRunning, or under Demand by a lease that lies ahead, or by a wanted scale with a bright display or a link |
| RadioDemand.LeaseEnds | src/ble/BleScaleService.cpp:443-449 | the lease is withdrawn exactly when its deadline no longer lies ahead in 32-bit order, and counts as demand for exactly as long |
| RadioDemand.AheadUntilTheEnd | src/ble/BleScaleService.cpp:443-449 | that order is the order of true time for a deadline less than 2^31 ms away |
| BleService.StampAdvances | src/util/monotonic.h:11-15 | a stamped reading time is never the sentinel zero, comes after the last one as far as 32 bits can order them, is the given time if that comes after the last, and the next free one otherwise |
| BleService.ReadingsIgnoreChunking | src/ble/BleScaleService.cpp:1152-1167 | how a burst of bytes is cut into notifications makes no difference to the readings |
| BleService.WhatCrossingLeaves | src/ble/BleScaleService.cpp:698-732 | leaving READY loses the weight, turning OFF loses everything, and entering READY loses the battery reading of another peer; nothing else is lost |
| BleService.PauseIsKept | src/ble/BleScaleService.cpp:586-621 | in true time a finished scan is followed at once without a pause, and otherwise by the first look after the pause |
| BleService.ModeWanted | src/ble/BleScaleService.cpp:432-449 | connecting is wanted exactly by a demand that is not suspended, and a diagnostic scan exactly by a lease that lies ahead when there is neither demand nor suspension |
| BleService.BleScaleService.constructor | src/ble/BleScaleService.cpp:179-235 | as begin() leaves it the service is idle, off and empty, with a running controller |
| BleService.BleScaleService.Enable | src/ble/BleScaleService.cpp:259-263 | asking for the scale is published at once, changes nothing else and keeps the invariant of the tick boundary |
| BleService.BleScaleService.Disable | src/ble/BleScaleService.cpp:265-269 | releasing the scale is published at once, changes nothing else and keeps that invariant |
| BleService.BleScaleService.SetPowerSuspended | src/ble/BleScaleService.cpp:279-281 | suspension leaves the demand as it is, so lifting it restores the mode that is still wanted |
| BleService.BleScaleService.StopDiagScan | src/ble/BleScaleService.cpp:359-361 | the lease is gone at once |
| BleService.BleScaleService.RequestController | src/ble/BleScaleService.cpp:292-322 | a request is accepted exactly in its source state, with none in flight and fewer than eight commands queued, and is then queued last |
| BleService.BleScaleService.RequestTare | src/ble/BleScaleService.cpp:324-339 | the tare is queued with the present connection epoch, or refused when the queue is full |
| BleService.BleScaleService.SetScanPolicy | src/ble/BleScaleService.cpp:283-290 | the policy is posted as a command and dropped when the queue is full |
| BleService.BleScaleService.StartDiagScan | src/ble/BleScaleService.cpp:353-357 | the lease ends the given time from now and never has the deadline that means none |
| BleService.BleScaleService.OnScanMatch | src/ble/BleScaleService.cpp:116-153 | only the first matching advertiser since the last reset becomes the target, and none in a diagnostic scan |
| BleService.BleScaleService.OnDisconnect | src/ble/BleScaleService.cpp:167-171 | a disconnect is remembered until it is consumed |
| BleService.BleScaleService.OnNotify | src/ble/BleScaleService.cpp:1152-1167 | a notification of another generation changes nothing; one of the accepted generation is scanned with what was heard before in that generation and nothing else; either keeps the invariant of the tick boundary |
| BleReadings.HearSamples | src/ble/BleScaleService.cpp:1152-1167 | samples packed into frames and notified to a receiver that waits on nothing are heard one by one, in order, and leave it waiting on nothing |
| BleReadings.HearWeight | src/ble/BleScaleService.cpp:1152-1233 | after the notification of a packed weight sample the published weight times ten to the exponent is the signed count, with its stability and timer, the next sequence number and a later time |
| BleReadings.HearBattery | src/ble/BleScaleService.cpp:1152-1233 | after the notification of a packed battery sample the published percentage is the one sent, for the connected peer |
| BleReadings.StreamIsHeard | src/ble/AcaiaV2Codec.cpp:170-227 | a stream of packed samples is scanned into exactly those samples |
| BleReadings.OtherSamplesChangeNothing | src/ble/BleScaleService.cpp:1191-1233 | timer, key and unknown samples change no reading |
| BleService.BleScaleService.OnEvent | src/ble/BleScaleService.cpp:1191-1233 | a weight event replaces the reading with the next sequence number, a battery event records its peer |
| BleService.BleScaleService.DrainCommands | src/ble/BleScaleService.cpp:451-529 | a drain sends exactly the tares of the session that is READY, adopts the latest scan policy, and moves the controller as the queued request says |
| BleService.LatestPolicyStays | src/ble/BleScaleService.cpp:283-290 | of the scan policies in the queue the latest is left, its scan starts without a pause, and in a connect session at once |
| BleService.TareIsDue | src/ble/BleScaleService.cpp:451-474 | a tare asked for in the session that is READY now is sent by the next drain |
| BleService.OnlyTaresAreDue | src/ble/BleScaleService.cpp:451-474 | a drain sends nothing else, and nothing outside READY |
| BleService.BleScaleService.ExpireDiagScanLease | src/ble/BleScaleService.cpp:443-449 | a lease whose deadline has come is withdrawn |
| BleService.BleScaleService.Transition | src/ble/BleScaleService.cpp:698-732 | every entry into READY is a new epoch; weight ends with READY, a battery reading does not outlive its peer, OFF clears all readings |
| BleService.BleScaleService.TeardownClient | src/ble/BleScaleService.cpp:1132-1148 | afterwards there is no client, no accepted notification and no remembered match |
| BleService.BleScaleService.EnterMode | src/ble/BleScaleService.cpp:746-768 | a connect session starts fresh; a diagnostic scan is marked and started; entering Idle changes nothing |
| BleService.BleScaleService.ExitMode | src/ble/BleScaleService.cpp:770-788 | leaving a mode parks the link in OFF with cleared readings and no client, and its scan, match and pause are over |
| BleService.BleScaleService.DoHandshake | src/ble/BleScaleService.cpp:1060-1107 | the handshake succeeds exactly if profile, subscription and both writes do; only then a fresh non-zero generation stays accepted, and it hears, sends and notices exactly what the stack delivers and writes in the meantime |
| BleService.BleScaleService.HearEarly | src/ble/BleScaleService.cpp:1152-1167 | notifications during a handshake are heard as if they had come in one |
| BleService.BleScaleService.SendPacket | src/ble/BleScaleService.cpp:1109-1130 | nothing is sent without a characteristic, and the log of sent packets stays one in which every tare is in its session |
| BleService.BleScaleService.StartScan | src/ble/BleScaleService.cpp:985-1004 | the scan counts as active exactly if the stack started it |
| BleService.BleScaleService.FollowScan | src/ble/BleScaleService.cpp:586-621 | a match leads to CONNECTING; otherwise a finished scan is followed by the next at once or exactly when the pause is over |
| BleService.BleScaleService.FollowConnecting | src/ble/BleScaleService.cpp:623-647 | connecting ends in READY or, after a failure, in RECONNECTING or SCANNING depending on whether this session was READY before |
| BleService.BleScaleService.SettleLink | src/ble/BleScaleService.cpp:632-647 | after a handshake the link is READY and the watchdog armed now; after a failure it is RECONNECTING or SCANNING depending on an earlier READY, with the match forgotten |
| BleService.BleScaleService.Introduce | src/ble/BleScaleService.cpp:1090-1107 | the second write of the application handshake goes out only after the first, and both must succeed |
| BleService.BleScaleService.Beat | src/ble/BleScaleService.cpp:659-664 | a heartbeat is sent exactly when two seconds have passed since the last |
| BleService.BleScaleService.WatchStream | src/ble/BleScaleService.cpp:665-693 | a silent stream is retried at most five times and then given up |
| BleService.BleScaleService.FollowReady | src/ble/BleScaleService.cpp:649-694 | READY is left exactly on a disconnect or when the fifth retry has brought no weight; a round sends exactly the heartbeat that is due and the retry that is |
| BleService.BleScaleService.RunStateMachine | src/ble/BleScaleService.cpp:571-696 | one round moves the link to exactly the next state of its diagram, and counts the entries into READY |
| BleService.BleScaleService.RunMode | src/ble/BleScaleService.cpp:790-810 | a connect session moves its link on, a diagnostic scan is restarted when it is not running, and controller, queue and demand stay as they are |
| BleService.BleScaleService.ProcessControllerTransition | src/ble/BleScaleService.cpp:531-569 | a pending stop or start is carried out, and the service is in no mode while the controller does not run |
| BleService.StackDecides | src/ble/BleScaleService.cpp:531-569 | a pending stop succeeds exactly if the stack shuts down, a pending start exactly if it comes up; otherwise the controller has failed |
| BleService.BleScaleService.Multiplex | src/ble/BleScaleService.cpp:432-438 | the mode that is wanted now is entered: suspension before connecting before a diagnostic lease |
| BleService.BleScaleService.ManagerTick | src/ble/BleScaleService.cpp:421-441 | every round keeps: no client, accepted generation or reading outside the mode and state they belong to, a running controller outside Idle, tares only within their session; and it fixes controller, mode and lease; a suspended service is off, and a link that is off gets no further than scanning |
| BleTraffic.Serve | src/ble/BleScaleService.cpp:421-441 | one round of the manager or one call from another task keeps the invariant of the tick boundary and the log of sent packets |
| BleTraffic.ServeAll | src/ble/BleScaleService.cpp:421-441 | over every sequence of rounds, demands, suspensions, leases, scan matches, disconnects, notifications, tares and controller requests the invariant holds and every tare in the log was asked for in its session |
| BleTraffic.BringUp | src/ble/BleScaleService.cpp:421-647 | an idle service with a running controller that is asked for the scale reaches READY by a round that starts the scan, a matching advertiser, a round that finds it and a round with a working handshake |
| SseTickets.TicketStore.MintTicket | src/net/SseServer.cpp:92-102 | a new ticket replaces the old one |
| SseTickets.TicketStore.ConsumeTicket | src/net/SseServer.cpp:104-118 | a client is admitted exactly with the live, unexpired ticket, which is then used up; an attempt after expiry also uses it up |
| SseTickets.LiveTicketIsLastMint | src/net/SseServer.cpp:92-118 | a live ticket is the one minted last and nobody has been admitted since |
| SseTickets.EachMintAdmitsOnce | src/net/SseServer.cpp:92-118 | an admission shows the ticket minted last, is the first since that mint, and comes within 30 seconds on the counter |
| SseTickets.AdmissionsNeedMints | src/net/SseServer.cpp:92-118 | two admissions are always separated by a mint |
| SseTickets.AdmissionIsTimely | src/net/SseServer.cpp:104-118 | within one turn of the counter an admission comes at most 30 seconds after the mint |
| SseTickets.AdmittedExactly | src/net/SseServer.cpp:92-118 | a client is admitted if and only if it offers the ticket minted last, within 30 seconds on the counter, with nobody admitted and nobody too late since that mint |
| SseServer.RunsAreSound | src/net/SseServer.cpp:46-225 | in every interleaving: one task at most, the exit flag tells whether it lives, the session flag whether it is in a session |
| SseServer.AtMostOneTask | src/net/SseServer.cpp:46-76 | at most one server task exists, and none when begin() spawns one |
| SseServer.LoweredFlagStays | src/net/SseServer.cpp:46-90 | while a task lives nothing raises a run flag that has been lowered |
| SseServer.PollSeesStop | src/net/SseServer.h:236-239 | once the run flag is down the second half of a poll ends the session, and the first half does exactly if a reason stands or the client has left |
| SseServer.StopIsBounded | src/net/SseServer.cpp:78-90 | from the moment the run flag is down at most eleven steps of the server task lead to its exit, in every interleaving |
| SseServer.BeginBegins | src/net/SseServer.cpp:46-76 | begin() on a stopped server ends with one new task, the run flag up and no reason left, or as before if the task cannot be spawned |
| SseServer.StopStops | src/net/SseServer.cpp:78-90 | stop() on a running server lowers the run flag and gives the reason Shutdown before it waits |
| SseServer.StopReturns | src/net/SseServer.cpp:85-90 | in every interleaving stop() returns at its next look exactly when the task has gone |
| SseServer.SleepReturns | src/net/SseServer.cpp:131-162 | signalSleeping() returns at once without a session, and otherwise when its time is up, with its reason withdrawn |
| SseServer.SleepingNeverSticks | src/net/SseServer.cpp:131-162 | a Sleeping reason exists only while signalSleeping() waits, and none is left when it returns |
| SseTakeover.ReasonStands | src/net/SseServer.h:222-239 | all through a session a stop reason stands exactly if one was given and the last word on it was not a withdrawal by signalSleeping() |
| SseTakeover.ReasonEndsSession | src/net/SseServer.h:236-239 | in every interleaving a session with a stop reason is over once its task has taken three more steps, unless the sleeper has withdrawn the reason |
| SseTakeover.TakeoverEndsSession | src/net/SseServer.cpp:120-129 | with the sleeper awake, three steps of the server task after forceStopActiveSession() end the session, in every interleaving |
| SseTakeover.SleepEndsSession | src/net/SseServer.cpp:131-145 | the same for the reason of signalSleeping() until it is withdrawn |
| SseTakeover.TakeoverIsLost | src/net/SseServer.cpp:120-162 | a takeover can be undone: a sleeper who saw the session before overwrites the reason and withdraws his own, and the session goes on for any number of steps |
| SseTakeover.SessionGoesOn | src/net/SseServer.h:236-239 | without a reason, a lowered run flag or a departing client a session never ends |
| SseTakeover.ReasonMeans | src/net/SseServer.cpp:216-224 | in every interleaving Replaced stands only for a takeover asked for since the last admission, Shutdown only with the run flag down, Sleeping only while the sleeper waits |
| SseTakeover.TakeoverSucceeds | src/net/SseServer.cpp:120-258 | from any poll, a takeover and a fresh ticket let the task close the old session, tell its client that it was replaced, and admit the new client with nothing against it |
| SseTakeover.SleepIsAcknowledged | src/net/SseServer.cpp:232-258 | a client that is still there is told of the sleep, and the sleeper need not wait any longer |
| SseServer.EachMintAdmitsOneSession | src/net/SseServer.cpp:187-204 | over every interleaving each mint admits at most one session |
| JsonStream.AppendEscaped | src/net/JsonStream.cpp:16-45 | one character in its escaped form |
| JsonStream.EscapeAppend | src/net/JsonStream.cpp:13-48 | the escaped text is appended |
| JsonText.EscapedExactly | src/net/JsonStream.cpp:16-45 | exactly the quote, the backslash and the characters below 20 hex are written as anything but themselves |
| JsonRoundTrip.EscapeRoundTrip | src/net/JsonStream.cpp:13-48 | unescaping inverts escaping for every byte string, whatever follows the closing quote |
| JsonRoundTrip.NaturalRoundTrip | src/net/JsonStream.cpp:130-141 | a printed integer reads back as its value |
| JsonRoundTrip.ValueRoundTrip | src/net/JsonStream.cpp:61-148 | the printed form of any tree of objects, arrays, strings and scalars parses back to it and leaves what follows |
| JsonRoundTrip.DocumentRoundTrip | src/net/JsonStream.cpp:61-148 | every printed document parses back to its tree |
| JsonRoundTrip.PrintIsInjective | src/net/JsonStream.cpp:61-148 | different trees have different texts |
| JsonStream.Writer.constructor | src/net/JsonStream.cpp:52-57 | nothing has been written and no object is open |
| JsonStream.Writer.Flush | src/net/JsonStream.cpp:68-73 | the buffer is handed over whole and nothing is lost or repeated |
| JsonStream.Writer.FlushIfFull | src/net/JsonStream.cpp:75-77 | after the check the buffer is below its mark or empty |
| JsonStream.Writer.Raw | src/net/JsonStream.cpp:81-86 | the text is added to the output once, however much of it is flushed |
| JsonStream.Writer.Open | src/net/JsonStream.cpp:88-95 | an object opens that needs no comma yet |
| JsonStream.Writer.Close | src/net/JsonStream.cpp:97-101 | the innermost object closes and the comma state of the outer one is back |
| JsonStream.Writer.Key | src/net/JsonStream.cpp:103-115 | a member name is written, after a comma exactly if the same object already has a member; outside any object it stands alone |
| JsonStream.Writer.Str | src/net/JsonStream.cpp:117-128 | a quoted, escaped string is written, or null for none |
| JsonStream.Writer.Unsigned | src/net/JsonStream.cpp:130-135 | an unsigned integer is written in decimal |
| JsonStream.Writer.Signed | src/net/JsonStream.cpp:137-141 | a signed integer is written in decimal |
| JsonStream.Writer.Finish | src/net/JsonStream.cpp:61-66 | everything written has been handed over, and finishing again changes nothing |
| JsonStream.Writer.WriteValue | src/net/JsonStream.h:40-69 | a tree of object depth up to eight, driven with explicit array commas, comes out as its printed form and leaves the comma state alone |
| JsonStream.Writer.WriteFields | src/net/JsonStream.h:40-42 | the members come out in order, with commas exactly between members of the same object |
| JsonStream.Writer.WriteItems | src/net/JsonStream.h:40-69 | the elements come out in order, with commas exactly between them |
| JsonStream.Respond | src/net/JsonStream.h:40-69 | whatever the high-water mark, the chunks handed over make up a document that parses back to the tree |
| JsonStream.NestingFits | src/net/JsonStream.h:40-69 | every depth of nested objects counts as that depth, so eight fit |
| Backflush.BackflushCycle.constructor | src/apps/backflush/BackflushCycle.cpp:6 | a reset routine waits for the pump with nothing recorded |
| Backflush.BackflushCycle.BeginPhase | src/apps/backflush/BackflushCycle.cpp:8-12 | a phase begins at the given time with no change pending |
| Backflush.BackflushCycle.RememberPumpChange | src/apps/backflush/BackflushCycle.cpp:14-18 | only the first contrary report is dated |
| Backflush.BackflushCycle.ClearPumpChange | src/apps/backflush/BackflushCycle.cpp:20-23 | no change is pending and none is dated |
| Backflush.BackflushCycle.Update | src/apps/backflush/BackflushCycle.cpp:127-168 | a report starts, continues, ends or confirms a period as the transition function says, and the result tells whether a period began or the run finished |
| Backflush.RunsAreDated | src/apps/backflush/BackflushCycle.cpp:127-168 | in every run the recorded durations are the distances between consecutive period boundaries |
| Backflush.AtMostTenChanges | src/apps/backflush/BackflushCycle.cpp:62-78 | a run reports at most ten changes, and exactly the periods before the running one count as recorded |
| Backflush.StartsWithPump | src/apps/backflush/BackflushCycle.cpp:127-135 | the routine stays fresh until the first report of a running pump, which begins the first period |
| Backflush.DurationsTelescope | src/apps/backflush/BackflushCycle.cpp:127-168 | the recorded durations add up to the time from the first pump start to the start of the running period, modulo 2^32 |
| Backflush.UnconfirmedWaits | src/apps/backflush/BackflushCycle.cpp:117-125 | contrary reports inside their window only leave a note of the first |
| Backflush.OnlyPendingIsDated | src/apps/backflush/BackflushCycle.cpp:14-23 | in every run a change is dated only while it is pending |
| Backflush.WithdrawnLeavesNoTrace | src/apps/backflush/BackflushCycle.cpp:138-142 | in every run a contrary report withdrawn before its window has passed leaves the whole state as if it had never been made |
| Backflush.PersistentChangeEnds | src/apps/backflush/BackflushCycle.cpp:117-164 | a change that persists for its window ends the period at the moment it was first seen, and not a report earlier |
| Backflush.DisplayIsContinuous | src/apps/backflush/BackflushCycle.cpp:42-60 | on confirmation of any change but the last the shown phase, cycle and elapsed time go on without a jump; the instruction does too exactly while the new phase is below its target |
| Backflush.ShownToUser | src/apps/backflush/BackflushCycle.cpp:25-60 | in true time: which phase, cycle, elapsed time and instruction are shown for a settled period, before and after its ten seconds, and for a pending change |
| Backflush.ShownOutside | src/apps/backflush/BackflushCycle.cpp:25-60 | before the first and after the last period nothing is timed, and the user is told to start or that it is finished |
| WindowTrigger.VibrationWindowTrigger.StepDetailed | src/vibration/VibrationWindowTrigger.h:47-93 | activity, counters, mask and edge after one frame |
| WindowTrigger.RunsAreCounted | src/vibration/VibrationWindowTrigger.h:67-91 | in every history the counters count the entering or failing frames at the end since the last edge, and the mask collects exactly theirs |
| WindowTrigger.ClosesOnFourthFailure | src/vibration/VibrationWindowTrigger.h:78-91 | the window closes exactly at the fourth failing frame in a row since it opened, with the union of the failures of exactly those four frames |
| WindowTrigger.OpensOnSecondEntry | src/vibration/VibrationWindowTrigger.h:67-77 | the window opens exactly at the second entering frame in a row since it closed |
| WindowTrigger.EdgesAlternate | src/vibration/VibrationWindowTrigger.h:67-91 | opens and closes alternate, an open first, and the window is active exactly after an open |
| WindowHistory.TestsMean | src/vibration/VibrationWindowTrigger.h:47-62 | a frame fails exactly unless it is at rest with at least 11 dB and a peak from 90 to 130 Hz, enters exactly at rest with at least 14 dB in that range, and its failures are exactly the violated conditions; an entering frame never fails |
| WindowHistory.ClosesAfterFourLost | src/vibration/VibrationWindowTrigger.h:78-91 | an open window closes exactly at the fourth frame in a row, all after its opening, none of which is at rest with at least 11 dB in range; the mask names exactly the conditions that the four violate |
| WindowHistory.OpensOnTwoStrong | src/vibration/VibrationWindowTrigger.h:67-77 | a closed window opens exactly at the second frame in a row, both after the last edge, that is at rest with at least 14 dB in range |
| WindowHistory.StaysOpenWhileSustained | src/vibration/VibrationWindowTrigger.h:78-91 | an open window stays open as long as among any four frames in a row there is one at rest with at least 11 dB in range |
| WindowHistory.RecentIsSince | src/vibration/VibrationWindowTrigger.h:67-91 | after every history the frames counted are those since the last edge, and the window is open exactly if that was an opening |
| PumpDecay.MedianSplits | src/vibration/PumpDecayTracker.h:93-101 | at least half of the reference is at most the median and at least half is at least the median |
| PumpDecay.MedianIsMiddle | src/vibration/PumpDecayTracker.h:93-101 | the median is the middle value of an odd number of values and the mean of the two middle ones of an even number |
| PumpDecay.AppendKeepsLastSix | src/vibration/PumpDecayTracker.h:82-91 | shifting in a measurement keeps the last six of all accepted |
| PumpDecay.ReferenceIsLastSix | src/vibration/PumpDecayTracker.h:27-91 | after every history the reference is the last six measurements accepted since it was last cleared |
| PumpDecay.DropsByFour | src/vibration/PumpDecayTracker.h:30-51 | after every history a frame inside the window starts a candidate exactly if at least four reference measurements exist and it is unusable or at least 4 dB below their median |
| PumpDecay.RecoversWithinTwo | src/vibration/PumpDecayTracker.h:34-43 | a candidate keeps its onset and ends exactly with a usable frame at most 2 dB below the median or more than 2000 ms after its onset |
| PumpDecay.PumpDecayTracker.constructor | src/vibration/PumpDecayTracker.h:75-80 | a new tracker has no reference, candidate or accepted onset |
| PumpDecay.PumpDecayTracker.AppendReference | src/vibration/PumpDecayTracker.h:82-91 | the in-place shift appends one measurement, and the reference stays the last six accepted since it was cleared |
| PumpDecay.PumpDecayTracker.ReferenceMedian | src/vibration/PumpDecayTracker.h:93-101 | the middle of the sorted copy |
| PumpDecay.PumpDecayTracker.ClearWindowState | src/vibration/PumpDecayTracker.h:105-109 | reference and candidate are gone and the accepted onset stays |
| PumpDecay.PumpDecayTracker.Watch | src/vibration/PumpDecayTracker.h:30-51 | inside the window a candidate is kept until it recovers or expires, and a drop starts one; the measurements accepted so far grow or start over accordingly |
| PumpDecay.PumpDecayTracker.Step | src/vibration/PumpDecayTracker.h:27-70 | state, signal and accepted measurements after one frame, window edges included |
| PumpSignal.ProcessFrame | src/vibration/VibrationSensor.cpp:229-240 | the trigger steps first and the tracker sees its activity before and after |
| PumpSignal.ProcessAll | src/vibration/VibrationSensor.cpp:229-240 | trigger and tracker taken through any frames are in the state of the run that the theorems speak of |
| PumpSignal.ReferenceOfFrames | src/vibration/PumpDecayTracker.h:27-91 | over every history of frames the reference of the tracker is the last six measurements accepted since it was last cleared |
| PumpSignal.HistoryIsTold | src/vibration/VibrationSensor.cpp:229-240 | in every paced history candidate and accepted onset carry the times of the frames at which they arose, inside the latest window |
| PumpSignal.LossAndReturn | src/vibration/VibrationSensor.cpp:229-240 | for the frames themselves: loss and return are measured against the median of the last six accepted measurements, four at least, by frames at rest with a finite measurement and a peak from 90 to 130 Hz |
| PumpSignal.AcceptedOnset | src/vibration/PumpDecayTracker.h:34-69 | an accepted onset exists only while the pump is off, lies inside the window that closed last and leads the close by at most two seconds of true time |
| PumpSignal.CandidateIsADrop | src/vibration/PumpDecayTracker.h:34-50 | a candidate arose at a frame where the signal dropped, and no frame since has brought it back |
| PumpSignal.AcceptedOnsetIsADrop | src/vibration/PumpDecayTracker.h:34-59 | an onset accepted at a close is a drop from which the signal had not recovered |
| Hex.EncodeHex | src/util/hex.h:11-20 | two lower-case digits for each byte |
| Hex.DecodeHex | src/util/hex.h:22-38 | decoding succeeds exactly for an even number of hexadecimal digits, of either case |
| Hex.HexText | src/util/hex.h:22-38 | text is hexadecimal exactly if it is of even length and made of 0-9, a-f and A-F |
| Hex.HexRoundTrip | src/util/hex.h:11-38 | decoding undoes encoding |
| Hex.DecodeThenEncode | src/util/hex.h:11-38 | encoding undoes decoding up to the case of the digits |
| Pairing.PairingWindow.StartPairing | src/net/Auth.cpp:38-52 | a new window opens with fresh credentials and a fresh limit, replacing the old one |
| Pairing.PairingWindow.CancelPairing | src/net/Auth.cpp:54-61 | an open window is closed and its credentials are gone |
| Pairing.PairingWindow.Update | src/net/Auth.cpp:85-93 | an expired window is closed |
| Pairing.PairingWindow.ConsumePairing | src/net/Auth.cpp:143-167 | a guess succeeds exactly against an open, unexpired window with the matching credential; success, expiry and the fifth wrong guess close it |
| Pairing.WindowIsLimited | src/net/Auth.cpp:143-167 | one window admits at most one client and lets at most five guesses be compared, right or wrong |
| Pairing.EndedStaysEnded | src/net/Auth.cpp:143-167 | a closed window stays closed and nothing redeems it |
| Pairing.GuessIsTimely | src/net/Auth.cpp:143-167 | in true time an open window takes the right credential exactly up to the end of its lifetime, and the next tick or guess after it closes the window |
| Pairing.OpenExactly | src/net/Auth.cpp:38-167 | a window is open exactly until a cancel, a success, a fifth wrong guess or a tick or guess after its lifetime |
| AuthTokens.StoredIsKept | src/net/Auth.cpp:277-362 | what has been stored is what will be read |
| AuthTokens.EvictionKeepsLastEight | src/net/Auth.cpp:385-397 | evicting the oldest at capacity keeps the last eight |
| AuthTokens.TokenStore.constructor | src/net/Auth.cpp:277-362 | at boot nothing is loaded and the history is what the flash holds |
| AuthTokens.TokenStore.EnsureTokensLoaded | src/net/Auth.cpp:277-362 | loading succeeds exactly if the store is readable or was loaded before; a malformed store counts as empty, an unreadable one is retried |
| AuthTokens.TokenStore.TokenCount | src/net/Auth.cpp:364-368 | the number of kept tokens, zero while the store is unreadable |
| AuthTokens.TokenStore.HasTokenBytes | src/net/Auth.cpp:370-378 | bytes are known exactly while they are among the last eight tokens persisted since the last forget |
| AuthTokens.TokenStore.IsAuthenticated | src/net/Auth.cpp:95-102 | a cookie authenticates exactly while the bytes it spells are among those tokens |
| AuthTokens.TokenStore.AppendToken | src/net/Auth.cpp:380-416 | a token is persisted before it is adopted; an unreadable store is never overwritten, a failed write changes nothing, and after a success flash and RAM agree |
| AuthTokens.TokenStore.ForgetAll | src/net/Auth.cpp:104-116 | RAM is empty at once; the flash is too unless it could not be opened, which the state remembers |
| AuthTokens.MintedCookieSpellsToken | src/net/Auth.cpp:169-187 | the minted hex cookie stands for its token and no other bytes |
| AuthTokens.TokenOutlivesSevenPairings | src/net/Auth.cpp:385-397 | a token survives exactly seven further pairings |
| AuthRuns.StoreHoldsLastEight | src/net/Auth.cpp:277-416 | after every sequence of loads, appends, forgets and reboots the RAM copy is the last eight tokens persisted since the last forget, and so is the flash unless that forget could not clear it |
| AuthRuns.ForgetOutlivesReboot | src/net/Auth.cpp:104-116 | forgotten tokens stay forgotten over a reboot if and only if the flash could be opened, or held none |
| AuthRuns.TakeThrough | src/net/Auth.cpp:277-416 | a store taken through any turns, each reboot making a new one, is in the state of the run |
| AuthRuns.Ask | src/net/Auth.cpp:370-378 | after any turns exactly the last eight tokens persisted are known, once they can be read |
| WifiRequests.RequestSlot.Post | src/net/WifiManager.cpp:71-81 | a post is refused exactly by a terminal latch, or as a mode change by a waiting reset; afterwards an action is pending unless only the latch was left |
| WifiRequests.RequestSlot.Take | src/net/WifiManager.cpp:112-122 | the request is consumed, the terminal latch stays and no action is pending |
| WifiRequests.SlotHoldsChosen | src/net/WifiManager.cpp:71-81 | of the posts of one round the first terminal reset is carried out, else the last reset, else the last post |
| WifiRequests.AcceptedResetIsNext | src/net/WifiManager.cpp:71-122 | an accepted reset is the next action carried out, whatever is posted meanwhile |
| WifiRequests.TerminalIsFinal | src/net/WifiManager.cpp:71-122 | the terminal latch means a terminal reset that waits, or has been carried out as the last action |
| WifiRequests.NothingAfterTerminal | src/net/WifiManager.cpp:71-122 | once a terminal reset has been carried out nothing else ever is |
| WifiRequests.Drive | src/net/WifiManager.cpp:71-122 | a slot taken through any posts and takings holds and hands out what the theorems say |
| WifiManager.OnlineMeansAssociated | src/net/WifiManager.cpp:728-749 | being online in an attempt means an association in it, an address after that, and no disconnect since |
| WifiManager.OnlineIsServed | src/net/WifiManager.cpp:731-747 | being online implies being associated and having been served |
| WifiManager.ActionableReasonStays | src/net/WifiManager.cpp:751-760 | a generic failure never hides an actionable one of the same attempt |
| WifiManager.ServedMeans | src/net/WifiManager.cpp:728-776 | an attempt counts as served only by an address after an association with no disconnect between them, and no refused credentials since |
| WifiManager.MeansServed | src/net/WifiManager.cpp:728-776 | and every such address serves it |
| WifiManager.MeansOnline | src/net/WifiManager.cpp:728-749 | without any disconnect since, it is online as well |
| WifiManager.ReasonShown | src/net/WifiManager.cpp:745-760 | the failure shown is the latest refusal or missing network since the last address that counted, or else the first failure of all since then |
| WifiManager.OutcomeOfRequest | src/net/WifiManager.cpp:303-378 | each request by its outcome: the attempt begun under its name, the access point, or silence; a live session is left alone |
| WifiManager.OutcomeOfTimeout | src/net/WifiManager.cpp:695-724 | an attempt older than 15 seconds that was never served ends in the access point, marked as the fallback, or in silence if that does not start |
| WifiManager.StationsAreCounted | src/net/WifiManager.cpp:728-830 | the shown number of stations is of those that have joined and not left |
| WifiManager.AccessPointFollowsDriver | src/net/WifiManager.cpp:728-830 | the access point is up or down as the driver said last |
| WifiManager.WifiManager.constructor | src/net/WifiManager.h:165-174 | the radio is off and nothing is requested |
| WifiManager.WifiManager.StartSta | src/net/WifiManager.cpp:303-338 | a new attempt forgets everything the events of earlier ones said; without a name nothing happens |
| WifiManager.WifiManager.RetrySta | src/net/WifiManager.cpp:368-378 | another attempt with the stored credentials, or nothing without them |
| WifiManager.WifiManager.StartAp | src/net/WifiManager.cpp:340-366 | the access point is up, or the radio is off if the driver refuses |
| WifiManager.WifiManager.StopRadio | src/net/WifiManager.cpp:436-470 | mode and state are off and no fallback is shown |
| WifiManager.WifiManager.ResetAllConfig | src/net/WifiManager.cpp:472-504 | the radio is off and the network name and the timeout suppression are gone |
| WifiManager.WifiManager.ProcessPending | src/net/WifiManager.cpp:112-162 | the waiting request is carried out once with its whole effect on the radio state, and the live credentials submitted again change nothing |
| WifiManager.WifiManager.Update | src/net/WifiManager.cpp:687-724 | after an update no attempt that has not been served is older than 15 seconds, and without a request the radio changes only by that fallback |
| WifiManager.WifiManager.OnWifiEvent | src/net/WifiManager.cpp:726-817 | mode is station exactly while the state is connecting or connected, and connected, associated, suppressed and the shown reason depend on nothing but the events of the present attempt |
| WifiManager.AttemptIsBounded | src/net/WifiManager.cpp:697-705 | in true time an update more than 15 seconds after the attempt began, and before the counter has turned once, ends an attempt that has never been online |
| WifiRuns.RunsStaySound | src/net/WifiManager.cpp:687-817 | in every run of posts, updates, direct calls and driver events the station state is the one the events of the present attempt give |
| WifiRuns.Drive | src/net/WifiManager.cpp:687-776 | a manager taken through any turns is in the state of their run |
| WifiRuns.AttemptsAreBounded | src/net/WifiManager.cpp:687-760 | in every run updated at least every 2^32 - 15000 ms no attempt that has not been served, however it was begun, outlives an update more than 15 seconds after it began or its timeout was started anew |
| WifiRuns.FallbackExactly | src/net/WifiManager.cpp:687-724 | without a request an update leaves the station exactly when the attempt has not been served and began more than 15 seconds ago in true time |

## Left out

- Floating point: sensor values, spectra and weights are reals, so rounding, NaN and overflow do not occur; a value that may be not finite is an `Option`. Logarithmic signal-to-noise values are inputs.
- FftEngine.Begin: takes the cosines and sines of the twiddle angles and of the window phases as given with their laws (values at zero and at a whole or quarter turn, addition, unit length, and for the readings of tones an order of two cosines), all of which hold of one table of one turn; `compute` (the square root of each output) and `binOfFreq` are not modelled.
- TopK.MakeHeap: the standard heap, sort and move routines are written out as one textbook version each; nothing depends on which version the library uses.
- BackgroundNoise.AnalyzeBand: spectral flux and the choice of the pump cluster are not modelled.
- AcaiaEvents.TagAgreesWithEmission: outbound commands (`buildTare`, `buildTimer`, `buildIdentify`, `buildEventSubscribe`, `buildHeartbeat`) are not modelled; they are not inbound frames.
- FrameFramer.Framer.Push: callbacks are returned as a list of outcomes instead of being called in the midst of the loop.
- ScaleRadio.ScaleRadioStateMachine.Update: failure texts are constructors of a datatype; logging, wake timing and the failure log are left out.
- BleLifecycle.AcceptedRequestTakesEffect: a whole request is one step; the accesses inside one request are not interleaved with the manager task.
- RadioWorld.CoursesStayLinked: leaves out external control, under which another part of the firmware is a second requester.
- PowerManager.PowerManager.UpdateRadio: CPU frequency, LED, battery, power button and the wake timing of the same update are not modelled.
- RadioRounds.Settle: polls of the power manager and rounds of the manager task alternate, the Bluetooth stack works, and nobody else calls the service meanwhile; other interleavings are those of `RadioWorld` and `BleTraffic`.
- BleService.BleScaleService.ManagerTick: all clock readings of one round are the same instant; the scan table, the message log, NimBLE objects and the startup retry are not modelled, and the answers of the Bluetooth stack are inputs of the round.
- BleService.BleScaleService.OnNotify: the check of the generation and the delivery of its events are one step, so a teardown between the two is not modelled.
- BleService.BleScaleService.Transition: the documentation of the service says that readings are cleared when the mode is not Connect, which holds; a weight heard during a handshake that then fails stays visible while the service scans again, and the model keeps it.
- SseServer.RunsAreSound: the shared variables are one record and every access is a step on it, because the point is their interleaving, not an update in place; begin() and stop() are called by one task and signalSleeping() by one other; a handler is a loop that polls, and the socket is not modelled; of the frames only the last one of a session is, by its name.
- SseServer.EachMintAdmitsOneSession: the claim that the latest client always wins is not stated, because a client with an older unconsumed ticket can still connect between the forced stop and the mint.
- JsonStream.Writer.Open: more than eight open objects trip an assertion in the firmware and are excluded here.
- JsonStream.Respond: floating-point numbers are not printed; `\u` escapes beyond one byte, fractions and exponents are refused by the model's parser.
- Backflush.BackflushCycle.Update: the screen, sounds and the drawing of the displayed values are not modelled.
- WindowTrigger.VibrationWindowTrigger.StepDetailed: the failure mask is a set, not a byte of bits.
- AuthTokens.TokenStore.AppendToken: a write stores everything or nothing; HTTP routes, cookies headers, redirects and the first-pair callback are not modelled, and random bytes are inputs.
- WifiManager.WifiManager.ProcessPending: stored credentials are read as an input; writing them, the persisted boot mode, power saving, host names and Bluetooth conditioning are not modelled.
- WifiManager.WifiManager.OnWifiEvent: the stores of one method are one step; driver reason numbers are constructors.
- ExtractionRecorder and the flow logic, ring logs, battery curves, low-battery policy, menus, themes, sounds and web pages: not part of this model.
