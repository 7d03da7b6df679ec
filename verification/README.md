# Verified model of Michi's audio core

A Dafny model of the parts of Michi whose behaviour spans many calls, with proofs of what they
keep over every input and every run.  `dafny verify dfyconfig.toml` checks all of it.

- **Stimuli** (`SigmaDelta`, `DsfContainer`, `Octets`): the second-order sigma-delta modulator of
  the DSD conformance harness and the DSF container it is wrapped in.  The container is claimed
  only in sizes and layout: the writer puts 8 in the bits-per-sample field and packs
  least-significant bit first.
- **DoP packer** (`DopPacking`, `DopElement`, `DopRuns`): the GStreamer element as a streaming
  transformer with a four-byte carry, a marker phase and its reset events.
- **Single flight** (`SingleFlight`): concurrent callers sharing one physical probe, as steps of
  any interleaving.
- **Engine lifecycle** (`TransportRouter`, `EngineWorld`, `EngineOperations`, `EngineSafety`,
  `EngineRuns`, `EngineFailures`, `EngineOutcomes`, `EngineLeaks`, `EngineCoordinators`): switching,
  convergence and fallback of audio engines.  What goes wrong in a run is a set of faults, each a
  call and a moment, so a statement for every set is a statement for every pattern of failures.
- **Device registry** (`DeviceObservations`, `DeviceRegistry`, `DeviceHistory`, `DeviceBatches`,
  `DeviceOutcomes`, `AudioDeviceRegistry`): a batch of observations as acts on records with generations.
- **Evidence store** (`LineFiles`, `EventJournal`, `ReceiptStore`, `ReceiptRuns`,
  `ReceiptSeals`, `ReceiptRecovery`, `ReceiptCrashes`): the hash-chained journal and the sealed
  receipt chunks, with files cut anywhere.  The codec of records and the digest are parameters: JSON objects that no other
  object prefixes on a line, and an injective, never empty digest.
- **Output planning** (`CarrierPlanning`, `PlanningOutcomes`, `Qualification`): carrier candidates, the planner, and
  the loop of planning and probing.
- **Output intents** (`OutputIntents`, `OutputRuns`, `OutputOutcomes`, `AudioOutputCoordinators`): the saved
  selection, the registry's and the session's, and their revision.

Where the source updates an object, a class does, and each method is proved equal to a function
on values; the theorems are about those functions, and the entry points of the two engine
coordinators and of the output selection promise them of the objects.  `Decimals`, `Texts`,
`TextOrder` and `Sequences` hold what several of these share.  `hide` in a proof only drops definitions the
proof does not need.

## Where the code differs from what it says

- The docstring of `_modulate` promises that the mean of a constant-level stream is exactly the
  level (tools/audio_phase2/dsd2pcm_conformance.py:173-175).  For the harness's own levels and
  lengths it is (`StimulusExact`); in general it is so exactly when level times length is an
  integer that is even or odd as the length is (`MeanExactIff`, `MeanNotAlwaysExact`), and
  otherwise off by less than 2 over the length (`MeanWithinBound`).
- A Qt probe that raises escapes `_try_qt_fallback`, where the plan of a switch guards its own
  probe (src/michi/application/audio_engine_selection_coordinator.py:179-187).  The Qt provider
  itself catches every `Exception` of its import
  (src/michi/infrastructure/audio_engines/providers.py:100-126), so this takes another provider or
  a failure outside that guard.  In a runtime loss the exception leaves the state READY on an engine
  that has been closed and unbound (`RuntimeFailureKeeps`, `LossStrands`); in the recovery of a
  switch it replaces the first error (`RaisesFirstIff`, `ProbeReplacesFirst`).
- An aborted switch does not give back the message and the fallback origin of the state before
  (`AbortRestoresIff`, `AbortedRetryLosesDiagnostics`).
- A provider whose `close()` raised is forgotten, and the next successful switch runs a second
  engine beside it (`TwoEnginesRun`, `LeakRun`); without such an exception none ever does
  (`OnlyTheBoundEngineRuns`).
- A subscription that registers its callback and then raises survives the rollback of the attach,
  and the generation of the failed bind is used again (`RaisingSubscriptionIsLeft`,
  `LeftoverDeliversTwice`).
- A raw field that spells the base and number of a repeated later device gives two devices of a
  batch one identity, and nothing else does (`DistinctIdsIff`, `HashCollides`); a binding observed
  as unavailable makes every re-scan publish (`IdempotentIff`, `UnavailableEndpointRepublishes`).
- The journal does not repair a cut tail before it continues (`EventJournal.ContinuesIff`);
  recovery of the receipts restores neither the failure count nor a missing line break
  (`ReceiptRecovery.ContinuesIff`, `FirstSealIff`, `UntidyCrashSpoils`); chunk names sort as the chunks do exactly
  below a million chunks (`SortedIsUpwardsIff`).
- A managed output cannot be selected a second time: the SQLite repository does not store the
  processing flag and reads it back as false
  (src/michi/infrastructure/sqlite_audio_output_repository.py:108-120), and `_select_profile`
  refuses a managed profile without it (`ManagedAgainIff`, `ManagedTwice`).
- The availability test of `handle_topology_changed` never decides anything
  (`GenerationDecidesAvailability`).

## Model

| member | source | states |
|---|---|---|
| `SigmaDelta.Modulate` | tools/audio_phase2/dsd2pcm_conformance.py:170-195 | The byte string read least-significant bit first is the decided bit stream, padded with zero bits to a whole byte: as a number, each byte is the sum of 2^k over those k for which bit k of its eight is set |
| `Octets.BitIsDigit` | tools/audio_phase2/dsd2pcm_conformance.py:188-190 | Bit k of a byte is set if and only if the number of the byte divided by 2^k is odd |
| `Octets.ValueIsNumber` | tools/audio_phase2/dsd2pcm_conformance.py:188-190 | The value that the bits of a byte add up to is the byte as a number |
| `Octets.OctetIsRemainder` | tools/audio_phase2/dsd2pcm_conformance.py:198-217 | The byte built from a number below 256 bit by bit is that number |
| `SigmaDelta.SymbolsTelescope` | tools/audio_phase2/dsd2pcm_conformance.py:183-188 | For every level sequence the symbols sent add up to the levels received, minus the first integrator, plus the last symbol fed back |
| `SigmaDelta.DecisionsAreCausal` | tools/audio_phase2/dsd2pcm_conformance.py:183-186 | Every decided bit depends on the levels up to it only |
| `SigmaDelta.StepStaysInside` | tools/audio_phase2/dsd2pcm_conformance.py:184-187 | For every level strictly inside (-1, 1) and every radius from 2 on, the region between the two conserved parabolas is left by no step of the loop |
| `SigmaDelta.IntegratorsBounded` | tools/audio_phase2/dsd2pcm_conformance.py:247-251 | At every constant level strictly inside (-1, 1) and every length the first integrator stays below 3, and the second below 9/2 over the level's distance from the rails |
| `SigmaDelta.DriftBounded` | tools/audio_phase2/dsd2pcm_conformance.py:173-175 | Strictly inside the rails the symbols sent never drift from the level by 2, at any level and any length |
| `SigmaDelta.MeanWithinBound` | tools/audio_phase2/dsd2pcm_conformance.py:173-175 | The mean of the stream is within 2/n of the level, one constant for every level strictly inside (-1, 1) |
| `SigmaDelta.MeanExactIff` | tools/audio_phase2/dsd2pcm_conformance.py:173-175 | The mean is exactly the level if and only if the level is in [-1, 1] and level times length is an integer that is even or odd as the length is |
| `SigmaDelta.MeanNotAlwaysExact` | tools/audio_phase2/dsd2pcm_conformance.py:173-175 | A finite stream whose mean is not its level, against the docstring |
| `SigmaDelta.MeanConvergesIff` | tools/audio_phase2/dsd2pcm_conformance.py:247-251 | The mean tends to the level as the stream grows if and only if the level is in [-1, 1] |
| `SigmaDelta.OverloadEscapes` | tools/audio_phase2/dsd2pcm_conformance.py:249-250 | Beyond the rails the loop drifts without bound, which is what the guard shuts out |
| `SigmaDelta.StimulusExact` | tools/audio_phase2/dsd2pcm_conformance.py:247-251 | The harness's own constant stimuli, +1/4 and -1/4 over 176400 bits, have exactly their level as mean |
| `SigmaDelta.StepResponseBounded` | tools/audio_phase2/dsd2pcm_conformance.py:254-266 | After any stimulus whatever, a constant level strictly inside (-1, 1) keeps both integrators bounded for ever |
| `SigmaDelta.StepFollowsBothLevels` | tools/audio_phase2/dsd2pcm_conformance.py:254-266 | A step stimulus is the first level's stream up to the bit of the transition, and from there follows the second level up to a bound its length does not enter |
| `SigmaDelta.StepFollowsWithin` | tools/audio_phase2/dsd2pcm_conformance.py:254-266 | With both levels inside the rails that bound depends on the first level alone: 18 over its distance from the rails, plus 10 |
| `DsfContainer.ReadOfBuild` | tools/audio_phase2/dsd2pcm_conformance.py:198-217 | Walking the chunk sizes consumes the container exactly and returns sample count, channel count, rate, block size and payload as they were put in |
| `DsfContainer.BuiltBytes` | tools/audio_phase2/dsd2pcm_conformance.py:198-217 | Every field of a built container, byte by byte: identifiers, chunk sizes 28 and 52, format, channels, rate, sample count, block size 4096 and payload at their fixed offsets, numbers least-significant byte first |
| `DsfContainer.DsfBlockPayload` | tools/audio_phase2/dsd2pcm_conformance.py:269-278 | Both channels of the payload de-interleave to the stream padded to whole 4096-byte blocks, block k of the left channel at byte 8192 k and of the right one 4096 bytes later |
| `DsfContainer.DsfStereoPayload` | tools/audio_phase2/dsd2pcm_conformance.py:281-291 | Each channel de-interleaves to its own padded stream; refused if and only if the padded lengths differ |
| `DsfContainer.DsfDcBlob` | tools/audio_phase2/dsd2pcm_conformance.py:323-325 | Refused if and only if the level is outside (-1, 1) or the sizes do not fit; otherwise a reader gets the modulated bits back from both channels |
| `DsfContainer.DsfStereoBlob` | tools/audio_phase2/dsd2pcm_conformance.py:328-346 | Two modulated channels read back bit for bit from one container |
| `Octets.ReverseMirrors` | native/michi-dop/src/lib.rs:399-405 | Reversal sends bit i to bit 7 - i |
| `Octets.ReverseTwice` | native/michi-dop/src/lib.rs:399-405 | Reversing twice gives the byte back |
| `DopPacking.PackConcat` | native/michi-dop/src/lib.rs:316-358 | Packing in two calls that hand over the leftover bytes and the marker phase is packing in one |
| `DopPacking.LeftoverIsTail` | native/michi-dop/src/lib.rs:311-324 | What stays pending is exactly the last n mod 4 bytes |
| `DopPacking.UnpackOfPack` | native/michi-dop/src/lib.rs:331-358 | A strict receiver recovers every whole group of the packed stream |
| `DopPacking.PackOfUnpack` | native/michi-dop/src/lib.rs:331-358 | A stream the strict receiver accepts is the packing of what it recovers, and nothing else |
| `DopPacking.MarkersAlternate` | native/michi-dop/src/lib.rs:331-351 | Both words of frame k of a packed stream carry 0x05 or 0xFA, by the parity of k and the phase before it |
| `DopPacking.FrameBytes` | native/michi-dop/src/lib.rs:17-18 | The bytes of every packed frame: the third of each word is 0x05 in frames of even parity and 0xFA in the others, with the two payload bytes of its channel before it |
| `DopElement.MichiDop.SetReversePayloadBits` | native/michi-dop/src/lib.rs:87-99 | Ignored while running; otherwise sets the flag and resets pending bytes and phase |
| `DopElement.MichiDop.Start` | native/michi-dop/src/lib.rs:216-224 | Locks the flag once the parent has started, and resets nothing |
| `DopElement.MichiDop.Stop` | native/michi-dop/src/lib.rs:226-233 | Unlocks the flag and resets pending bytes and phase |
| `DopElement.MichiDop.Flush` | native/michi-dop/src/lib.rs:367-373 | Resets pending bytes and phase |
| `DopElement.MichiDop.PackLoop` | native/michi-dop/src/lib.rs:310-358 | The two nested loops write the frames that fit, in order, and stop at the first that does not |
| `DopElement.MichiDop.SetCaps` | native/michi-dop/src/lib.rs:235-277 | Accepted exactly for half the rate and a known layout; sets the layout and resets |
| `DopElement.MichiDop.TransformSize` | native/michi-dop/src/lib.rs:279-294 | The size of the whole frames that pending and new bytes make, unless it overflows |
| `DopElement.MichiDop.Transform` | native/michi-dop/src/lib.rs:296-364 | Writes the packing of pending and new bytes, its frames marked 0x05 and 0xFA in turn from the current phase, or fails with the phase of the frames that fitted and the old pending bytes |
| `DopElement.MichiDop.EndOfStream` | native/michi-dop/src/lib.rs:374-385 | Accepted if and only if nothing is pending |
| `DopRuns.RequestedSizeSuffices` | native/michi-dop/src/lib.rs:279-330 | With an output of the requested size the error exit is unreachable, and that size is filled exactly, or at most on a discontinuity |
| `DopRuns.RunStaysInStep` | native/michi-dop/src/lib.rs:87-99 | Over every run of property, start, stop, caps, flush and buffer events, pending bytes, phase and output since the last reset are those of one single buffer |
| `DopRuns.SegmentUnpacks` | native/michi-dop/src/lib.rs:296-372 | Over every run the output since the last reset alternates its markers, uses one layout and one reversal, and unpacks to its input |
| `DopRuns.SegmentBytes` | native/michi-dop/src/lib.rs:296-372 | Over every run, byte by byte: the third byte of both words of frame k since the last reset is 0x05 for even k and 0xFA for odd k, and the others are the input bytes of that frame where the layout puts them |
| `DopRuns.EndAcceptedIff` | native/michi-dop/src/lib.rs:374-385 | An end of stream is accepted if and only if every byte since the last reset was emitted |
| `DopRuns.SplitInvariant` | native/michi-dop/src/lib.rs:305-364 | Where the input is cut into buffers changes neither output, pending bytes nor phase |
| `DopRuns.ErrorKeepsStepIff` | native/michi-dop/src/lib.rs:325-336 | A failed call leaves the element in step if and only if an even number of frames had fitted |
| `SingleFlight.StepKeepsInv` | src/michi/application/dac_qualification_service.py:253-298 | Every step of every caller keeps: an unfinished or still held flight is the one registered under its key, and waiters counts the followers inside |
| `SingleFlight.RunKeepsInv` | src/michi/application/dac_qualification_service.py:236-298 | The same over every interleaving |
| `SingleFlight.AtMostOneProbe` | src/michi/application/dac_qualification_service.py:239-242 | In every interleaving at most one caller per key is inside the probe |
| `SingleFlight.SharedOutcome` | src/michi/application/dac_qualification_service.py:191-196 | Leader and followers of one flight that do not time out are told the same terminal outcome |
| `SingleFlight.ToldIsTheProbes` | src/michi/application/dac_qualification_service.py:253-298 | In every interleaving, whoever does not time out is told how the one probe of its flight ended, run by the leader of that flight: its value, its exception, or the lack of a terminal outcome |
| `SingleFlight.WaiterHasLeader` | src/michi/application/dac_qualification_service.py:279-286 | A waiting caller can be woken, or the leader of its flight is still to publish |
| `SingleFlight.QuiescentFlightsFinished` | src/michi/application/dac_qualification_service.py:287-292 | When no call is in progress every registered flight is finished and held by nobody |
| `SingleFlight.LeftoverRemovedIff` | src/michi/application/dac_qualification_service.py:287-298 | In every interleaving that starts and ends with no call in progress, a flight left over at the start is gone at the end if and only if some call of its key was made; a wait on a finished flight returns at once |
| `SingleFlight.LeftoverIsShared` | src/michi/application/dac_qualification_service.py:253-298 | Until then the next call of its key joins it without a probe, and whoever was with it without timing out was told its outcome, at every moment |
| `SingleFlight.NextCallRemovesLeftover` | src/michi/application/dac_qualification_service.py:287-298 | In particular one such call by itself can run through: it waits, wakes, is told the outcome and removes the flight |
| `SingleFlight.LeftoversNeedAnExpiredWait` | src/michi/application/dac_qualification_service.py:279-292 | Without an expired wait no finished flight stays registered |
| `SingleFlight.ExpiredWaitLeavesOne` | src/michi/application/dac_qualification_service.py:276-286 | A wait that expires while its leader publishes does leave one |
| `TransportRouter.AudioTransportRouter.Bind` | src/michi/application/audio_transport_router.py:69-95 | Idempotent for the same port; else detach, six subscriptions, and the new generation only if all succeed, with rollback if not |
| `TransportRouter.AudioTransportRouter.Attach` | src/michi/application/audio_transport_router.py:134-175 | Six subscriptions in order; the one that raises stops them, with those before it registered |
| `TransportRouter.AudioTransportRouter.UnsubscribeAll` | src/michi/application/audio_transport_router.py:177-190 | Takes every callback of the attach off its list, except where that raises |
| `TransportRouter.AudioTransportRouter.SubscribeConsumer` | src/michi/application/audio_transport_router.py:353-403 | Adds a consumer of a kind once |
| `TransportRouter.AudioTransportRouter.UnsubscribeConsumer` | src/michi/application/audio_transport_router.py:353-403 | Removes a consumer of a kind |
| `TransportRouter.AudioTransportRouter.Forward` | src/michi/application/audio_transport_router.py:228-277 | A callback calls the subscribed consumers of its kind only while its port and generation are the current ones |
| `TransportRouter.AudioTransportRouter.Unbind` | src/michi/application/audio_transport_router.py:207-226 | Detaches whatever the unsubscriptions do |
| `TransportRouter.RunKeepsInv` | src/michi/application/audio_transport_router.py:69-226 | Over every run the bound port has its six registered callbacks of the current generation, and an unbound router none |
| `TransportRouter.OnlyTheBoundPortIsHeard` | src/michi/application/audio_transport_router.py:232-234 | An event of a port that is not bound reaches nobody |
| `TransportRouter.SupersededNeverHeard` | src/michi/application/audio_transport_router.py:228-234 | A callback of an unbound or replaced binding is never forwarded again, whatever follows |
| `TransportRouter.BindBindsOrUnbinds` | src/michi/application/audio_transport_router.py:72-77 | A bind binds, or leaves the router unbound at the old generation |
| `TransportRouter.UnbindLeavesIff` | src/michi/application/audio_transport_router.py:192-226 | An unbind leaves on the lists the callbacks of other bindings, and its own ones whose unsubscription raised, and no others |
| `TransportRouter.FailedBindLeavesIff` | src/michi/application/audio_transport_router.py:81-95 | A failed bind leaves besides exactly the callbacks before the failing one whose unsubscription raised, and the failing one if it had been registered |
| `TransportRouter.ExactlyOnceIff` | src/michi/application/audio_transport_router.py:81-95 | After a new binding every event is forwarded once if and only if the port has no leftover of a failed attach |
| `TransportRouter.DeliveredExactlyOnce` | src/michi/application/audio_transport_router.py:72-74 | Over every run that binds ports without leftovers, each event reaches each subscribed consumer exactly once |
| `TransportRouter.ReachedIff` | src/michi/application/audio_transport_router.py:353-403 | Over every run, whatever is bound or fails in between, the consumers a forwarded event reaches are exactly those that subscribed and have not unsubscribed since |
| `TransportRouter.ConsumersAfter` | src/michi/application/audio_transport_router.py:353-403 | A subscription adds a new consumer at the end and drops nobody, an unsubscription takes out one and keeps the order of the others, and binding touches no list |
| `TransportRouter.CautiousRunIsClean` | src/michi/application/audio_transport_router.py:81-95 | Runs bind such ports only, if no attach that was not rolled back is followed by a bind of its port before another bind has succeeded |
| `TransportRouter.RaisingSubscriptionIsLeft` | src/michi/application/audio_transport_router.py:173-190 | A subscription that registers and then raises is not rolled back |
| `TransportRouter.LeftoverDeliversTwice` | src/michi/application/audio_transport_router.py:81-95 | Binding that port next, at the same generation, delivers its events twice |
| `EngineSafety.ActivateAndBindSafe` | src/michi/application/audio_engine_convergence_coordinator.py:163-230 | An activation from a released state ends bound and READY, bound and FAILED, or fully released, with its first error in front |
| `EngineSafety.FallbackIsSafe` | src/michi/application/audio_engine_convergence_coordinator.py:232-265 | The Qt fallback opens only from proven release and ends consistent, unless the Qt probe itself raises |
| `EngineSafety.SwitchSourceSafe` | src/michi/application/audio_engine_selection_coordinator.py:311-354 | From the destructive boundary on, every failure ends orderly, with the state telling the truth |
| `EngineSafety.RouterBinds` | src/michi/application/audio_transport_router.py:69-95 | What the lifecycle assumes of a bind is what the router does |
| `EngineSafety.RouterUnbinds` | src/michi/application/audio_transport_router.py:207-226 | What the lifecycle assumes of an unbind that does not raise is what the router does |
| `EngineRuns.SwitchKeeps` | src/michi/application/audio_engine_selection_coordinator.py:212-455 | Whatever fails, a switch ends at rest with the selection persisted and the state faithful to the router; a refusal changes nothing; success means READY on the target; the recorded stage tells what became of source and target: still bound and active, released, or given up and possibly running on |
| `EngineRuns.RaisesFirstIff` | src/michi/application/audio_engine_selection_coordinator.py:356-425 | A switch raises something else than the first exception of its operation if and only if the target fails and is released, a recovery is wired and allowed, and the Qt probe raises at that moment |
| `EngineOutcomes.PlanIs` | src/michi/application/audio_engine_selection_coordinator.py:153-210 | Which action a selection plans, and with which blocker, in every world |
| `EngineOutcomes.RefusedIff` | src/michi/application/audio_engine_selection_coordinator.py:212-257 | From a settled world a switch is refused as unavailable if and only if its target is not active and READY and its probe raises or says that it cannot activate; for pending media if and only if it could be reached, the lease is free and one of the two questions says yes; and never as in progress |
| `EngineOutcomes.RunningIsKept` | src/michi/application/audio_engine_selection_coordinator.py:167-181 | Selecting the engine that is active and READY moves nothing but the preference, and nothing if saving it raises |
| `EngineOutcomes.RehydratesIff` | src/michi/application/audio_engine_selection_coordinator.py:426-450 | After a switch that came to its target the lease is with the rehydration if and only if that did not raise and goes on asynchronously, and free otherwise |
| `EngineOutcomes.FallbackSucceeds` | src/michi/application/audio_engine_convergence_coordinator.py:232-265 | A fallback in which nothing goes wrong for four moments ends READY on Qt, bound to it, with the reason and the origin told |
| `EngineOutcomes.FallbackIsInactive` | src/michi/application/audio_engine_convergence_coordinator.py:242-250 | When Qt says that it cannot be activated, the fallback ends on no engine, with both reasons |
| `EngineOutcomes.SwitchFallsBack` | src/michi/application/audio_engine_selection_coordinator.py:356-425 | A switch whose target fails and is released raises the cause; with the recovery wired it ends READY on Qt if nothing goes wrong for four moments, and without it on no engine |
| `EngineFailures.ProbeReplacesFirst` | src/michi/application/audio_engine_selection_coordinator.py:356-425 | GStreamer fails to open, the Qt probe raises: the caller is told the second exception |
| `EngineFailures.AbortRestoresIff` | src/michi/application/audio_engine_selection_coordinator.py:291-309 | A switch, or a retry of the preferred engine, that a raising stop ends raises that exception and leaves engines and router alone; it restores the old state if and only if that carried no diagnostics and the rollback of the preference did not raise |
| `EngineFailures.AbortedRetryLosesDiagnostics` | src/michi/application/audio_engine_selection_coordinator.py:291-309 | From application start on the Qt fallback: a retry of GStreamer whose stop raises loses the reason and the origin of the fallback |
| `EngineFailures.SwitchSucceeds` | src/michi/application/audio_engine_selection_coordinator.py:212-455 | From any settled world a switch in which nothing goes wrong for ten moments succeeds |
| `EngineRuns.RuntimeFailureKeeps` | src/michi/application/audio_engine_convergence_coordinator.py:315-386 | A runtime loss leaves things settled, and the state truthful if and only if the probe of the fallback engine does not raise |
| `EngineFailures.LossStrands` | src/michi/application/audio_engine_convergence_coordinator.py:343-386 | From application start: GStreamer is lost, the Qt probe raises, and the state stays READY on an engine closed and unbound |
| `EngineOutcomes.LossIgnoredIff` | src/michi/application/audio_engine_convergence_coordinator.py:315-335 | A loss report changes nothing if and only if the application is shut down, or the engine is not the active one, or the generation is not its current one |
| `EngineOutcomes.LossEnds` | src/michi/application/audio_engine_convergence_coordinator.py:343-386 | A handled loss whose engine was detached and closed ends on no engine if that was Qt or the policy blocks, and READY on Qt otherwise if nothing goes wrong for four moments |
| `EngineOutcomes.LossEndsRehydration` | src/michi/application/audio_engine_convergence_coordinator.py:343-352 | A handled loss stops playback, which ends a rehydration |
| `EngineFailures.DuplicateLossIgnoredIff` | src/michi/application/audio_engine_convergence_coordinator.py:319-330 | The second report of a loss changes nothing if and only if the router had let go of the engine and the fallback was not stranded |
| `EngineRuns.StartupKeeps` | src/michi/application/audio_engine_convergence_coordinator.py:97-161 | Startup ends settled and truthful for every failure pattern |
| `EngineOutcomes.StartupFallsBackInactive` | src/michi/application/audio_engine_convergence_coordinator.py:123-144 | Startup whose preferred engine is not Qt and cannot be activated ends READY on Qt if nothing goes wrong for four moments |
| `EngineOutcomes.StartupFallsBackReleased` | src/michi/application/audio_engine_convergence_coordinator.py:145-158 | Startup whose preferred engine is not Qt, fails and is released ends READY on Qt, with the cause and the origin told, if nothing goes wrong for four moments |
| `EngineOutcomes.StartupStays` | src/michi/application/audio_engine_convergence_coordinator.py:97-144 | Startup does nothing after shutdown or when the probe raises, and does not fall back from Qt |
| `EngineOutcomes.StartsWithNothing` | src/michi/application/audio_engine_service.py:25-32 | Before startup nothing is active, open, leased, shut down or in trouble, and a reported loss changes nothing |
| `EngineOutcomes.EventsLeave` | src/michi/application/audio_engine_convergence_coordinator.py:392-398 | What each event of a run does: a switch and a loss report are handled, the end of a rehydration frees the lease and nothing else, and after shutdown neither a loss nor a startup does anything |
| `EngineOutcomes.OneMoreOperation` | src/michi/application/audio_engine_selection_coordinator.py:107-113 | A run performs its operations in order, each on what the ones before it left |
| `EngineRuns.RunKeepsSettled` | src/michi/application/audio_engine_selection_coordinator.py:107-113 | Over every run of switches, losses, rehydrations and shutdown: one tracked engine at a time, never a closed one bound, fallback only from proven release, nothing left half-way |
| `EngineRuns.EngineLifecycleIsSafe` | src/michi/application/audio_engine_convergence_coordinator.py:65-67 | The same from application start; the active engine is the bound one, and the only one running while no close and no unbind has raised |
| `EngineLeaks.RaisedCloseLeaks` | src/michi/application/audio_engine_selection_coordinator.py:345-351 | A source whose close raises runs on untracked |
| `EngineLeaks.RetryRunsBeside` | src/michi/application/audio_engine_selection_coordinator.py:212-455 | Every successful retry then opens its target beside it: two engines run |
| `EngineLeaks.TwoEnginesRun` | src/michi/application/audio_engine_selection_coordinator.py:345-351 | After a switch that raised at the close of its source, a next one that succeeds leaves two engines running, unless it targets that source |
| `EngineLeaks.LeakRun` | src/michi/application/audio_engine_selection_coordinator.py:345-351 | From application start on Qt, whose close raises once: GStreamer ends up active and Qt still runs, untracked |
| `EngineLeaks.OnlyTheBoundEngineRuns` | src/michi/application/audio_engine_convergence_coordinator.py:65-67 | Over every run in which no close and no unbind raises, whatever else fails: the only engine running is the one the router is bound to |
| `EngineCoordinators.AudioEngineService.Replace` | src/michi/application/audio_engine_service.py:56-68 | Commits the state, which observers see with the router's binding |
| `EngineCoordinators.AudioEngineService.MarkInitializing` | src/michi/application/audio_engine_service.py:70-79 | INITIALIZING towards the engine, nothing active, diagnostics cleared, the preference kept; never at rest; the state agrees with the router exactly when nothing is bound |
| `EngineCoordinators.AudioEngineService.MarkReady` | src/michi/application/audio_engine_service.py:81-90 | READY on the engine, diagnostics cleared, the preference kept; the observers are told the truth exactly when the router is bound to that engine |
| `EngineCoordinators.AudioEngineService.MarkFailed` | src/michi/application/audio_engine_service.py:92-104 | FAILED with the message, nothing active, the preference kept; at rest; the state agrees with the router exactly when nothing is bound |
| `EngineCoordinators.AudioEngineService.MarkUnavailable` | src/michi/application/audio_engine_service.py:106-116 | UNAVAILABLE with the message, nothing active, the preference kept; at rest; the state agrees with the router exactly when nothing is bound |
| `EngineCoordinators.AudioEngineService.RestoreSelected` | src/michi/application/audio_engine_service.py:123-137 | The preference changes and the fallback origin is dropped; engine, transition and message stay, and a true state stays true |
| `EngineCoordinators.AudioEngineService.MarkSelected` | src/michi/application/audio_engine_service.py:139-151 | The preference and the switch target change and the diagnostics are cleared; the active engine stays, and a true state stays true |
| `EngineCoordinators.AudioEngineService.MarkSelectionAborted` | src/michi/application/audio_engine_service.py:153-169 | The preference given back and the switch target cleared, engine and diagnostics kept; at rest unless a transition was under way, and a true state stays true |
| `EngineCoordinators.AudioEngineService.MarkClosing` | src/michi/application/audio_engine_service.py:171-182 | CLOSING with the engine still active, the preference kept; the state agrees with the router exactly when it is still bound |
| `EngineCoordinators.AudioEngineService.MarkBoundFailed` | src/michi/application/audio_engine_service.py:184-203 | FAILED with the engine named as active, the preference kept; at rest; the state agrees with the router exactly when the router is bound to it |
| `EngineCoordinators.AudioEngineService.MarkFallbackReady` | src/michi/application/audio_engine_service.py:211-233 | READY on the fallback engine with origin and reason, the preference never touched; the observers are told the truth exactly when the router is bound to it |
| `EngineCoordinators.AudioEngineService.MarkConvergenceFailed` | src/michi/application/audio_engine_service.py:235-250 | FAILED with the reasons, never READY, nothing active, no fallback origin, the preference kept; the state agrees with the router exactly when nothing is bound |
| `EngineCoordinators.ActivateEngine` | src/michi/application/audio_engine_convergence_coordinator.py:177-230 | The steps of an activation, in order, are those of the specification |
| `EngineCoordinators.ReleaseFailedTarget` | src/michi/application/audio_engine_convergence_coordinator.py:201-223 | Unbind first; close only what is no longer bound |
| `EngineCoordinators.OpenAndAttach` | src/michi/application/audio_engine_selection_coordinator.py:357-381 | Open, bind and restore the volume, releasing on the first exception |
| `EngineCoordinators.AudioEngineConvergenceCoordinator.TryQtFallback` | src/michi/application/audio_engine_convergence_coordinator.py:242-265 | The fallback attempt does what the specification says |
| `EngineCoordinators.AudioEngineConvergenceCoordinator.ConvergeStartup` | src/michi/application/audio_engine_convergence_coordinator.py:111-161 | Startup convergence does what the specification says, nothing after shutdown; from a fresh start it ends settled and truthful, whatever fails, and Qt takes over from another engine that is inactive, or that failed and was released, if nothing goes wrong for four moments |
| `EngineCoordinators.AudioEngineConvergenceCoordinator.RecoverSafeUnboundFailure` | src/michi/application/audio_engine_convergence_coordinator.py:281-293 | Recovery tries Qt once for a non-Qt target and always leaves the re-entrancy flag down |
| `EngineCoordinators.AudioEngineConvergenceCoordinator.HandleRuntimeFailure` | src/michi/application/audio_engine_convergence_coordinator.py:315-386 | Handles the loss of the active engine's current generation; any other event, or one during a recovery, changes nothing; things stay settled, and truthful exactly when the loss strands nothing |
| `EngineCoordinators.AudioEngineConvergenceCoordinator.ConvergeRuntimeLoss` | src/michi/application/audio_engine_convergence_coordinator.py:343-386 | Detach, close, then fallback only if both succeeded, the engine was not Qt and the policy allows it |
| `EngineCoordinators.AudioEngineConvergenceCoordinator.Shutdown` | src/michi/application/audio_engine_convergence_coordinator.py:392-398 | From now on no failure event and no recovery does anything |
| `EngineCoordinators.AudioEngineSelectionCoordinator.SelectionPlan` | src/michi/application/audio_engine_selection_coordinator.py:153-210 | The plan of a selection, with a nested switch always blocked; a target that is not running is planned as unreachable if and only if its probe raises or says that it cannot activate |
| `EngineCoordinators.AudioEngineSelectionCoordinator.SwitchToTransaction` | src/michi/application/audio_engine_selection_coordinator.py:234-271 | Carries out a plan; a refused one changes nothing |
| `EngineCoordinators.AudioEngineSelectionCoordinator.UnderLease` | src/michi/application/audio_engine_selection_coordinator.py:277-313 | Persist before stop before tear-down, with rollback of a failed stop |
| `EngineCoordinators.AudioEngineSelectionCoordinator.ReleaseSource` | src/michi/application/audio_engine_selection_coordinator.py:312-354 | Unbind before close, and neither close nor open after a failure |
| `EngineCoordinators.AudioEngineSelectionCoordinator.KeepStuckSource` | src/michi/application/audio_engine_selection_coordinator.py:319-344 | A source whose unbind raised is named as active when the router kept it, and given up as lost when not |
| `EngineCoordinators.AudioEngineSelectionCoordinator.ActivateTarget` | src/michi/application/audio_engine_selection_coordinator.py:356-450 | Activates the target, asks for recovery only after a proven release, and starts the rehydration on success |
| `EngineCoordinators.AudioEngineSelectionCoordinator.SwitchTo` | src/michi/application/audio_engine_selection_coordinator.py:222-232 | The whole transaction is the specified one and records its failure stage; a nested call is refused and changes nothing; from a settled world it is refused if and only if `RefusedIff` says so, and everything `SwitchKeeps` states holds of the objects |
| `DeviceObservations.DistinctIdsIff` | src/michi/application/audio_device_registry.py:373-395 | Every device of a batch has its own identity if and only if no raw field spells the base and number that a repeated later device gets |
| `DeviceObservations.PlainBasesAreDistinct` | src/michi/application/audio_device_registry.py:373-395 | In particular raw fields without '#' give every device of a batch its own identity |
| `DeviceObservations.HashCollides` | src/michi/application/audio_device_registry.py:391-394 | With a '#' in a raw field two devices of one batch can share an identity |
| `DeviceObservations.SharedSerialIdentifiesNobody` | src/michi/application/audio_device_registry.py:379-410 | A serial that two devices of a batch report identifies neither, and gives neither high confidence |
| `DeviceOutcomes.UsefulSerialIff` | src/michi/application/audio_device_registry.py:83-94 | A serial is useful if and only if two different characters are left once blanks are stripped from its ends |
| `Texts.BlankIff` | src/michi/application/audio_device_registry.py:87 | Which characters count as blanks when a text is stripped |
| `Texts.StripTakesBlanks` | src/michi/application/audio_device_registry.py:87 | Stripping takes the blanks off both ends and nothing else |
| `Texts.CasesPair` | src/michi/application/audio_output_selection_coordinator.py:205 | Folding a text pairs the 26 letters |
| `Texts.OthersStay` | src/michi/application/audio_output_selection_coordinator.py:205 | and leaves every other character alone |
| `Decimals.DecimalReads` | src/michi/application/audio_device_registry.py:391-394 | The number in an identity or file name stands for itself, without a leading zero |
| `DeviceOutcomes.IdentifiesIff` | src/michi/application/audio_device_registry.py:379-383 | A device is known by its serial if and only if that is useful and no other device of the batch reports it |
| `DeviceOutcomes.IdentityByEvidence` | src/michi/application/audio_device_registry.py:373-412 | From serial, path or product: the identity a device gets, and the confidence that goes with it |
| `DeviceRegistry.StampedKeysIff` | src/michi/application/audio_device_registry.py:97-113 | Storing a binding set leaves its key unchanged if and only if every binding was observed as available |
| `DeviceRegistry.SweptRecords` | src/michi/application/audio_device_registry.py:360-369 | Reconciliation disconnects exactly the absent records, each under a fresh generation, and touches no other |
| `DeviceRegistry.IngestedReflects` | src/michi/application/audio_device_registry.py:251-371 | After a re-scan every record says what the batch says of its device, up to its generation |
| `DeviceRegistry.HistoryIndependent` | src/michi/application/audio_device_registry.py:251-371 | From any two registries the same batch gives the same available devices with the same binding sets |
| `DeviceHistory.OperatedEvolves` | src/michi/application/audio_device_registry.py:318-369 | Every operation keeps: bindings carry their record's generation, generations are distinct, available means bindings, and a kept generation means a kept topology |
| `DeviceHistory.RemovedRecords` | src/michi/application/audio_device_registry.py:485-495 | A physical removal takes exactly the devices that were available on its path: they end unavailable, without bindings, under a greater generation; every other record is equal to what it was |
| `DeviceHistory.RunEvolves` | src/michi/application/audio_device_registry.py:480-495 | The same between any two moments of any run |
| `DeviceHistory.AcceptedMeansUnchanged` | src/michi/application/audio_device_registry.py:543-553 | A probe result is accepted only if availability and binding set never changed since its generation was read |
| `DeviceHistory.PublishedIffGrown` | src/michi/application/audio_device_registry.py:505-540 | A device is published if and only if its generation grew |
| `DeviceHistory.PublishedInOrder` | src/michi/application/audio_device_registry.py:510-510 | The changes of one operation are published in ascending order of identities |
| `DeviceHistory.ReplayReachesSnapshot` | src/michi/application/audio_device_registry.py:505-540 | Replaying the published changes on a view of the old registry gives one of the new |
| `DeviceBatches.IdempotentIff` | src/michi/application/audio_device_registry.py:251-371 | Ingesting the same acts on distinct devices again changes nothing, and announces nothing, if and only if every offered binding was available |
| `DeviceBatches.RescanIsIdempotent` | src/michi/application/audio_device_registry.py:251-371 | In terms of observations: for every batch whose identities are distinct, repeating it changes nothing, and announces nothing, if and only if its endpoints are available |
| `DeviceBatches.UnavailableEndpointRepublishes` | src/michi/application/audio_device_registry.py:97-113 | A single ALSA endpoint that reports itself unavailable is announced again by every re-scan |
| `DeviceBatches.EveryEndpointHeld` | src/michi/application/audio_device_registry.py:303-358 | After a re-scan every ALSA playback endpoint is held by an available device, by one only when paths and locators are distinct and USB and ALSA observations disjoint |
| `DeviceOutcomes.UsbDeviceRecorded` | src/michi/application/audio_device_registry.py:301-337 | After a re-scan with distinct identities a USB device is available if and only if ALSA reports playback on its path; it holds exactly those endpoints, or the one it names itself, and carries what was observed |
| `DeviceOutcomes.LocalAvailableIff` | src/michi/application/audio_device_registry.py:339-358 | After a re-scan the device named after a locator is available if and only if ALSA reports playback there and no USB device of the batch holds it |
| `DeviceOutcomes.LocalDeviceRecorded` | src/michi/application/audio_device_registry.py:339-358 | Such a device is what the first endpoint with its locator says, known with low confidence |
| `DeviceOutcomes.KeysIff` | src/michi/application/audio_device_registry.py:97-113 | Two bindings count as the same if and only if they agree on kind, locator, the three numbers, signature and availability |
| `AudioDeviceRegistry.AudioDeviceRegistry.ApplyObservations` | src/michi/application/audio_device_registry.py:268-371 | USB pass, ALSA pass, reconciliation and publication compute the acts of the batch |
| `AudioDeviceRegistry.AudioDeviceRegistry.Ingest` | src/michi/application/audio_device_registry.py:251-260 | A full re-scan with reconciliation; the selected device stays selected |
| `AudioDeviceRegistry.AudioDeviceRegistry.HandleAdded` | src/michi/application/audio_device_registry.py:262-266 | The same algorithm for one observation, without reconciliation |
| `AudioDeviceRegistry.AudioDeviceRegistry.CountSerials` | src/michi/application/audio_device_registry.py:295-299 | How many USB observations carry each useful serial |
| `AudioDeviceRegistry.AudioDeviceRegistry.UsbPass` | src/michi/application/audio_device_registry.py:301-337 | The USB loop admits or disconnects each identified device and collects the admitted ones |
| `AudioDeviceRegistry.AudioDeviceRegistry.LocalPass` | src/michi/application/audio_device_registry.py:339-358 | The ALSA loop admits the playback endpoints no admitted device holds |
| `AudioDeviceRegistry.AudioDeviceRegistry.Sweep` | src/michi/application/audio_device_registry.py:360-369 | Disconnects the given records, each with a new generation, in order |
| `AudioDeviceRegistry.AudioDeviceRegistry.ApplyProbeResult` | src/michi/application/audio_device_registry.py:543-553 | Accepts if and only if the device is known at that generation |
| `AudioDeviceRegistry.AudioDeviceRegistry.IdentityFor` | src/michi/application/audio_device_registry.py:373-395 | The identity with the batch's serial counts and taken identities |
| `AudioDeviceRegistry.AudioDeviceRegistry.Publish` | src/michi/application/audio_device_registry.py:412-464 | Admits a device; a new generation if and only if its binding set changed |
| `AudioDeviceRegistry.AudioDeviceRegistry.HandleRemoved` | src/michi/application/audio_device_registry.py:485-495 | Disconnects exactly the devices that were available on the path, each with a new generation and without bindings; every other record is what it was, and the changes are published |
| `AudioDeviceRegistry.AudioDeviceRegistry.PublishTopologyChanges` | src/michi/application/audio_device_registry.py:505-540 | One change per device whose availability, generation or binding set differs, in the order of sorted identities |
| `AudioDeviceRegistry.DirectOutputLifecycleCoordinator.HandleTopologyChanged` | src/michi/application/direct_output_lifecycle_coordinator.py:44-71 | Acts on a change only while active and while registry and change agree |
| `AudioDeviceRegistry.LateChangeActsOnUnchanged` | src/michi/application/direct_output_lifecycle_coordinator.py:44-71 | A change delivered arbitrarily late acts only if its device has not changed since, and rebinds only a device that can play |
| `AudioDeviceRegistry.GenerationDecidesAvailability` | src/michi/application/direct_output_lifecycle_coordinator.py:47-53 | A matching generation already fixes the availability: the second test never decides |
| `AudioDeviceRegistry.ActsIff` | src/michi/application/direct_output_lifecycle_coordinator.py:44-71 | A delivered change converges or rebinds if and only if the registry still says what it says and the loss concerns the session, or a playback binding of that generation is there |
| `EventJournal.ValidateJournal` | scripts/m11_4_evidence.py:115-134 | The longest valid chain prefix and the first bad line |
| `EventJournal.EventJournal.Append` | scripts/m11_4_evidence.py:148-171 | Writes the next entry of the chain and remembers its digest |
| `EventJournal.EventJournal.constructor` | scripts/m11_4_evidence.py:140-146 | Continues after the last entry of the longest valid prefix, whatever follows it |
| `EventJournal.AppendsValidate` | scripts/m11_4_evidence.py:137-171 | Opening any wholly valid, terminated file and appending any events gives a wholly valid file: the old entries and one per event |
| `EventJournal.JournalIsNumbered` | scripts/m11_4_evidence.py:148-172 | A journal started on an empty file holds one entry per event, numbered from 1 without a gap, each on the digest of its predecessor |
| `EventJournal.CutValidates` | scripts/m11_4_evidence.py:115-134 | A file cut at any character validates to exactly the entries fully written |
| `EventJournal.ContinuesIff` | scripts/m11_4_evidence.py:140-146 | After a cut, appending continues the chain if and only if the cut fell on a line boundary |
| `EventJournal.SameDigestSameEntries` | scripts/m11_4_evidence.py:110-112 | Two files that validate to the same last digest hold the same entries |
| `LineFiles.CutSplits` | scripts/m11_4_evidence.py:101-107 | A cut file is its terminated lines and a proper remnant of the next |
| `ReceiptRuns.RunRefines` | scripts/m11_4_evidence.py:215-249 | Over every run the directory and the counters represent a ledger of sealed groups and open records |
| `ReceiptRuns.ReceiptsAreKept` | scripts/m11_4_evidence.py:203-249 | From an empty directory, for any appends, flushes, seals and stops between rename and seal: reading gives the appended records in order, no chunk is rewritten, sealed chunks pass their check and the others miss their seal |
| `ReceiptRuns.TornSealsAreMissed` | scripts/m11_4_evidence.py:232-249 | An operation makes at most one chunk, and at the end of the run that chunk misses its seal if and only if the operation was stopped before writing it, and passes its check otherwise |
| `ReceiptSeals.CheckIff` | scripts/m11_4_evidence.py:290-321 | What the check of a chunk tells, exactly: missing seal, wrong digest, unreadable record, wrong counts, or nothing |
| `ReceiptSeals.ChangeIsReported` | scripts/m11_4_evidence.py:302-304 | A chunk that a run made and sealed is reported if and only if its content is no longer what the run wrote |
| `ReceiptSeals.MakesChunkIff` | scripts/m11_4_evidence.py:215-249 | Over every run fewer records than the limit are open, a chunk is made exactly by an append that reaches the limit or follows a pause and by a seal with something to seal, and it holds the open lines, counted |
| `ReceiptRuns.ChunkHasMaker` | scripts/m11_4_evidence.py:232-249 | Every chunk of a run was made by one of its operations |
| `ReceiptRuns.SortedIsUpwards` | scripts/m11_4_evidence.py:199-201 | Below a million chunks the sorted file names are the chunks in order |
| `ReceiptRuns.SortedIsUpwardsIff` | scripts/m11_4_evidence.py:199-201 | The sorted file names are the chunks in order if and only if there are fewer than a million |
| `ReceiptRuns.MillionthChunkIsMisread` | scripts/m11_4_evidence.py:242-242 | The millionth chunk sorts before its predecessor |
| `ReceiptRecovery.RecoveryKeepsPrefix` | scripts/m11_4_evidence.py:251-277 | After a crash at any character of the active file, recovery leaves all chunks and the records fully written: a prefix of what was appended |
| `ReceiptRecovery.ContinuesIff` | scripts/m11_4_evidence.py:251-277 | Recovery equals never having crashed after the kept records if and only if none of them had failed and the last one has its line break |
| `ReceiptRecovery.FirstSealIff` | scripts/m11_4_evidence.py:232-249 | The first chunk that any run after the recovery seals, at an append or directly, passes its check if and only if no recovered record had failed and, unless nothing was appended, the last one has its line break |
| `ReceiptCrashes.ChunksNeverChange` | scripts/m11_4_evidence.py:203-277 | Over every run with crashes at any character and recoveries, a chunk and its seal never change once the chunk is there |
| `ReceiptCrashes.CrashesKeepReceipts` | scripts/m11_4_evidence.py:251-277 | Over every such run with no cut exactly between a record and its line break, reading gives exactly the chronicle of the run |
| `ReceiptCrashes.ChronicleStep` | scripts/m11_4_evidence.py:251-277 | In the chronicle an append adds its record, a crash leaves a prefix that holds every chunk, and nothing else changes anything |
| `ReceiptCrashes.UntidyCrashSpoils` | scripts/m11_4_evidence.py:251-277 | After a cut between a record and its line break, the next append makes reading raise |
| `ReceiptRecovery.ReceiptChunks.Append` | scripts/m11_4_evidence.py:215-224 | Writes the record, counts it, and seals at the limit or after a pause |
| `ReceiptRecovery.ReceiptChunks.NextIndex` | scripts/m11_4_evidence.py:203-210 | One more than the highest index in use |
| `ReceiptRecovery.ReceiptChunks.SealChunk` | scripts/m11_4_evidence.py:232-249 | Renames the active file to the next index and writes its seal; nothing when nothing was counted |
| `ReceiptRecovery.ReceiptChunks.RecoverActive` | scripts/m11_4_evidence.py:251-277 | Cuts the active file after its last decodable line and restores only the record count |
| `CarrierPlanning.Plan` | src/michi/application/audio_output_planner.py:130-364 | The decisions and refusals of the planner, in its order |
| `CarrierPlanning.Candidates` | src/michi/application/carrier_resolution.py:62-114 | At most three distinct candidates, all with the source's rate, channels and bits in a container at least as wide |
| `CarrierPlanning.PlanIsLossless` | src/michi/application/audio_output_planner.py:228-307 | A plan keeps rate, channels and bits on positive exact evidence, with 24 bits in a 32-bit container proven and no other width refuted |
| `PlanningOutcomes.AuthorizedContainers` | src/michi/application/carrier_resolution.py:62-114 | The candidates: the narrowest container that holds the width, exact; after it the wide one for at most 16 bits in compatible mode; none for unknown facts or more than 24 bits |
| `PlanningOutcomes.PlannedIff` | src/michi/application/audio_output_planner.py:130-365 | A plan is made if and only if every fact is settled and the deciding container was accepted with its bits kept; device, binding, tuple, adaptation, volume policy, fallback and delay are those of source and profile |
| `PlanningOutcomes.EarlyRefusalIff` | src/michi/application/audio_output_planner.py:133-206 | Each refusal of the facts about device, profile, engine, path, binding, generation and encoding, exactly when it is given |
| `PlanningOutcomes.LateRefusalIff` | src/michi/application/audio_output_planner.py:209-304 | Each refusal about rate, evidence and bits, exactly when it is given, and the tuple it names |
| `PlanningOutcomes.RefusalExplainsItself` | src/michi/application/audio_output_planner.py:131-309 | A refusal lists exactly the decisions taken before it |
| `PlanningOutcomes.IsPcmIff` | src/michi/application/audio_output_planner.py:195-200 | The encoding is accepted if and only if it spells pcm, in any case, between blanks |
| `CarrierPlanning.PlanExplainsItself` | src/michi/application/audio_output_planner.py:275-323 | The decision codes of a plan say exactly what was decided |
| `CarrierPlanning.PlanRefersToItsEvidence` | src/michi/application/audio_output_planner.py:268-325 | The references of a plan are exactly those of the positive evidence for its tuple |
| `CarrierPlanning.NoCarrierMeansAllRefused` | src/michi/application/audio_output_planner.py:245-259 | A refusal for want of a carrier means that every authorized candidate was exactly refused |
| `CarrierPlanning.CompatibleRefinesStrict` | src/michi/application/audio_output_planner.py:210-259 | Compatible mode gives the same answer as strict mode unless strict is exactly refused; it widens only then |
| `Qualification.EveryClaimEarned` | src/michi/application/dac_qualification_service.py:492-532 | Every cached claim was earned by an exact probe in one environment; no ambiguous disposition ever claims |
| `Qualification.EvidenceFrom` | src/michi/application/dac_qualification_service.py:492-532 | Positive for an exact opening, with the bits read back; negative for an exact refusal; nothing otherwise |
| `Qualification.CacheHoldsLatest` | src/michi/application/dac_qualification_service.py:451-532 | After any probes the cache of a device holds exactly what each of them established that no later one overtook: an opening as asked for, with the bits read back, or a refusal of the format, in an environment that did not change |
| `Qualification.CurrentIff` | src/michi/application/dac_qualification_service.py:313-332 | Current is exactly what was cached in this environment, and nothing when it cannot be identified |
| `Qualification.MergeSettles` | src/michi/application/dac_qualification_service.py:451-473 | A cached conclusive claim settles its own tuple and leaves every other as it was |
| `Qualification.RoundShrinks` | src/michi/application/audio_output_planner.py:238-244 | Each round with a conclusive answer leaves exactly one candidate fewer unknown |
| `Qualification.TwoProbesSuffice` | src/michi/application/audio_output_planner.py:224-244 | From any cache two conclusive probes end the questions, one in strict mode |
| `Qualification.InconclusiveRoundAsksAgain` | src/michi/application/dac_qualification_service.py:525-532 | An inconclusive answer changes nothing, so the same question comes back |
| `Qualification.EvidenceCache.CacheConclusiveEvidence` | src/michi/application/dac_qualification_service.py:451-473 | Replaces the claim about the same tuple and environment, keeps all others |
| `Qualification.EvidenceCache.CachedEvidenceCurrent` | src/michi/application/dac_qualification_service.py:313-332 | Exactly the cached items of the current environment |
| `OutputIntents.IntentKept` | src/michi/application/audio_output_selection_coordinator.py:69-260 | A refused intent changes nothing; a completed one notifies once if it wrote; a selecting one makes repository, registry and session agree on a profile of the selected device |
| `OutputOutcomes.SharedLeaves` | src/michi/application/audio_output_selection_coordinator.py:69-94 | Shared output leaves no profile and the same device, clearing leaves neither |
| `OutputOutcomes.SelectDeviceLeaves` | src/michi/application/audio_output_selection_coordinator.py:96-121 | Selecting a device leaves it selected under the policy of the profile in force, or under none |
| `OutputOutcomes.PlaybackDeviceLeaves` | src/michi/application/audio_output_selection_coordinator.py:123-152 | Playing through a device leaves it selected under the compatible policy, or the managed one if that was in force |
| `OutputOutcomes.SelectProfileLeaves` | src/michi/application/audio_output_selection_coordinator.py:154-178 | Selecting a profile leaves it and its device selected; each refusal, exactly when it is given |
| `OutputOutcomes.PathModeLeaves` | src/michi/application/audio_output_selection_coordinator.py:198-222 | A path mode leaves the selected device under the policy of that name; each refusal, exactly when it is given |
| `OutputOutcomes.ModesByName` | src/michi/application/audio_output_selection_coordinator.py:45-52 | Which names mean the strict, the compatible and the managed policy |
| `OutputOutcomes.DashedIs` | src/michi/application/audio_output_selection_coordinator.py:205 | A dash in a mode counts as an underscore |
| `OutputOutcomes.NoDeviceMeansShared` | src/michi/application/audio_output_selection_coordinator.py:104-107 | A device name of blanks means the shared output |
| `OutputOutcomes.VolumeModeLeaves` | src/michi/application/audio_output_selection_coordinator.py:224-244 | A volume mode is accepted if it is the one in force, or is software without a device, and refused otherwise |
| `OutputOutcomes.ResyncDelayLeaves` | src/michi/application/audio_output_selection_coordinator.py:246-260 | A delay is stored if and only if it is from 0 to 5000 and a valid Direct profile is selected, and then only there |
| `OutputOutcomes.PolicyDoneIff` | src/michi/application/audio_output_selection_coordinator.py:298-362 | A policy is selected if and only if the device is playable and stably named, GStreamer is active and the profile permits it; which refusal comes first otherwise |
| `OutputOutcomes.CandidateIs` | src/michi/application/audio_output_selection_coordinator.py:302-319 | The profile reused is the selected one if it fits, else the first by name that does |
| `OutputOutcomes.WritingSupersedes` | src/michi/application/audio_output_selection_coordinator.py:187-196 | A pending preparation is superseded exactly once by an intent that wrote, and by no other |
| `OutputOutcomes.EphemeralIff` | src/michi/application/audio_output_profile_service.py:37-59 | The names that no device identity may have |
| `OutputRuns.AgreementLasts` | src/michi/application/audio_output_selection_coordinator.py:69-260 | Once a selecting intent has succeeded the agreement lasts over every run |
| `OutputRuns.SnapshotsEqualIff` | src/michi/application/audio_output_profile_service.py:105-122 | Two snapshots are equal if and only if their revisions are, and then nothing was written between them |
| `OutputRuns.NotifiedPerIntent` | src/michi/application/audio_output_profile_service.py:86-96 | Observers are told once per intent that wrote |
| `OutputRuns.ManagedAgainIff` | src/michi/application/audio_output_selection_coordinator.py:298-351 | A managed policy can be selected again if and only if the repository keeps the processing flag |
| `OutputRuns.ManagedTwice` | src/michi/application/audio_output_selection_coordinator.py:298-362 | With a repository that drops the processing flag, one device and GStreamer active: the managed policy is selected, and refused when selected again |
| `AudioOutputCoordinators.AudioOutputProfileService.CloseBatch` | src/michi/application/audio_output_profile_service.py:92-96 | The outermost batch publishes what is pending, once |
| `AudioOutputCoordinators.AudioOutputProfileService.Notify` | src/michi/application/audio_output_profile_service.py:79-84 | Held back inside a batch, immediate outside |
| `AudioOutputCoordinators.AudioOutputProfileService.SaveSelection` | src/michi/application/audio_output_profile_service.py:156-168 | Refuses raw ALSA names before writing; otherwise writes, bumps the revision and notifies |
| `AudioOutputCoordinators.AudioOutputProfileService.SaveProfile` | src/michi/application/audio_output_profile_service.py:124-151 | Refuses invalid profiles before writing; otherwise writes, bumps the revision and notifies |
| `AudioOutputCoordinators.AudioOutputProfileService.SnapshotOutputIntent` | src/michi/application/audio_output_profile_service.py:105-122 | Revision and selection, with path and delay of the repository's profile of the selected name, or neither when there is none |
| `AudioOutputCoordinators.AudioOutputSelectionCoordinator.SelectDevice` | src/michi/application/audio_output_selection_coordinator.py:96-121 | Selects the device and keeps the policy; a refusal changes nothing, a write is announced once, and success brings the three models into agreement |
| `AudioOutputCoordinators.AudioOutputSelectionCoordinator.SelectSharedOutput` | src/michi/application/audio_output_selection_coordinator.py:69-84 | Drops the profile and keeps the device; a refusal changes nothing, a write is announced once, and success brings the three models into agreement |
| `AudioOutputCoordinators.AudioOutputSelectionCoordinator.ClearDeviceSelection` | src/michi/application/audio_output_selection_coordinator.py:86-94 | Drops profile and device; a refusal changes nothing, a write is announced once, and success brings the three models into agreement |
| `AudioOutputCoordinators.AudioOutputSelectionCoordinator.SelectProfile` | src/michi/application/audio_output_selection_coordinator.py:154-178 | Selects a profile of the repository and its device; a refusal changes nothing, a write is announced once, and success brings the three models into agreement |
| `AudioOutputCoordinators.AudioOutputSelectionCoordinator.SelectVolumeMode` | src/michi/application/audio_output_selection_coordinator.py:224-244 | Accepts only the mode in force, or the shared output when no device is selected; a refusal changes nothing and agreement is kept |
| `AudioOutputCoordinators.AudioOutputSelectionCoordinator.SetResyncDelayMs` | src/michi/application/audio_output_selection_coordinator.py:246-260 | Rewrites the delay of the selected Direct profile, within its limits; a refusal changes nothing, a write is announced once and agreement is kept |
| `AudioOutputCoordinators.AudioOutputSelectionCoordinator.SelectProfileFor` | src/michi/application/audio_output_selection_coordinator.py:338-362 | Refuses foreign, invalid and unplayable profiles; otherwise aligns repository, registry and session |
| `AudioOutputCoordinators.AudioOutputSelectionCoordinator.SelectDeviceForPlayback` | src/michi/application/audio_output_selection_coordinator.py:123-152 | Selects the compatible policy on the device, never downgrading a managed one, and tells whether the selection changed; a refusal changes nothing, a write is announced once, and success brings the three models into agreement |
| `AudioOutputCoordinators.AudioOutputSelectionCoordinator.SelectPathMode` | src/michi/application/audio_output_selection_coordinator.py:198-222 | Selects a policy for the selected device; a refusal changes nothing, a write is announced once, and success brings the three models into agreement |
| `AudioOutputCoordinators.AudioOutputSelectionCoordinator.SelectDevicePolicy` | src/michi/application/audio_output_selection_coordinator.py:298-336 | Reuses or makes the profile of a device and policy, checking device and engine before anything is saved |

## Left out

- DeviceBatches.RescanIsIdempotent: for batches whose identities are distinct, which `DistinctIdsIff` characterises; what repeating another batch does is not stated.
- EngineRuns.EngineLifecycleIsSafe: says that the active engine is the only one running only while no close and no unbind has raised; `OnlyTheBoundEngineRuns` states it on the faults, `LeakRun` shows why.
- ReceiptCrashes.CrashesKeepReceipts: for runs with no cut exactly between a record and its line break, because of `UntidyCrashSpoils`, and below a million chunks.
- EventJournal.ContinuesIff: for cuts of a journal's own file, not for files damaged in other ways.
- SingleFlight.LeftoverRemovedIff: for runs in which no wait on that finished flight expires; a step may let any wait expire, but an event that is set never does.
- Qualification.TwoProbesSuffice: for devices that answer conclusively; `InconclusiveRoundAsksAgain` is the other case.
- TransportRouter.DeliveredExactlyOnce: for runs that bind ports without leftovers; `CautiousRunIsClean` says which do, `ExactlyOnceIff` what leftovers do.
- ReceiptRuns.ReceiptsAreKept: below a million chunks, because the order of the names fails from there on (`SortedIsUpwardsIff`).
- Floating-point rounding in the modulator: levels and integrators are reals.
- The sine of the tone stimuli and the silence pattern: the modulator is proved for every level sequence.
- GStreamer and GLib types, caps negotiation and buffer mapping: buffers are byte arrays, caps are rates and a format.
- The DoP standard's byte order within a sample: the payload is stated as the element writes it, the earlier byte first.
- Real time and locks: a timeout is a step that may happen, a locked section is one step.
- PlaybackService, SettingsService, OutputSessionService and the providers: their answers and exceptions are parameters.
- A provider without a runtime generation, and the subscription of runtime-failure sources: every provider has a generation, and every event reaches the coordinator.
- Exceptions of the volume snapshot, of the playback convergence and of the fallback policy question: they are taken not to raise.
- Observers and subscribers that raise, or that call back into the object that notifies them.
- The sorted order of bindings in a record: they are compared as sets.
- Upper and lower case beyond ASCII letters.
- A seal file that is there and cannot be read.
- Manufacturer, bcdDevice and descriptor digest of a device, and the observation time: copied or dropped, never decided on.
- Line breaks other than the newline: the records the store writes contain none.
- The loops of `iter_records` and `validate_seals`: recursive functions over the same files.
- fsync, the temporary file of a seal and signal masking: a rename is atomic, an unsealed chunk has no seal at all.
- The plan identifier and the preconditions text of a plan: digests of fields that are modelled.
- The clock in a saved selection, and repository writes that fail.
- FFT metrics, captures, latency measurements and the field, lab and build scripts: foreign processes and plumbing.
