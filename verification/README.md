# Verified models of ShadowSocketProxy

Dafny 4.11 models of the concurrent cores of ShadowSocketProxy, with the guarantees they are built for stated and proved. `dafny verify dfyconfig.toml` checks every file.

## What is modelled

**The flow protocol.** The packet programs and the control service share a set of BPF maps: tuple index, flow state, in-flight count, deletion guard, deletion outcome, active count, release queue and release journal. `FlowMaps` holds them as one value. `PacketPath` cuts the packet program at every map operation, `HostOperation` does the same for the host delete, and `FlowSystem` interleaves any number of packets with one host delete at a time. Every host map operation may fail. The clock, the selected target, the flow hash and the success of each compare-and-swap are free choices of the scheduler, so the theorems hold for every clock and every schedule. `FlowOwnership`, `FlowExclusion`, `FlowSlots` and `FlowCapacity` hold the inductive invariants, and `FlowTheorems` and `FlowCleanup` what follows from them over whole runs. `FlowCreation` is the fault-free creation on its own. `FlowSchedules` builds schedules; `FlowCreatingDelete` uses them for the exact set of generations a delete may name, and `FlowOrphans` for a run whose index outgrows three entries per slot.

**Conditional accept.** `ConditionalAccept` is the Windows accept path of the host proxy: one attempt slot shared by the accept callback (one lock-protected step), the preconnect worker, the coordinator and any number of shutdowns. `AcceptPairing`, `AcceptBalance`, `AcceptProgress` and `AcceptSockets` prove pairing, counter balance, progress and linear socket ownership over every run.

**Supporting cores.** `Checksum`, `PacketRewrite` and `RewriteTheorems`: the incremental Internet checksum (section 3 of RFC 1624) against the full recompute (RFC 1071), on packet bytes. `TcpLifecycle` and `FlowExpiry`: the two TCP trackers and the host expiry policy over packet histories. `FlowPaging`: continuation tokens and flow enumeration. `MapAbi` and `RuntimeConfig`: the fixed-width map ABI and the configuration bytes. `InMemoryBackend` and `BackendRefinement`: the control service's test double, and the guarded delete as a refinement of it. `Octets`, `Prelude` and `ThreadCounts` are shared definitions.

## Modelling decisions

- A flow key (flow id and generation) is never reused: generations are unbounded, where the program uses 32 bits.
- A delete may name any flow id and generation. Runs of `FlowSystem` start deletes of targetable generations: already handed out, with no packet creating them at that moment. Live, dead and never-activated generations are all included. Flow enumeration also returns CREATING flows, which are not targetable. `FlowCreatingDelete.SafeExactlyIfTargetable` shows that this is exactly the set of generations whose deletion keeps slot conservation in every reachable state.
- A generation whose index cleanup met a map fault is recorded in the history field `orphans` until a retry completes. Its entries outlive its slot.
- A slot release that gives up after eight failed compare-and-swaps is counted in the history field `giveUps`, so the slot balance stays exact.
- Map deletions by the packet program do not fail on their own, iterating the index map is one step, and a lookup returns the current element.
- The request channel of the preconnect worker carries only units, so it is a count. The result channel is unordered, which allows more behaviours than the program has.
- Checksum words are taken in network byte order. The address difference of an IPv6 rewrite is any 32-bit value congruent to the replaced words, which covers folded and unfolded helper results.
- A UDP packet keeps a valid checksum up to the two encodings of zero. The program does not ask the helper to write 0xffff for a computed zero, so it can store 0x0000, which UDP reserves; `RewriteTheorems.RewriteUdp` gives the exact condition and `RewriteTheorems.UdpZeroReachable` shows that it arises for every packet and new address.
- A packet not yet admitted may record ABORTED for a generation that has just been deleted. The entry names a dead key and disturbs none of the theorems.
- Native-order ABI fields are little-endian.
- Recorded TCP flags and FIN masks are records of booleans; `TcpLifecycle.MaskIsByte` ties the masks to their bytes and `TcpLifecycle.MarksAreWord` the flags to their word.

## Model

| member | source | states |
|---|---|---|
| FlowTheorems.DeletionExclusion | crates/bpf/shadow-socket-proxy.bpf.c:836-920 | in every interleaving no packet is between admission and leave when the host removes that generation's state, and none is admitted for it at any later time |
| FlowTheorems.RemovedByHost | crates/control-service/src/bpf.rs:1462-1480 | an ACTIVE generation loses its state only in the removal step of a delete that names it |
| FlowTheorems.RetiredForever | crates/bpf/shadow-socket-proxy.bpf.c:1046-1056 | a generation whose state was removed never gets a state again in any continuation |
| FlowExclusion.ExcludedAlways | crates/bpf/shadow-socket-proxy.bpf.c:881-920 | the in-flight count of every key is exactly the number of packets counted in it, and no admitted packet survives a quiescent commit, in every reachable state |
| FlowTheorems.ObservationStability | crates/control-service/src/bpf.rs:1339-1428 | when a state is removed its last use equals a non-zero observation, COMMITTED is recorded and the key is journaled |
| FlowTheorems.ReportedRemovals | crates/control-service/src/bpf.rs:1415-1428 | every report of a deleted state belongs to a removal at the observed timestamp |
| FlowTheorems.AbortWins | crates/bpf/shadow-socket-proxy.bpf.c:853-868 | an outcome recorded at any time between the guard insertion and the commit stands, whatever the packets do, until the delete has lost; no host step up to its end changes states, indexes, journal, queue or the active count, and its report is a failure or a mismatch without removal |
| FlowTheorems.DoomedStep | crates/control-service/src/bpf.rs:1317-1360 | every packet or host step of such a delete leaves it doomed with the same record or ended as lost, and a host step leaves those tables alone |
| FlowTheorems.NotLeftBlocked | crates/control-service/src/bpf.rs:1553-1597 | between deletes a COMMITTED record exists only for a generation one of whose finished deletes reported a failure or a partial cleanup |
| FlowSlots.BalancedAlways | crates/bpf/shadow-socket-proxy.bpf.c:458-509 | the active count equals reservations in progress plus the live or journaled generations plus the counted give-ups, over every mix of creations, deletes, failed publications, retries and duplicate queue entries |
| FlowSlots.BoundedAlways | crates/bpf/shadow-socket-proxy.bpf.c:480-486 | under an unchanged capacity the granted reservations plus live or journaled generations never exceed it, although the count itself may overshoot |
| FlowCreatingDelete.DeletingACreatingFlow | crates/bpf/shadow-socket-proxy.bpf.c:1107-1115 | from every balanced state with a creator that holds its state, on the way up or rolling back, some schedule that deletes that key ends unbalanced |
| FlowCreatingDelete.UntargetableUnbalances | crates/bpf/shadow-socket-proxy.bpf.c:1046-1091 | the same for a creator before its state insertion and for a generation not yet allocated |
| FlowCreatingDelete.SafeExactlyIfTargetable | crates/control-service/src/service.rs:613-629 | in every reachable state between deletes, a delete of a generation keeps the slots balanced under every later schedule, further deletes being of targetable generations, exactly if the generation has been handed out and no packet is creating it |
| FlowCapacity.CapacitySafety | crates/bpf/shadow-socket-proxy.bpf.c:1070-1091 | under an unchanged capacity the states stay within it and the indexes within three times the capacity and the orphaned generations, and a creator about to insert finds strictly less in both maps |
| FlowCapacity.IndexBound | crates/bpf/shadow-socket-proxy.bpf.c:1084-1091 | in every reachable state, whatever failed, the index map holds at most three entries per live, journaled or orphaned generation |
| FlowCapacity.ThreeAtMost | crates/bpf/shadow-socket-proxy.bpf.c:1084-1091 | no generation, live or dead, ever has more than three index entries |
| FlowOrphans.OrphansExceedCapacity | crates/control-service/src/bpf.rs:1486-1512 | for every capacity some run under that capacity ends with more than three index entries per slot, because entries whose cleanup failed outlive their slot |
| RuntimeConfig.MapsNeverFill | crates/control-service/src/config.rs:148-153 | under an unchanged validated configuration every state insertion finds room below the map maximum, and every index insertion does while three entries for each slot and each orphaned generation fit, which validation guarantees when no generation is orphaned |
| FlowOwnershipSteps.OwnedAlways | crates/bpf/shadow-socket-proxy.bpf.c:1070-1120 | the ownership invariant relating creators, states, index entries, journal and the running delete holds in every reachable state |
| FlowTheorems.ActiveOwnsThree | crates/bpf/shadow-socket-proxy.bpf.c:1084-1120 | the index entries naming an ACTIVE generation are exactly its original, target and reverse tuples, and these are distinct |
| FlowTheorems.EntryNamesLiveState | crates/control-service/src/bpf.rs:1486-1512 | between deletes an index entry names a live state that has this tuple exactly if its generation is not orphaned |
| FlowTheorems.OrphanRetired | crates/control-service/src/bpf.rs:1486-1512 | an orphaned generation has left its creator's hands and has no state, in every reachable state |
| FlowTheorems.EntryRemovedByOwner | crates/bpf/shadow-socket-proxy.bpf.c:970-978 | an index entry disappears only through the creator of the generation it names or through that generation's delete after its state is gone |
| FlowCleanup.CompleteDeleteLeavesNothing | crates/control-service/src/bpf.rs:1415-1512 | after a delete or a retry reported as complete no state and no index entry of the generation exists, then or later |
| FlowTheorems.TuplesFixed | crates/bpf/shadow-socket-proxy.bpf.c:1056-1064 | a live flow keeps its snapped tuples, whatever the configuration becomes |
| FlowTheorems.RewritingIsLive | crates/bpf/shadow-socket-proxy.bpf.c:1122-1148 | a packet at its rewrite is inside a live ACTIVE flow that carries its tuple |
| FlowTheorems.RewriteRoundTrip | crates/bpf/shadow-socket-proxy.bpf.c:1122-1148 | a forward packet leaves with the snapped target, its swapped reply is the stored reverse key, resolves to the same flow and leaves as the swap of the original tuple |
| AcceptProgress.NoLostRequest | crates/host-proxy/src/lib.rs:2041-2067 | a deferred attempt always has a queued unit, a worker about to look or on exactly this id, a result for it under way, or the shutdown of a dying worker |
| AcceptPairing.SocketPairing | crates/host-proxy/src/lib.rs:2154-2195 | every live or delivered handoff joins the client accepted for an attempt with the socket preconnected for the same tuple and generation |
| AcceptPairing.ReadyIsPrepared | crates/host-proxy/src/lib.rs:2116-2151 | a Ready or Claimed attempt holds a prepared socket made for its own id |
| AcceptPairing.PairedAlways | crates/host-proxy/src/lib.rs:2437-2525 | the pairing invariant with at most one claimed attempt, the one the callback accepted, holds in every reachable state |
| AcceptSockets.SocketLinearity | crates/host-proxy/src/lib.rs:2116-2195 | every socket made is held in exactly one place, or was closed exactly once, or was bridged, and never two of these |
| AcceptSockets.NothingLeaks | crates/host-proxy/src/lib.rs:2313-2406 | when all threads have ended and the pairs are taken, every socket was closed exactly once or bridged |
| AcceptBalance.ReservationBalance | crates/host-proxy/src/lib.rs:143-174 | pending is exactly the attempts created and not released, handoffs exactly the live owners plus the untransferred reservation plus releases in progress, and both stay within zero and the limit |
| AcceptBalance.BalancedAlways | crates/host-proxy/src/lib.rs:1782-1855 | the counter invariant holds over every interleaving of claim, failure, handoff, drop, crash and shutdown |
| AcceptBalance.NeverAcceptsAgain | crates/host-proxy/src/lib.rs:1765-1779 | once admissions are closed they stay closed in every continuation |
| AcceptBalance.ShutdownLinearizes | crates/host-proxy/src/lib.rs:2466-2511 | after a shutdown has taken the slot lock the slot stays empty and no callback accepts or installs an attempt |
| AcceptBalance.ShutdownReleasesEverything | crates/host-proxy/src/lib.rs:1765-1779 | once every thread has ended pending is zero and handoffs is the number of owners still alive |
| Checksum.ChecksumAdd | crates/bpf/fixture-runner/src/main.rs:777-786 | the loop adds the sum of the 16-bit words with an odd last byte padded |
| Checksum.ChecksumFinish | crates/bpf/fixture-runner/src/main.rs:789-794 | the fold terminates on the complement of the unique end-around-carry representative and keeps the sum modulo 65535 |
| Checksum.SumFits | crates/bpf/fixture-runner/src/main.rs:777-786 | a 32-bit accumulator cannot overflow on any packet up to 131068 bytes |
| Checksum.ReplaceTracks | crates/bpf/shadow-socket-proxy.bpf.c:653-674 | one incremental update moves the represented sum by exactly the replaced bytes, modulo 65535 |
| Checksum.ReplaceExact | crates/bpf/shadow-socket-proxy.bpf.c:653-674 | outside the all-ones to all-zeros case an update lands exactly on the recomputed checksum |
| PacketRewrite.HeaderChecksum | crates/bpf/fixture-runner/src/main.rs:797-799 | the header recompute is the complement of the folded word sum of the first 20 bytes |
| PacketRewrite.TransportChecksum | crates/bpf/fixture-runner/src/main.rs:802-832 | the transport recompute of either family is the complement of the folded pseudo-header and segment sum |
| PacketRewrite.Skb.UpdateL4 | crates/bpf/shadow-socket-proxy.bpf.c:653-674 | the chained address-then-port update writes the composition of the two replacements and touches nothing else |
| PacketRewrite.Skb.Rewrite | crates/bpf/shadow-socket-proxy.bpf.c:686-734 | the in-place rewrite of either side changes address, port and both checksums as specified and nothing else |
| RewriteTheorems.RewriteKeepsHeader | crates/bpf/shadow-socket-proxy.bpf.c:686-734 | a valid IPv4 header, options included, is valid by full recompute after any address rewrite |
| RewriteTheorems.RewriteKeepsTcp | crates/bpf/shadow-socket-proxy.bpf.c:653-674 | a valid TCP packet of either family carries exactly the full-recompute checksum after any address and port rewrite |
| RewriteTheorems.RewriteUdp | crates/bpf/shadow-socket-proxy.bpf.c:653-674 | for UDP the stored value equals the recompute up to 0x0000 and 0xffff, and the packet stays valid exactly when the recompute is not zero or the update is blank |
| RewriteTheorems.UdpZeroReachable | crates/bpf/fixture-runner/src/main.rs:959-963 | for every valid UDP packet and new address some non-zero port makes the program store a zero checksum |
| RewriteTheorems.RewriteUndone | crates/bpf/shadow-socket-proxy.bpf.c:686-734 | a valid TCP packet rewritten and rewritten back is the original, byte for byte |
| TcpLifecycle.KernelRecord.Update | crates/bpf/shadow-socket-proxy.bpf.c:929-959 | one packet through the program's tracker, unchanged for a record that is not TCP |
| TcpLifecycle.HostRecord.Observe | crates/control-service/src/mapping.rs:260-285 | one packet through the host's tracker, unchanged for another protocol or direction |
| TcpLifecycle.StepsAgree | crates/control-service/src/mapping.rs:260-285 | equal records stay equal exactly unless this packet closes the connection and its deadline overflows 64 bits |
| TcpLifecycle.TrackersAgree | crates/bpf/shadow-socket-proxy.bpf.c:929-959 | both trackers agree after every prefix of a history exactly if the packet that terminates it, when there is one, does not overflow 64 bits |
| TcpLifecycle.TranslationKeepsFlags | crates/control-service/src/mapping.rs:31-40 | the host flags translated from a wire byte mean what the wire byte means |
| TcpLifecycle.MaskIsByte | crates/bpf/shadow-socket-proxy.bpf.c:945-956 | setting, testing and comparing the mask records agrees with or-ing, and-ing and comparing the mask bytes |
| TcpLifecycle.MarksAreWord | crates/bpf/shadow-socket-proxy.bpf.c:939-955 | recording a flag is or-ing its bit into the flag word, and the RST bit of the word reads the record back |
| TcpLifecycle.MasksMeanHistory | crates/bpf/shadow-socket-proxy.bpf.c:945-953 | a FIN bit is set exactly if that direction sent a FIN, an ACK bit exactly if that direction acknowledged after the other side's FIN |
| TcpLifecycle.MarksMeanHistory | crates/bpf/shadow-socket-proxy.bpf.c:943-955 | every recorded flag is set exactly if the history holds the packet it stands for: SYN per direction, any FIN, an acknowledged FIN, RST |
| TcpLifecycle.DeadlineMeansHistory | crates/bpf/shadow-socket-proxy.bpf.c:956-958 | unless the terminating packet overflows 64 bits, the deadline is set exactly when both FINs are seen and acknowledged, to the time of the packet that first completed this plus the grace |
| TcpLifecycle.OnlyGrows | crates/control-service/src/mapping.rs:260-285 | over any continuation flags and masks only grow and a set deadline never changes, in both trackers |
| TcpLifecycle.AckImpliesFin | crates/control-service/src/mapping.rs:268-271 | an acknowledged FIN was seen, in both trackers |
| FlowExpiry.ExpiryNeverEarly | crates/host-proxy/src/lib.rs:518-539 | for every packet history under a monotone clock, a flow the host marks expired is deletable by its own record at the same time, with equal TTL, equal non-zero grace (configuration rejects zero) and a UDP timeout of at least the TTL |
| FlowExpiry.UdpTimeoutExact | crates/host-proxy/src/lib.rs:529-536 | the UDP timeout condition is necessary as well as sufficient |
| FlowPaging.DecodeEncode | crates/control-service/src/service.rs:81-106 | decoding an encoded token gives the cursor back |
| FlowPaging.DecodesTo | crates/control-service/src/service.rs:93-106 | a token decodes to a cursor exactly when it has 32 bytes and agrees with its encoding on the first 28 |
| FlowPaging.EnumerateFlows | crates/control-service/src/service.rs:548-611 | the skip-and-collect loop returns the first flows behind the cursor of the sorted listing, a token exactly when more remain, and the error of each refused request |
| FlowPaging.PageContinues | crates/control-service/src/service.rs:586-602 | every page of a scan continues exactly behind the last flow returned and keeps the first page's issue time |
| FlowPaging.ScanOrdered | crates/control-service/src/service.rs:583-611 | the concatenated pages are strictly increasing in flow id and generation under arbitrary changes of the map between pages |
| FlowPaging.ScanComplete | crates/control-service/src/service.rs:583-611 | a flow present throughout a completed scan is returned exactly once |
| FlowPaging.ScanSound | crates/control-service/src/service.rs:583-611 | every flow returned was in the map when its page was made |
| FlowPaging.ScanTerminates | crates/control-service/src/service.rs:583-611 | a scan of an unchanging map has at most one page more than the map has flows, for any limits |
| FlowPaging.ContinuationAccepted | crates/control-service/src/service.rs:562-576 | a scan's token is accepted exactly while 60 seconds have not passed since its first page |
| MapAbi.KeyRoundTrip | crates/control-service/src/mapping.rs:346-381 | decoding an encoded tuple gives it back exactly if both addresses are of one family |
| MapAbi.KeyInjective | crates/control-service/src/mapping.rs:346-357 | same-family tuples with equal keys are equal |
| MapAbi.KeyAccepted | crates/control-service/src/mapping.rs:359-381 | a key decodes exactly if it has 40 bytes, this version and a known family |
| MapAbi.DecodedKey | crates/control-service/src/mapping.rs:359-381 | a decoded key re-encodes to itself exactly if its unread IPv4 prefix bytes are canonical |
| MapAbi.MappedStaysDistinct | crates/control-service/src/mapping.rs:317-329 | an IPv4 tuple and its IPv4-mapped IPv6 twin differ in the family byte and nowhere else |
| MapAbi.KeyCollides | crates/control-service/src/mapping.rs:346-357 | a tuple shares its key with another tuple exactly if its destination is IPv4 or IPv4-mapped, and then exactly one of the two is of a single family |
| MapAbi.IndexRoundTrip | crates/control-service/src/mapping.rs:411-435 | index values and state keys decode to what was encoded |
| MapAbi.IndexInjective | crates/control-service/src/mapping.rs:438-450 | different flow keys have different encodings |
| MapAbi.DecodedIndex | crates/control-service/src/mapping.rs:420-435 | a decoded index re-encodes to itself exactly if its reserved bytes are zero |
| MapAbi.StateCounters | crates/control-service/src/mapping.rs:454-469 | every counter of an encoded state sits at the offset the packed struct and the decoder use |
| MapAbi.StateRoundTrip | crates/control-service/src/mapping.rs:454-495 | decoding an encoded state gives it back exactly if the state validates |
| RuntimeConfig.TargetForPacket | crates/bpf/shadow-socket-proxy.bpf.c:744-783 | the classifier's loop selects the family target exactly if schema, set byte, port and address allow it |
| RuntimeConfig.IsControlPacket | crates/bpf/shadow-socket-proxy.bpf.c:792-825 | the classifier's comparison bypasses exactly the listener encoded in the bytes |
| RuntimeConfig.TargetSelected | crates/control-service/src/bpf.rs:1600-1616 | for every validated configuration the bytes written make the classifier select exactly the configured target of each family |
| RuntimeConfig.ListenerBypassed | crates/control-service/src/bpf.rs:1617-1632 | for every validated configuration exactly the TCP endpoints of the configured listener are bypassed, wildcard or not |
| RuntimeConfig.LimitsReadBack | crates/control-service/src/bpf.rs:1633-1643 | TTL, grace and capacity read back as configured and are positive |
| InMemoryBackend.Backend.InsertFlowState | crates/control-service/src/bpf.rs:266-293 | the flow's three tuples resolve to the new key, every other entry is kept, and for a fresh key and fresh tuples the tie between states and indexes is preserved |
| InMemoryBackend.Backend.DeleteFlow | crates/control-service/src/bpf.rs:448-509 | the double's delete with all its branches, including an absent state, a pending release and both fault switches |
| BackendRefinement.DeleteFlow | crates/control-service/src/bpf.rs:1233-1597 | without faults or packets the guarded delete terminates, leaves guard and outcome empty, and reports and leaves what the double's delete does |
| BackendRefinement.DeleteRefines | crates/control-service/src/bpf.rs:1233-1552 | every fault-free execution of the guarded delete gives the double's report, states and indexes |
| FlowCreation.CreationEffect | crates/bpf/shadow-socket-proxy.bpf.c:1070-1120 | every fault-free creation that activates its key found the key and all three tuples unused and leaves exactly the ACTIVE state, its three index entries and a zero packet count |
| BackendRefinement.SequenceRefines | crates/control-service/src/bpf.rs:448-509 | on every sequence of fault-free creations, taken step by step, and deletes all reports and the remaining states and indexes equal the double's |

## Left out

- FlowSlots.BalancedAlways: stated for deletes of targetable generations; FlowCreatingDelete.SafeExactlyIfTargetable shows that it fails for all others.
- BackendRefinement.SequenceRefines: a retry after a failed publication is not among the operations, because the double then reports no stale generation where the program may.
- Wrap-around of the 32-bit generation counter and hash-element reuse in the kernel maps.
- IPv4 UDP packets with a zero checksum field, and checksum offload.
- Byte order inside the checksum helpers: words are in network order throughout.
- A panic of the accept coordinator; a panic of the worker is modelled.
- The legacy mapping value of the map ABI, log ring, revision counter, status and health calls: bookkeeping without cross-operation laws.
- TLS and gRPC transports, UDP relay, sockets and timers, command line and startup: environment.
