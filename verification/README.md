# HomePi, verified

HomePi plays up to sixteen AirPlay zones over one DAC. This project models its four hardest parts in
Dafny and proves what they are for.

**The PCM router.** `routing.dfy` keeps the router's fields as the service does and proves each critical
section against a function of the old state. `routing_runs.dfy` interleaves those sections freely, as
`on_route_start` and `try_promote_pending_owner` take the lock twice, and proves the invariant of every run.
`routing_order.dfy` says who owns the DAC and in which order zones wait, and `routing_changes.dfy` what each
operation makes of the zones. `owner_events.dfy` adds the service, its events, and the two processes that
rebuild the owner from them; `announcements.dfy` says which events a step announces, and that they are true.
`handlers.dfy` lists what each handler notes, does and reports, and proves that it reports whatever it
changes; `owner_races.dfy` runs the handlers of any number of threads with every read, change and publication
a step of its own, and says when the backend's cache is stale at rest; `races_alone.dfy` ties these steps to the
service's events; `owner_turns.dfy` joins the reads and
the publication of each event, and says when the cache and the metadata service's mirror are current;
`handlers_alone.dfy` shows that an uninterrupted handler does and publishes what the service's does.
`playback_path.dfy` follows a routing decision into the bridge, its captures and its rings. `frame_ring.dfy`
is the ring that overwrites its oldest frame, and `audio_bridge.dfy` the threads around it, one atomic access
a step; `playback_pass.dfy` follows an uninterrupted pass of the playback loop, and a period from the capture
to the DAC, and `playback_changes.dfy` what comes of changes during a pass.

**The metadata stream.** `metadata_stream.dfy` cuts the pipe of Shairport Sync into items and decodes them,
`metadata_framing.dfy` proves that printed items survive any cut into chunks, `metadata_unclosed.dfy` says
what comes of an item that has lost all but its header, `base64.dfy` proves the decoder against the encoding
of section 4 of RFC 4648, and `progress.dfy` follows the position accumulated from RTP samples or wall clocks,
`progress_payloads.dfy` does so from the printed payloads on, and `durations.dfy` sets it against the reported
duration where the product overflows. `sha256.dfy` states FIPS 180-4, `sha256_constants.dfy` derives its
constants, `sha256_example.dfy` computes its example, and `content_hash.dfy` proves the service's in-place
implementation equal to it.

**The Hi-Fi serial protocol.** `hifi_quoting.dfy` has the escaping, quoted values and decimal suffixes;
`hifi_bulk.dfy`, `hifi_names.dfy` and `hifi_bare.dfy` the bulk replies that are scanned from left to right,
`hifi_indexed.dfy`, `hifi_enable.dfy`, `hifi_numbers.dfy` and `hifi_groups.dfy` those that are searched for
each index, with round trips and properties of arbitrary lines.

**The replay window.** `replay.dfy` is the backend's event broadcaster and what a subscriber sees of it.

`lists.dfy`, `text.dfy` and `machine.dfy` hold what these share: erasing from lists, searching, tokens,
decimal and hexadecimal numbers, and integers that wrap. Where C++ leaves signed overflow undefined, the
model wraps in two's complement.

Time enters as a `now` or a `Look`, randomness of the outside world (activity answers, whether a device
opens, which responses throw) as parameters. Events, requests and parsed updates are datatypes.

Thirteen things in the code are not what its documentation or a reader would expect, and are stated as they are:

- A `phbt` payload is documented as `current/wall_clock_ns`
  (services/homepi-metadata/include/homepi/metadata/progress-parser.hpp:37) and the reader as returning
  the first token (line 61), but of two tokens the second is read: see `Progress.PairReadsSecond` and
  `Progress.WallClockBounds`.
- The product of samples and 1000 overflows 64 bits for the clocks of our epoch, and the position jumps:
  `Progress.EpochClockJumps`. `Progress.PrgrPositionWithinDurationIff`, `Durations.PrgrLongDurationIff` and
  `Durations.PhbtLongestIff` say when positions stay within the duration; `Durations.PrgrOverruns` and
  `Durations.PhbtOverruns` are inputs for which they do not.
- The owner can be a disabled zone: `RoutingRuns.DisabledOwnerIff` and `RoutingRuns.MaskedOwnerIff` say when.
- `set_routing` assigns the requested owner and then recomputes it, so a hand-off under way wins:
  `RoutingOrder.RequestedOwnerIff`.
- A router hand-off can cost the leaving zone its ring: `PlaybackPath.HandoffKeepsRingsIff` says when.
- The metadata service's stack outlives the router's: `OwnerEvents.MirrorStackIff` says when.
- Handlers run on several threads and publish without a lock, so the backend's cache can end with a state that
  is past, or with parts of two states: `OwnerRaces.StaleAtRestIff`, `OwnerRaces.StaleRun`, `OwnerRaces.TornRun`.
  One report is enough, as it publishes an older event after a newer one: `RacesAlone.ReportGoesBack`.
- An owner event is left out when the owner is the one that the handler noted when it began, and the owner
  that disabling a zone led to is published from the time of the change: `OwnerTurns.MirrorIff`,
  `OwnerTurns.MirrorStaleRun`, `OwnerTurns.RestingCacheIff` and `OwnerTurns.DisabledStaleRun`.
- The accumulated position loses a part of a millisecond on every step, and stands still on steps shorter
  than one: `Progress.StaysExactIff` and `Progress.SmallStepsStandStill`.
- An item that has lost all but its header is dispatched, dropped, or mixed with the item behind it, depending
  on where the stream was cut: `MetadataUnclosed.UnclosedHeaderIff`.
- Zone 1 and a number that begins with 0 to 6 look like zone 10 to 16 in a bare reply:
  `HifiNumbers.NumbersRoundTripIff` and `HifiNumbers.LooksLongerIff`.
- A group name that ends with the marker of another group can swallow that group's name:
  `HifiGroups.GroupNamesRoundTripIff` and `HifiGroups.NameSwallowed`.
- Audio counts as fresh for half a second while a hand-off is tested, and as stale after 80 ms once the hand-off
  is over, so ending a hand-off can throw away the periods it waited for: `PlaybackPass.BridgeHeardIff`.

## Model

| member | source | states |
|---|---|---|
| `Routing.RoutingState.constructor` | services/homepi-pcm-router/include/homepi/pcm-router/routing-state.hpp:67-75 | the router starts idle: empty stack, no owner, no zone enabled |
| `Routing.RoutingState.MarkBuffer` | services/homepi-pcm-router/src/routing-state.cpp:70-74 | only an enabled zone of the range is set to buffer, every other mode stays |
| `Routing.RoutingState.RecomputeModes` | services/homepi-pcm-router/src/routing-state.cpp:62-89 | the four passes over the table amount to one function of mask, stack, hand-off and pending; the owner is the hand-off source, else the stack front; nothing else changes |
| `Routing.RoutingState.LoadEnabledMask` | services/homepi-pcm-router/src/routing-state.cpp:48-60 | a new mask erases disabled zones from stack and pending, and modes and owner follow |
| `Routing.RoutingState.SetZoneEnabled` | services/homepi-pcm-router/src/routing-state.cpp:98-132 | new state and change report: no change is reported for an unknown zone or an equal flag; an owner change only when the owner is disabled and replaced |
| `Routing.RoutingState.SetRoutingTo` | services/homepi-pcm-router/src/routing-state.cpp:142-157 | the requested stack cut to enabled zones, in order, with an enabled owner moved to the front; pending and hand-off stay |
| `Routing.RoutingState.OnRouteStartSnapshot` | services/homepi-pcm-router/src/routing-state.cpp:163-185 | first critical section: owner and route stamps are copied, for an enabled zone only |
| `Routing.RoutingState.PruneSessions` | services/homepi-pcm-router/src/routing-state.cpp:208-223 | with an activity check, a silent owner empties the stack; otherwise only the silent zones go, never the newcomer or the owner |
| `Routing.RoutingState.OnRouteStartCommit` | services/homepi-pcm-router/src/routing-state.cpp:200-249 | second critical section, from a snapshot that may be stale: prune, then wait behind the zone that plays or go on top |
| `Routing.RoutingState.Enter` | services/homepi-pcm-router/src/routing-state.cpp:231-248 | a zone that waits is stacked last and pending; one that does not is moved to the front, and pending is cleared; the hand-off ends in both cases |
| `Routing.RoutingState.TryPromoteSnapshot` | services/homepi-pcm-router/src/routing-state.cpp:252-260 | first critical section of a promotion: the pending zone, if it is enabled |
| `Routing.RoutingState.TryPromoteCommit` | services/homepi-pcm-router/src/routing-state.cpp:268-277 | second critical section: takes effect just when the same zone is still pending and enabled |
| `Routing.RoutingState.OnRouteEnd` | services/homepi-pcm-router/src/routing-state.cpp:280-307 | the zone leaves the stack; an owner that leaves others behind is handed off to the new front, which becomes pending |
| `Routing.RoutingState.OnRouteJoin` | services/homepi-pcm-router/src/routing-state.cpp:309-321 | an enabled zone is stacked last unless it is stacked already |
| `Routing.RoutingState.MarkZoneRouted` | services/homepi-pcm-router/src/routing-state.cpp:18-24 | the stamp of a zone in range is set and nothing else |
| `Routing.RoutingState.View` | services/homepi-pcm-router/include/homepi/pcm-router/routing-state.hpp:67-75 | the abstract state has a slot for each of the sixteen zones in every table |
| `RoutingRuns.RouterSafety` | services/homepi-pcm-router/src/routing-state.cpp:62-321 | in every interleaved run from a booted router: stack duplicate-free, in range, enabled and no longer than the number of enabled zones; pending enabled and not the hand-off source; owner and capture modes exactly the derived ones |
| `RoutingRuns.StepInv` | services/homepi-pcm-router/src/routing-state.cpp:91-321 | every critical section keeps that invariant, whatever happened between the two halves of a start or a promotion |
| `RoutingRuns.SetRoutingInvIff` | services/homepi-pcm-router/src/routing-state.cpp:142-157 | `set_routing` keeps the invariant if and only if the request repeats no enabled zone other than the owner |
| `RoutingRuns.StartCommitInv` | services/homepi-pcm-router/src/routing-state.cpp:203-248 | a start keeps the invariant for every snapshot, playback zone and activity answer, stale ones included |
| `RoutingRuns.PromoteCommitInv` | services/homepi-pcm-router/src/routing-state.cpp:268-277 | a promotion keeps the invariant |
| `RoutingRuns.RouteEndInv` | services/homepi-pcm-router/src/routing-state.cpp:284-307 | an end keeps the invariant; the new pending zone is never the one handed off |
| `RoutingRuns.RouteJoinInv` | services/homepi-pcm-router/src/routing-state.cpp:313-321 | a join keeps the invariant |
| `RoutingRuns.SetEnabledInv` | services/homepi-pcm-router/src/routing-state.cpp:98-132 | enabling and disabling keep the invariant |
| `RoutingRuns.LoadMaskInv` | services/homepi-pcm-router/src/routing-state.cpp:91-96 | loading a mask establishes the derived fields and keeps the invariant |
| `RoutingRuns.DisabledOwnerIff` | services/homepi-pcm-router/src/routing-state.cpp:114-128 | disabling a zone leaves a disabled owner if and only if the zone is the hand-off source |
| `RoutingRuns.DisabledOwnerRun` | services/homepi-pcm-router/src/routing-state.cpp:114-121 | a run of four operations that ends with a disabled owner |
| `RoutingRuns.MaskedOwnerIff` | services/homepi-pcm-router/src/routing-state.cpp:91-96 | loading a mask leaves a disabled owner if and only if it disables the zone that a hand-off is draining |
| `RoutingOrder.OwnerEndOpensHandoff` | services/homepi-pcm-router/src/routing-state.cpp:289-300 | an end of the owner opens a hand-off to the new front exactly when another zone stays stacked |
| `RoutingOrder.HandoffGoesToPending` | services/homepi-pcm-router/src/routing-state.cpp:251-321 | through any joins, ends of other zones and refused promotions owner and pending stay; the first accepted promotion makes exactly the pending zone owner, ends the hand-off and keeps the stack |
| `RoutingOrder.LiveOwnerStays` | services/homepi-pcm-router/src/routing-state.cpp:163-241 | any number of overlapping starts that see live audio from the playing owner leave it owner and front, and the last one to commit pending and stacked |
| `RoutingOrder.TakeoverIff` | services/homepi-pcm-router/src/routing-state.cpp:200-248 | an uninterrupted start of another zone leaves the playing owner in place, with the newcomer pending, if and only if both looks see it live; otherwise the newcomer is the owner |
| `RoutingOrder.RequestedOwnerIff` | services/homepi-pcm-router/src/routing-state.cpp:150-156 | an enabled owner requested by `set_routing` becomes owner if and only if no hand-off from another zone is under way, because the assignment is recomputed |
| `RoutingOrder.PlainStack` | services/homepi-pcm-router/src/routing-state.cpp:203-307 | in such runs pending is the stack front whenever it is set, so a promotion moves nothing |
| `RoutingOrder.BootedHistory` | services/homepi-pcm-router/src/routing-state.cpp:91-96 | the property holds at boot |
| `RoutingOrder.StackIsWhoStartedLast` | services/homepi-pcm-router/src/routing-state.cpp:159-307 | in runs of one-argument starts, ends and promotions the stack holds exactly the zones with a start that no end follows, the later last start nearer the front |
| `OwnerEvents.Service.EmitOwnerRoutingEvents` | services/homepi-pcm-router/src/service.cpp:96-113 | a pending event exactly for a new positive pending zone, then an owner event exactly for a new owner, with the stack of that moment |
| `OwnerEvents.Service.ApplySetZoneEnabled` | services/homepi-pcm-router/src/service.cpp:187-214 | routing changes and events of an enable change, in order; none when nothing changed |
| `OwnerEvents.Service.HandlePrewarmCapture` | services/homepi-pcm-router/src/service.cpp:216-222 | one snapshot for a known enabled zone, nothing otherwise |
| `OwnerEvents.Service.HandleSocket` | services/homepi-pcm-router/src/service.cpp:237-303 | new routing state and emitted events of every socket method |
| `OwnerEvents.Service.HandleBroker` | services/homepi-pcm-router/src/service.cpp:316-390 | new routing state and emitted events of every broker event, which differ from the socket ones |
| `OwnerEvents.Service.Tick` | services/homepi-pcm-router/src/service.cpp:424-438 | one turn of the promotion loop: events only when a promotion took effect |
| `OwnerEvents.Service.EndRoute` | services/homepi-pcm-router/src/service.cpp:253-272 | an end is followed by a promotion attempt before anything is reported |
| `OwnerEvents.SnapshotStore.Ingest` | apps/backend/src/audio/audio-broker-snapshot-store.ts:18-95 | the backend's cache after each kind of event; a pending zone missing from the payload keeps the cached one |
| `OwnerEvents.OwnerSubscriber.HandleEvent` | services/homepi-metadata/src/events-owner-subscriber.cpp:59-117 | the metadata service's owner, stack and enabled zones after each kind of event; empty lists overwrite nothing |
| `OwnerEvents.OwnerSubscriber.ApplyOwnerZone` | services/homepi-metadata/src/events-owner-subscriber.cpp:119-127 | owner 0 is taken only from an authoritative source |
| `OwnerEvents.EnableAndOwner` | services/homepi-pcm-router/src/routing-state.cpp:98-132 | disabling changes the owner only by disabling the owner, and then it is reported; enabling never changes it |
| `OwnerEvents.StepAgrees` | services/homepi-pcm-router/src/service.cpp:187-452 | the events of any one step bring a cache and a mirror that agreed with the router to agreement with its new state |
| `OwnerEvents.CachesFollowRouter` | services/homepi-pcm-router/src/service.cpp:187-452 | after any run of steps, folding all emitted events leaves the backend's owner, stack and pending zone and the metadata service's owner equal to the router's |
| `OwnerEvents.MirrorStackIff` | services/homepi-metadata/src/events-owner-subscriber.cpp:75-78 | the metadata service's stack is current after a step if and only if the step did not empty the router's stack |
| `OwnerEvents.StartupAgrees` | services/homepi-pcm-router/src/service.cpp:421 | the start-up snapshot makes both agree |
| `OwnerEvents.Service.constructor` | services/homepi-pcm-router/src/service.cpp:134-147 | a service over a router has emitted nothing |
| `OwnerEvents.Service.EnabledZones` | services/homepi-pcm-router/src/routing-state.cpp:343-352 | the enabled zones in rising order |
| `OwnerEvents.Service.EmitSnapshot` | services/homepi-pcm-router/src/service.cpp:182-185 | one snapshot of the present routing state is emitted |
| `OwnerEvents.Service.EmitRoutingChanged` | services/homepi-pcm-router/src/service.cpp:115-122 | one routing-changed event of the present routing state is emitted |
| `OwnerEvents.Service.StartRoute` | services/homepi-pcm-router/src/routing-state.cpp:163-249 | both halves of a start without interruption |
| `OwnerEvents.Service.PromotePending` | services/homepi-pcm-router/src/routing-state.cpp:251-278 | both halves of a promotion without interruption, refused when the candidate is not ready |
| `OwnerEvents.Service.ApplySocket` | services/homepi-pcm-router/src/service.cpp:243-294 | the routing state after the socket methods that end in a report |
| `OwnerEvents.Service.ReportRouting` | services/homepi-pcm-router/src/service.cpp:295-302 | owner events, a snapshot and a routing-changed event, in this order |
| `OwnerEvents.SnapshotStore.constructor` | apps/backend/src/audio/audio-broker-snapshot-store.ts:10-12 | the cache starts without a snapshot |
| `OwnerEvents.OwnerSubscriber.constructor` | services/homepi-metadata/src/events-owner-subscriber.cpp:19 | the mirror starts without an owner |
| `OwnerEvents.OwnerSubscriber.ApplyLists` | services/homepi-metadata/src/events-owner-subscriber.cpp:129-150 | each list is replaced unless the new one is empty |
| `PlaybackPath.BridgeFollowsIff` | services/homepi-pcm-router/src/service.cpp:40-45 | with the DAC open the bridge plays the waiting zone during a hand-off, the owner otherwise, if and only if the router has an owner or the bridge had none |
| `PlaybackPath.PlaybackControl.constructor` | services/homepi-pcm-router/src/audio-bridge.cpp:59-67 | all capture modes are off and nothing plays |
| `PlaybackPath.PlaybackControl.EnsureCaptureOpen` | services/homepi-pcm-router/src/audio-bridge.cpp:182-218 | a capture that does not run is opened, with a new ring, when the bridge is started, the zone known and the device opens |
| `PlaybackPath.PlaybackControl.CloseCapture` | services/homepi-pcm-router/src/audio-bridge.cpp:220-235 | a running capture of a known zone is closed and its ring emptied |
| `PlaybackPath.PlaybackControl.ApplyZoneMode` | services/homepi-pcm-router/src/audio-bridge.cpp:83-102 | one zone: its new mode, whether its capture runs afterwards, and whether its ring was emptied by draining, opening or closing |
| `PlaybackPath.PlaybackControl.UpdateZones` | services/homepi-pcm-router/src/audio-bridge.cpp:80-103 | the same for all sixteen zones; slot 0 stays |
| `PlaybackPath.PlaybackControl.ApplyZoneModes` | services/homepi-pcm-router/src/audio-bridge.cpp:79-108 | modes, running captures, the set of all rings emptied, and a revision bump exactly when the playback path was touched |
| `PlaybackPath.PlaybackControl.SetPlaybackOwner` | services/homepi-pcm-router/src/audio-bridge.cpp:301-331 | an owner change with the DAC open records the old owner as hand-off source; a zone of 0 or less ends the session and empties every ring; otherwise nothing changes |
| `PlaybackPath.PlaybackControl.ApplyRouting` | services/homepi-pcm-router/src/service.cpp:33-46 | modes, captures and owner of the router reach the bridge, with the rings that empties; playback zone 0 is ignored |
| `PlaybackPath.HandoffBridges` | services/homepi-pcm-router/src/service.cpp:33-46 | a router hand-off becomes a bridge from the leaving to the pending zone; on the way the pending ring is emptied if and only if its capture has to be opened, the leaving one if and only if its capture has to be opened or the zone is disabled with its capture running |
| `PlaybackPath.PromotionOnBridge` | services/homepi-pcm-router/src/service.cpp:430-431 | the bridge survives the promotion if and only if the playback thread has not ended it before; exactly when either ring is emptied then |
| `PlaybackPath.HandoffKeepsRingsIff` | services/homepi-pcm-router/src/audio-bridge.cpp:79-108 | with both captures running the pending ring is kept throughout, and the leaving one if and only if its zone is enabled and, should the bridge have ended, stacked again |
| `PlaybackPath.BridgePlays` | services/homepi-pcm-router/src/service.cpp:33-46 | with the DAC open: without a hand-off the bridge plays the owner, with one the waiting zone, or the leaving one if none waits; its source is the zone that played before a change, and stays otherwise |
| `PlaybackPath.ClosedDacKeepsBridge` | services/homepi-pcm-router/src/audio-bridge.cpp:301-331 | while the DAC does not open, owner, source and time of the bridge stay |
| `PlaybackPath.RevisionTellsIff` | services/homepi-pcm-router/src/audio-bridge.cpp:79-108 | the revision that interrupts the playback loop grows if and only if the bridge owner changes or a capture mode of the owner or the source does |
| `PlaybackPath.CapturesFollow` | services/homepi-pcm-router/src/audio-bridge.cpp:79-103 | the capture of a disabled zone is closed; that of an enabled one runs if and only if it ran, or the zone is stacked, waits or is left, the bridge is started and the device opens |
| `PlaybackPath.RingEmptiedIff` | services/homepi-pcm-router/src/audio-bridge.cpp:79-103 | when applying routing empties the ring of a zone, by zone mode and state of its capture |
| `PlaybackPath.NewcomersLeaveBridge` | services/homepi-pcm-router/src/service.cpp:33-46 | any number of overlapping starts that see live audio from the playing owner leave owner and source of the bridge as they were, however often routing is applied on the way |
| `PlaybackPath.EndedSessionLeavesNoBridge` | services/homepi-pcm-router/src/audio-bridge.cpp:301-331 | after a session was ended the next owner starts without a bridge from the ended one |
| `FrameRings.FrameRing.constructor` | services/homepi-pcm-router/src/frame-ring.cpp:8-17 | an uninitialised ring holds nothing and has no capacity |
| `FrameRings.FrameRing.Init` | services/homepi-pcm-router/src/frame-ring.cpp:8-17 | an empty ring of the given size; success exactly for positive sizes |
| `FrameRings.FrameRing.Clear` | services/homepi-pcm-router/src/frame-ring.cpp:19-24 | the ring is empty afterwards and stays consistent |
| `FrameRings.FrameRing.Put` | services/homepi-pcm-router/src/frame-ring.cpp:32-39 | one turn of the write loop: the last `capacity` frames of old contents and new frame |
| `FrameRings.FrameRing.Write` | services/homepi-pcm-router/src/frame-ring.cpp:26-42 | contents become the last `capacity` frames of old contents followed by the data; the write index stays (read + used) mod capacity |
| `FrameRings.FrameRing.Read` | services/homepi-pcm-router/src/frame-ring.cpp:44-54 | returns the oldest frames, as many as asked for and held, and removes exactly them |
| `FrameRings.FrameRing.AvailableFrames` | services/homepi-pcm-router/src/frame-ring.cpp:56-59 | the number of frames held |
| `FrameRings.NothingLostOrReordered` | services/homepi-pcm-router/src/frame-ring.cpp:8-54 | over any run of writes, reads, clears and re-inits: what left the ring followed by what it holds is all it accepted, in order |
| `FrameRings.FrameConservation` | services/homepi-pcm-router/src/frame-ring.cpp:8-54 | frames accepted = read + overwritten + cleared + held, over any run |
| `FrameRings.FrameRing.DropOldest` | services/homepi-pcm-router/src/frame-ring.cpp:32-35 | a full ring loses exactly its oldest frame |
| `FrameRings.FrameRing.Append` | services/homepi-pcm-router/src/frame-ring.cpp:36-39 | a ring with room gains the frame at its end, across the wrap as well |
| `FrameRings.FrameRing.CopyOut` | services/homepi-pcm-router/src/frame-ring.cpp:47-51 | the copy loop yields the oldest frames in order and moves the read index that far round the ring |
| `FrameRings.ReaderGetsNewest` | services/homepi-pcm-router/src/frame-ring.cpp:26-54 | a write and then a read: only the frames too many for the ring are overwritten, the oldest, and the reader gets the oldest of the rest, as many as there are or it asks for |
| `FrameRings.DeliveredIsRead` | services/homepi-pcm-router/src/frame-ring.cpp:44-54 | over any run, the frames recorded as delivered are those the reads returned, in order |
| `AudioBridge.DacHearsInOrder` | services/homepi-pcm-router/src/audio-bridge.cpp:460-600 | in every interleaving of capture, playback and control steps, ring clears and re-inits included, the frames of a zone handed to the DAC are an order-preserving selection, without repeats, of those captured for it |
| `AudioBridge.StepFlows` | services/homepi-pcm-router/src/audio-bridge.cpp:460-600 | each single access keeps that, and keeps the zone being read equal to the loaded owner or the loaded hand-off source |
| `AudioBridge.PlayedEffect` | services/homepi-pcm-router/src/audio-bridge.cpp:503-600 | what one step of the playback loop can do to a zone: nothing, take the oldest frames, or hand over what it took; the zone read stays the loaded owner or hand-off source |
| `AudioBridge.HandoffHasPeriod` | services/homepi-pcm-router/src/audio-bridge.cpp:538-551 | during a hand-off, if either zone has a full period when the preferred ring is tested, so has the zone picked, whatever the other threads do that empties neither ring of the pair |
| `AudioBridge.EmptiedPair` | services/homepi-pcm-router/src/audio-bridge.cpp:541-551 | once a zone is picked, emptying a ring defeats that if and only if it is the one picked |
| `Base64.Trim` | services/homepi-metadata/src/metadata-parser.cpp:440-446 | blanks, and only they, are dropped |
| `Base64.DecodeBase64` | services/homepi-metadata/src/metadata-parser.cpp:430-478 | trimming, padding to a multiple of four and the accumulator loop amount to one fold over the text, failures included |
| `Base64.DecodeLoop` | services/homepi-metadata/src/metadata-parser.cpp:457-477 | the accumulator loop, with its 32-bit register that loses the high bits |
| `Base64.PadIsIgnored` | services/homepi-metadata/src/metadata-parser.cpp:453-455 | appended padding changes nothing |
| `Base64.DecodeEncoded` | services/homepi-metadata/src/metadata-parser.cpp:457-477 | from any register without pending bits, decoding undoes the encoder and the junk above the pending bits never reaches a byte |
| `Base64.DecodeUndoesEncode` | services/homepi-metadata/src/metadata-parser.cpp:430-478 | for every byte sequence, with blanks anywhere and padding kept or dropped, decoding undoes the encoding of section 4 of RFC 4648 |
| `Base64.AcceptedIff` | services/homepi-metadata/src/metadata-parser.cpp:462-469 | a text is accepted if and only if every character before the first `=` is of the alphabet or outside ASCII |
| `Base64.TableIff` | services/homepi-metadata/src/metadata-parser.cpp:432-438 | the table accepts exactly the alphabet and everything outside ASCII |
| `Base64.LetterTable` | services/homepi-metadata/src/metadata-parser.cpp:432-438 | the table undoes the alphabet of the standard |
| `MetadataStream.MetadataParser.Feed` | services/homepi-metadata/src/metadata-parser.cpp:98-102 | buffer and dispatched messages after one chunk |
| `MetadataStream.MetadataParser.ProcessStreamBuffer` | services/homepi-metadata/src/metadata-parser.cpp:104-150 | the framing loop ends, because the buffer shrinks on every turn, and computes its specification |
| `MetadataStream.NextFrame` | services/homepi-metadata/src/metadata-parser.cpp:120-142 | a frame or a dropped prefix is never empty and never reaches past the buffer |
| `MetadataStream.MetadataParser.constructor` | services/homepi-metadata/src/metadata-parser.cpp:81-82 | an empty buffer, nothing dispatched |
| `MetadataStream.MetadataParser.Reset` | services/homepi-metadata/src/metadata-parser.cpp:84-85 | the stream buffer is emptied, what was dispatched stays |
| `MetadataFraming.WholeItem` | services/homepi-metadata/src/metadata-parser.cpp:120-145 | a buffer that begins with a whole printed item is cut exactly behind it, whatever follows |
| `MetadataFraming.PartOfItem` | services/homepi-metadata/src/metadata-parser.cpp:120-142 | a buffer that holds a proper part of an item waits |
| `MetadataFraming.HeaderParses` | services/homepi-metadata/src/metadata-parser.cpp:63-77 | the header of a printed item reads back as its two codes and its length |
| `MetadataFraming.PayloadParses` | services/homepi-metadata/src/metadata-parser.cpp:152-179 | the data of a printed item reads back as its payload, line breaks and blanks included |
| `MetadataFraming.ItemParses` | services/homepi-metadata/src/metadata-parser.cpp:181-218 | a printed item dispatches exactly its type, code and payload, an empty payload included |
| `MetadataFraming.OneChunk` | services/homepi-metadata/src/metadata-parser.cpp:98-150 | one call dispatches exactly the items that have arrived completely |
| `MetadataFraming.StrayOpeningDependsOnCut` | services/homepi-metadata/src/metadata-parser.cpp:125-142 | behind an opening tag that is never closed, the same bytes dispatch an item or nothing, depending on the cut |
| `MetadataFraming.AnyCutDispatchesItems` | services/homepi-metadata/src/metadata-parser.cpp:98-218 | for every list of items whose data encodes their payloads, each closed or else with data and followed at once by the next, and every way of cutting their bytes into chunks, exactly one message per item is dispatched, in order, with its codes and payload, and nothing of an item stays in the buffer |
| `MetadataFraming.SwitchedOff` | services/homepi-metadata/src/metadata-parser.cpp:104-150 | switched off, the parser cuts the stream as always and dispatches nothing |
| `MetadataFraming.NoiseIsKeptUpToLimit` | services/homepi-metadata/src/metadata-parser.cpp:105-118 | text in which nothing opens is kept up to 8 MB and thrown away as a whole beyond |
| `MetadataFraming.AnyCutDispatchesOutcomes` | services/homepi-metadata/src/metadata-parser.cpp:98-218 | for every list of printed items with any data, every way of cutting their bytes dispatches what each item comes to by itself, in order: nothing for data that is empty or not base64, else the decoded data cut to the declared length; a damaged item does not disturb the others |
| `MetadataFraming.ItemOutcome` | services/homepi-metadata/src/metadata-parser.cpp:181-218 | a printed item with any data is processed to just that |
| `MetadataFraming.TagThenDecimal` | services/homepi-metadata/src/metadata-parser.cpp:63-77 | a length of any size saturates at 64 bits and keeps its lower 32 |
| `MetadataFraming.BlanksAreSkipped` | services/homepi-metadata/src/metadata-parser.cpp:63-77 | blanks in front of a number are skipped |
| `Progress.SplitTokens` | services/homepi-metadata/src/progress-parser.cpp:19-32 | the tokens between delimiters, an empty last one included |
| `Progress.SplitUndoesGlue` | services/homepi-metadata/src/progress-parser.cpp:19-32 | splitting gives back any tokens that hold no delimiter |
| `Progress.GlueUndoesSplit` | services/homepi-metadata/src/progress-parser.cpp:19-32 | gluing the tokens of any text gives the text back |
| `Progress.IntegerRoundTrip` | services/homepi-metadata/src/progress-parser.cpp:13-17 | every printed 64-bit integer reads back, negatives included |
| `Progress.PrgrRoundTrip` | services/homepi-metadata/src/progress-parser.cpp:118-143 | the three token readers give back what `start/current/end` was printed from |
| `Progress.PairReadsSecond` | services/homepi-metadata/src/progress-parser.cpp:126-135 | of two tokens the second is the current value |
| `Progress.ParsePrgrProgress` | services/homepi-metadata/src/progress-parser.cpp:59-85 | the update for every payload, malformed and all-zero ones included |
| `Progress.ProgressTracker.OnPrgr` | services/homepi-metadata/src/metadata-parser.cpp:295-303 | start and end are taken over and the accumulated position is reset |
| `Progress.ProgressTracker.OnPhb0` | services/homepi-metadata/src/metadata-parser.cpp:305-310 | the start is taken over, the end kept, the accumulated position reset |
| `Progress.ProgressTracker.OnPhbt` | services/homepi-metadata/src/metadata-parser.cpp:312-363 | tracking state and emitted update for every payload |
| `Progress.SmallStepsStandStill` | services/homepi-metadata/src/metadata-parser.cpp:326-329 | steps under a millisecond are lost: a positive position stands still however many follow |
| `Progress.PhbtRoundTrip` | services/homepi-metadata/src/progress-parser.cpp:126-135 | a single printed token reads back as start and as current value |
| `Progress.FittingSpan` | services/homepi-metadata/src/progress-parser.cpp:46-57 | while the product of samples and 1000 fits 64 bits, the span is exact up to eight hours and 0 beyond |
| `Progress.SpanExactIff` | services/homepi-metadata/src/progress-parser.cpp:46-57 | for all samples, wrap-around included, the span is computed exactly if and only if it takes at most eight hours |
| `Progress.PrgrWithinDuration` | services/homepi-metadata/src/progress-parser.cpp:66-84 | a frame in order whose span fits reports both values rounded down, the position within the duration |
| `Progress.PrgrPositionWithinDurationIff` | services/homepi-metadata/src/progress-parser.cpp:46-84 | where a duration below eight hours is reported, every frame in order stays within it if and only if the product of the track and 1000 fits 64 bits |
| `Progress.ProgressTracker.constructor` | services/homepi-metadata/include/homepi/metadata/metadata-parser.hpp:60-64 | tracking starts from zero |
| `Progress.ProgressTracker.ResetTracking` | services/homepi-metadata/src/metadata-parser.cpp:91-96 | all four tracking fields go back to zero |
| `Progress.ProgressTracker.Accumulate` | services/homepi-metadata/src/metadata-parser.cpp:320-334 | nanosecond and sample branches of the accumulation, in 32 bits |
| `Progress.PositionBounds` | services/homepi-metadata/src/metadata-parser.cpp:326-347 | after a positive start and n climbing samples in steps under eight hours, the position counted lies between the exact one, rounded down, and n - 1 milliseconds below it; the tracker holds it wrapped to 32 bits, so exactly when it fits them |
| `Progress.PhbtWithinDuration` | services/homepi-metadata/src/metadata-parser.cpp:337-362 | as long as the last sample is not behind the end and the track fits, no position beyond the duration is reported |
| `Progress.PhbtWithinDurationIff` | services/homepi-metadata/src/metadata-parser.cpp:337-362 | where a duration below eight hours is reported, positions stay within it if and only if the product of the track and 1000 fits 64 bits |
| `Progress.StaysExactIff` | services/homepi-metadata/src/metadata-parser.cpp:326-329 | a step from an exact position stays exact if and only if the two remainders make no whole millisecond and the position fits 32 bits |
| `Progress.WallClockBounds` | services/homepi-metadata/src/metadata-parser.cpp:320-347 | with wall-clock samples the position is the time since the first one, less than a millisecond lost on each later one, on top of a jump that the first clock makes by wrap-around and nothing takes back |
| `Progress.FittingClock` | services/homepi-metadata/src/metadata-parser.cpp:340-347 | while the product of clock and 1000 fits 64 bits there is no jump |
| `Progress.WallClockFromFirst` | services/homepi-metadata/src/metadata-parser.cpp:320-347 | while the last product fits, the position is counted from the first wall clock |
| `Progress.EpochClockJumps` | services/homepi-metadata/src/metadata-parser.cpp:340-347 | a clock of November 2025 does not fit and jumps to 1165520334 ms |
| `Progress.IntegerBeyondReadsZero` | services/homepi-metadata/src/progress-parser.cpp:13-17 | a number beyond 64 bits reads as 0 |
| `ContentHash.RotrRotates` | services/homepi-metadata/src/content-hash.cpp:13-15 | `rotr` rotates, for every amount used |
| `ContentHash.Schedule` | services/homepi-metadata/src/content-hash.cpp:30-47 | the array holds the message schedule of section 6.2.2 of FIPS 180-4 |
| `ContentHash.NextWord` | services/homepi-metadata/src/content-hash.cpp:39-46 | one step of the schedule, whose summands stand in another order than in the standard |
| `ContentHash.Mix` | services/homepi-metadata/src/content-hash.cpp:49-74 | 64 rounds over eight locals are the rounds of the standard |
| `ContentHash.OneRound` | services/homepi-metadata/src/content-hash.cpp:59-73 | one round, written with shifts and ors, is the round of the standard |
| `ContentHash.Transform` | services/homepi-metadata/src/content-hash.cpp:17-84 | the state array is replaced by the compression of old state and block |
| `ContentHash.Pad` | services/homepi-metadata/src/content-hash.cpp:92-100 | the padding loops end and give the padded message of section 5.1.1 |
| `ContentHash.HashBlocks` | services/homepi-metadata/src/content-hash.cpp:102-104 | the block loop stays inside the padded message and folds the compression over it |
| `ContentHash.Sha256Hex` | services/homepi-metadata/src/content-hash.cpp:88-112 | for every input the result is the hexadecimal form of the digest of FIPS 180-4: 64 lower-case digits |
| `ContentHash.HexWordRoundTrip` | services/homepi-metadata/src/content-hash.cpp:106-110 | every word takes exactly eight lower-case digits that denote it |
| `ContentHash.SameHexIff` | services/homepi-metadata/src/content-hash.cpp:106-111 | two hashes are the same text if and only if the digests are the same |
| `ContentHash.AddTo` | services/homepi-metadata/src/content-hash.cpp:76-83 | each state word grows by its working variable, modulo 2^32 |
| `ContentHash.PadZeros` | services/homepi-metadata/src/content-hash.cpp:93-97 | the zero loop ends at the least number of zeros that leaves 56 bytes modulo 64 |
| `ContentHash.AppendLength` | services/homepi-metadata/src/content-hash.cpp:98-100 | the length loop appends the eight bytes of the length, most significant first |
| `ContentHash.HexText` | services/homepi-metadata/src/content-hash.cpp:106-111 | the words are printed one after the other, each filled to eight digits |
| `ContentHash.HexAt` | services/homepi-metadata/src/content-hash.cpp:106-111 | the words of the digest stand in the text in their order, eight digits each |
| `Sha256.PaddedIsWholeBlocks` | services/homepi-metadata/src/content-hash.cpp:92-100 | the padded length is the least multiple of 64 that has room for the message and nine bytes |
| `Sha256.PaddingInjective` | services/homepi-metadata/src/content-hash.cpp:92-100 | different messages are padded differently, whatever their lengths |
| `Sha256.LengthField` | services/homepi-metadata/src/content-hash.cpp:98-100 | the last eight bytes spell the 64-bit length in bits |
| `HifiQuoting.EscapeProtocolString` | services/homepi-hifi-serial/src/protocol-encoder.cpp:5-15 | quotes, stars and backslashes, and only they, get a backslash |
| `HifiQuoting.ParseQuotedValue` | services/homepi-hifi-serial/src/protocol-parser.cpp:623-640 | the unescaped value of the first quoted string, nothing when a quote is missing |
| `HifiQuoting.FindQuotedValueEnd` | services/homepi-hifi-serial/src/protocol-parser.cpp:455-469 | the position behind the closing quote, or the end of the line |
| `HifiQuoting.UnquotedEscaped` | services/homepi-hifi-serial/src/protocol-parser.cpp:629-638 | parsing undoes escaping for every string in any context, and the end is just behind the closing quote |
| `HifiQuoting.QuotedAt` | services/homepi-hifi-serial/src/protocol-parser.cpp:623-640 | a quoted value behind a text without quotes is found, read back and left exactly behind it |
| `HifiQuoting.CollectQuotedValues` | services/homepi-hifi-serial/src/protocol-parser.cpp:648-664 | the collected values; the loop ends on every line |
| `HifiQuoting.CollectRoundTrip` | services/homepi-hifi-serial/src/protocol-parser.cpp:648-664 | any number of quoted values behind quote-free separators is collected exactly, in order |
| `HifiQuoting.ReadNextQuoted` | services/homepi-hifi-serial/src/protocol-parser.cpp:652-661 | one turn of the collecting loop: the next value and where the search goes on |
| `HifiQuoting.ParseIntSuffix` | services/homepi-hifi-serial/src/protocol-parser.cpp:19-35 | value, wrapped to 32 bits, and end of a decimal suffix, with or without sign, with or without digits |
| `HifiQuoting.SuffixRoundTrip` | services/homepi-hifi-serial/src/protocol-parser.cpp:19-35 | a printed integer in front of anything that is no digit reads back wrapped to 32 bits, so as itself if and only if it fits them |
| `HifiQuoting.AccumulatorFitsIff` | services/homepi-hifi-serial/src/protocol-parser.cpp:30-34 | the accumulator never wraps on the digits of a number if and only if its magnitude fits |
| `HifiQuoting.ScanDigits` | services/homepi-hifi-serial/src/protocol-parser.cpp:30-33 | value, wrapped to 32 bits, and end of a run of digits |
| `HifiQuoting.EscapedIsHarmless` | services/homepi-hifi-serial/src/protocol-encoder.cpp:5-15 | read with its escapes, an escaped text shows no quote and no star, so it ends neither its quotes nor the command |
| `HifiBulk.MarkerRoundTrip` | services/homepi-hifi-serial/src/protocol-parser.cpp:307-341 | a printed marker with an index of the family is found where it was printed |
| `HifiBulk.EmitValueBulk` | services/homepi-hifi-serial/src/protocol-parser.cpp:299-356 | the updates of a value bulk reply; the scan advances on every branch |
| `HifiBulk.FindMarker` | services/homepi-hifi-serial/src/protocol-parser.cpp:307-341 | index, wrapped to 32 bits, and value position of a marker, for every position of every line |
| `HifiBulk.ValuesInRange` | services/homepi-hifi-serial/src/protocol-parser.cpp:333-336 | whatever the line, only indices of the family and 32-bit values are reported |
| `HifiBulk.ValueBulkRoundTripIff` | services/homepi-hifi-serial/src/protocol-parser.cpp:299-356 | a printed `Z<i>KEYWORD<v>` list parses back to the same list, in order and negatives included, if and only if every index is one of the family and every value fits 32 bits; and without a wrap of the accumulator if and only if, besides, no value is the lowest one |
| `HifiBulk.EmptySegmentReportsNothing` | services/homepi-hifi-serial/src/protocol-parser.cpp:333-352 | a segment without a number reports nothing, and the scan goes on behind it |
| `HifiNames.SanitizeParsedName` | services/homepi-hifi-serial/src/protocol-parser.cpp:379-404 | the name is cut at `#`, then at the first leaked marker, then trailing blanks go |
| `HifiNames.ParseNameValue` | services/homepi-hifi-serial/src/protocol-parser.cpp:413-453 | quoted and bare names after the keyword, for every line and position |
| `HifiNames.EmitNameBulk` | services/homepi-hifi-serial/src/protocol-parser.cpp:482-556 | the updates of a name bulk reply; the scan advances on every branch, so it ends on every line |
| `HifiNames.SanitizedIsClean` | services/homepi-hifi-serial/src/protocol-parser.cpp:379-404 | a sanitised name holds no `#`, no zone marker and no trailing blank |
| `HifiNames.OnlyCleanNames` | services/homepi-hifi-serial/src/protocol-parser.cpp:482-556 | whatever the line, only indices of the family and clean names are reported |
| `HifiNames.NameBulkRoundTripIff` | services/homepi-hifi-serial/src/protocol-parser.cpp:482-556 | a printed name list parses back to the same list, in order, if and only if every index is one of the family and every name clean |
| `HifiNames.FindFirstMarker` | services/homepi-hifi-serial/src/protocol-parser.cpp:384-399 | the first position where a zone marker starts |
| `HifiNames.ReadBareName` | services/homepi-hifi-serial/src/protocol-parser.cpp:423-441 | a bare name runs up to `#` or the next marker |
| `HifiNames.LookAt` | services/homepi-hifi-serial/src/protocol-parser.cpp:490-555 | what the scan does at one position: skip, or report a name and go on behind it |
| `HifiIndexed.IsShadowed` | services/homepi-hifi-serial/src/protocol-parser.cpp:99-114 | a marker is shadowed exactly when a longer index of the family starts at the same place |
| `HifiIndexed.TryMarker` | services/homepi-hifi-serial/src/protocol-parser.cpp:171-187 | what one marker gives, with shadowing, unreadable values and overlaps left out |
| `HifiIndexed.EmitByIndex` | services/homepi-hifi-serial/src/protocol-parser.cpp:156-197 | the updates of the three parsers that search index by index |
| `HifiIndexed.HitsSpread` | services/homepi-hifi-serial/src/protocol-parser.cpp:156-197 | on every line: at most one update an index, indices strictly falling within the range, spans inside the line and pairwise disjoint |
| `HifiIndexed.MissingIndex` | services/homepi-hifi-serial/src/protocol-parser.cpp:569-619 | an index without an update has only markers that are shadowed, unreadable or inside the span of another update |
| `HifiIndexed.NoFirstHit` | services/homepi-hifi-serial/src/protocol-parser.cpp:162-196 | the search of one index passes over unusable markers only |
| `HifiIndexed.ExpectedIsMap` | services/homepi-hifi-serial/src/protocol-parser.cpp:241-284 | those entries are the map, each index once |
| `HifiIndexed.ReadValue` | services/homepi-hifi-serial/src/protocol-parser.cpp:588-598 | flag, number or quoted name behind a marker, and where it ends |
| `HifiIndexed.SearchIndex` | services/homepi-hifi-serial/src/protocol-parser.cpp:164-195 | the first usable marker of one index; the search ends because it moves right |
| `HifiEnable.EnableRoundTrip` | services/homepi-hifi-serial/src/protocol-parser.cpp:235-285 | an ENABLE reply printed from a map in any order parses to exactly its entries with an index of the family, highest index first |
| `HifiEnable.NotShadowed` | services/homepi-hifi-serial/src/protocol-parser.cpp:250-252 | a marker with its keyword is never shadowed by a longer index |
| `Replay.EventBroadcaster.AddSubscriber` | apps/backend/src/event-broadcaster.ts:59-74 | a new subscriber is registered and sent the snapshot and the buffer; a response that throws stays registered and gets nothing |
| `Replay.EventBroadcaster.RemoveSubscriber` | apps/backend/src/event-broadcaster.ts:105-108 | the subscriber is gone and everything else stays |
| `Replay.EventBroadcaster.Stop` | apps/backend/src/event-broadcaster.ts:154-161 | no subscribers and no buffer, what was sent stays sent |
| `Replay.EventBroadcaster.Broadcast` | apps/backend/src/event-broadcaster.ts:167-183 | buffer, subscribers and writes after a broadcast; responses that throw are dropped and the others still served |
| `Replay.BufferIsWindow` | apps/backend/src/event-broadcaster.ts:167-173 | after any run the buffer is the newest 200 replayable broadcasts since the last stop, whichever writes fail |
| `Replay.WellFormedRun` | apps/backend/src/event-broadcaster.ts:59-183 | in every run subscribers are distinct and the buffer holds at most 200 envelopes, all replayable |
| `Replay.NothingAfterLeaving` | apps/backend/src/event-broadcaster.ts:105-183 | a response that left or failed gets nothing more until it joins again |
| `Replay.EventBroadcaster.constructor` | apps/backend/src/event-broadcaster.ts:38-52 | no subscribers, an empty buffer, nothing sent |
| `Replay.EventBroadcaster.ReplayTo` | apps/backend/src/event-broadcaster.ts:70-74 | the buffer is sent to one response, in order, without what is excluded from replay |
| `Replay.EventBroadcaster.WriteOrDrop` | apps/backend/src/event-broadcaster.ts:176-181 | a response that throws is dropped, any other gets the envelope once |
| `Replay.EventBroadcaster.WriteToAll` | apps/backend/src/event-broadcaster.ts:176-182 | dropping subscribers while iterating skips nobody: all others get the envelope once, in order of subscription |
| `Replay.EventBroadcaster.DeliverBootstrap` | apps/backend/src/event-broadcaster.ts:76-85 | fetched envelopes are written in order to a response that is still there, and to no other |
| `Replay.SubscriberSeesEverything` | apps/backend/src/event-broadcaster.ts:59-183 | a subscriber that joins after any run gets the snapshot, that window, then every broadcast and its own bootstrap envelopes that do not throw, in order, without gap or repeat, for as long as it stays |
| `Replay.LastIsReplayedIff` | apps/backend/src/event-broadcaster.ts:15-23 | a broadcast envelope joins the replay buffer if and only if it is no heartbeat, not of the metadata service, and not the realtime audio of the backend |
| `Handlers.EveryHandlerReports` | services/homepi-pcm-router/src/service.cpp:187-459 | in every handler, each step that can change owner, pending zone or stack is followed by a snapshot that is certain to be published, given what the step did |
| `OwnerRaces.StaleAtRestIff` | services/homepi-pcm-router/src/service.cpp:96-452 | every read, change and publication of any number of overlapping handlers a step of its own: once no handler is under way, the last event has missed a change of a part if and only if an event published before it had seen that change, and the backend cache is stale if and only if that has happened to a part and later changes have not undone it |
| `OwnerRaces.InOrderIsCurrent` | services/homepi-pcm-router/src/service.cpp:96-452 | after every such run that published events in the order in which they were read, the cache is current |
| `OwnerRaces.RanSound` | services/homepi-pcm-router/src/service.cpp:96-452 | in every such run, an event read wholly after the last change has been published, or a thread under way is certain to publish one |
| `OwnerRaces.StaleRun` | services/homepi-pcm-router/src/service.cpp:392-410 | a run of two threads that ends at rest with an owner in the cache that is no longer the owner: a snapshot is read, a zone joins and is reported, the snapshot is published |
| `OwnerRaces.TornRun` | services/homepi-pcm-router/src/snapshot-builder.cpp:49-66 | a run of two threads that ends at rest with the owner from after a join and the stack from before it, as the stack is read first |
| `OwnerRaces.PublishIsIngest` | apps/backend/src/audio/audio-broker-snapshot-store.ts:32-95 | every kind of event that carries routing makes the cache the published picture; without a pending zone the cached one stays |
| `OwnerTurns.RestingCacheIff` | services/homepi-pcm-router/src/service.cpp:96-452 | when the reads and the publication of each event are one step, and no handler is under way: the cache has the stack and the pending zone of the router, and its owner too if and only if the last event was not one of disabling a zone, or that named the present owner |
| `OwnerTurns.MirrorIff` | services/homepi-metadata/src/events-owner-subscriber.cpp:59-117 | in the same runs, at every moment: the metadata service has the owner of the router if and only if it held that owner when the owner changed last (or was given it later, by the event of disabling a zone), or an owner event has followed, or a snapshot has followed and either there is no owner or the service held none |
| `OwnerTurns.MirrorStaleRun` | services/homepi-pcm-router/src/service.cpp:107-112 | a run of three threads that ends at rest with a current cache and the metadata service on a zone that is no longer the owner |
| `OwnerTurns.DisabledStaleRun` | services/homepi-pcm-router/src/service.cpp:202-212 | a run that ends at rest without an owner in both processes while a zone owns the DAC: a zone is disabled, another joins and is reported, and only then the event of the disabling goes out |
| `HandlersAlone.HandlerAlone` | services/homepi-pcm-router/src/service.cpp:187-452 | a handler that nobody interrupts takes the router where the service takes it and publishes the same events, those that neither process heeds left out |
| `Durations.PrgrLongDurationIff` | services/homepi-metadata/src/progress-parser.cpp:46-84 | where a duration of eight hours or more is reported, every frame in order stays within it if and only if the product of the track and 1000 fits 64 bits, or has wrapped once, is still negative, and its milliseconds have not wrapped to 32 bits since |
| `Durations.PrgrOverruns` | services/homepi-metadata/src/progress-parser.cpp:46-84 | a frame of a track whose product wraps twice reports 100 s of a duration of 10 s |
| `Durations.PhbtLongestIff` | services/homepi-metadata/src/metadata-parser.cpp:337-362 | wherever a duration is reported, positions stay within it if and only if it is not shorter than the time from the start to the last sample that is no wall clock |
| `Durations.PhbtOverruns` | services/homepi-metadata/src/metadata-parser.cpp:337-362 | a sample of a track whose product wraps reports 5 s of a duration of 1 s |
| `RoutingChanges.PromotionIff` | services/homepi-pcm-router/src/routing-state.cpp:251-278 | whatever happened between its halves, hand-off or not, a promotion of a ready zone that still waits makes it owner and front, ends waiting and hand-off and leaves all others in the stack and in their order; any other changes nothing |
| `RoutingChanges.EveryPromotion` | services/homepi-pcm-router/src/routing-state.cpp:251-278 | so it is after every interleaved run from a booted router |
| `RoutingChanges.WaitingZoneGetsDac` | services/homepi-pcm-router/src/routing-state.cpp:251-278 | an uninterrupted promotion gives the DAC to the zone that waits, if it is ready |
| `RoutingChanges.PrunedIs` | services/homepi-pcm-router/src/routing-state.cpp:187-223 | pruning forgets exactly the zones that are silent, or all but the newcomer when the owner is silent, and reorders nobody; silent is a zone without live audio and without a start in the last 500 ms |
| `RoutingChanges.StartOutcome` | services/homepi-pcm-router/src/routing-state.cpp:200-249 | a start from any snapshot ends a hand-off, stamps its zone, keeps of the others exactly those it does not forget, in their order, and waits if and only if another zone plays live: the zone on the bridge, else the owner, else the first one left |
| `RoutingChanges.RecentStartHoldsIff` | services/homepi-pcm-router/src/routing-state.cpp:187-249 | with no live audio anywhere, the zone that started keeps the DAC from the next one if and only if both looks come within 500 ms of its start |
| `RoutingChanges.EndOutcome` | services/homepi-pcm-router/src/routing-state.cpp:280-307 | an end takes its zone from the stack and moves no other; waiting and hand-off change only if they were about it |
| `RoutingChanges.JoinOutcome` | services/homepi-pcm-router/src/routing-state.cpp:309-321 | a join stacks its zone last unless it is stacked, and gives it the DAC only when nobody owns it |
| `RoutingChanges.EnableOutcome` | services/homepi-pcm-router/src/routing-state.cpp:98-132 | disabling takes exactly that zone from stack and waiting; enabling restores nothing; no other zone moves |
| `RoutingChanges.MaskOutcome` | services/homepi-pcm-router/src/routing-state.cpp:48-60 | a mask takes exactly the zones it disables from stack and waiting, and moves no other |
| `RoutingChanges.RouteOutcome` | services/homepi-pcm-router/src/routing-state.cpp:142-157 | a requested stack holds exactly the enabled zones asked for, in the order of the request, an enabled owner in front; waiting and hand-off stay |
| `Announcements.OnlyTheTruth` | services/homepi-pcm-router/src/service.cpp:96-452 | no event of any step tells an owner, a pending zone, a stack or enabled zones other than those of the state the step leads to |
| `Announcements.ChangesAreTold` | services/homepi-pcm-router/src/service.cpp:187-452 | a step that changes the router in any way emits a snapshot of the new state |
| `Announcements.PendingAnnouncedIff` | services/homepi-pcm-router/src/service.cpp:96-106 | in every step a pending event is emitted if and only if there is a new zone waiting |
| `Announcements.OwnerAnnouncedIff` | services/homepi-pcm-router/src/service.cpp:107-113 | in every step an owner event is emitted if and only if the owner has changed, except by a join through the broker |
| `Announcements.DisabledAnnouncedIff` | services/homepi-pcm-router/src/service.cpp:187-214 | a zone is reported disabled if and only if the step disables it |
| `Announcements.EnabledListIs` | services/homepi-pcm-router/src/routing-state.cpp:343-352 | the list names exactly the enabled zones, each once, in rising order |
| `Announcements.MirrorHoldsEnabledZones` | services/homepi-metadata/src/events-owner-subscriber.cpp:59-150 | after any run of steps the metadata service holds exactly the enabled zones of the router, in rising order, unless none is enabled |
| `Announcements.EmptyListIsKept` | services/homepi-metadata/src/events-owner-subscriber.cpp:129-150 | when a step leaves no zone enabled the metadata service keeps its old list |
| `Announcements.StackIsHeard` | services/homepi-metadata/src/events-owner-subscriber.cpp:59-117 | every event that carries the stack brings it to the metadata service, unless it is empty |
| `PlaybackPass.PassDelivers` | services/homepi-pcm-router/src/audio-bridge.cpp:503-600 | from the top of the loop with the DAC open, an uninterrupted pass comes back to the top; if a zone is heard, exactly the oldest period of its ring has gone from there to the DAC, and otherwise nothing has; which zone that is depends on rings and stamps alone, and only stale audio is thrown away |
| `PlaybackPass.OwnerHeardIff` | services/homepi-pcm-router/src/audio-bridge.cpp:553-600 | without a hand-off the pass plays the owner if and only if its ring holds a period that is at most 80 ms old, and otherwise nobody |
| `PlaybackPass.CaptureRound` | services/homepi-pcm-router/src/audio-bridge.cpp:460-493 | an uninterrupted round of a capture thread: in buffer mode the frames join the ring, which keeps its newest, and are stamped; in drain mode they are read and lost; otherwise nothing is read |
| `PlaybackPass.CapturedPeriodIsHeard` | services/homepi-pcm-router/src/audio-bridge.cpp:460-600 | a period captured for the zone that plays alone is what the next pass plays |
| `PlaybackPass.BridgeHeardIff` | services/homepi-pcm-router/src/audio-bridge.cpp:520-600 | during a bridge from another zone: while the owner lacks two periods or anything of the last 500 ms, the zone being left is heard, or else the owner, whichever has a period; otherwise the bridge ends, and the owner is heard if and only if its audio is at most 80 ms old, else it is thrown away but for a part of a period |
| `MetadataUnclosed.BothFramed` | services/homepi-metadata/src/metadata-parser.cpp:120-142 | a header that has lost the rest of its item, and a whole item behind it, are taken for one frame |
| `MetadataUnclosed.BareFramed` | services/homepi-metadata/src/metadata-parser.cpp:125-142 | with a part of the next item there, such a header is a frame of its own if its length is zero, and dropped otherwise |
| `MetadataUnclosed.UnclosedHeaderIff` | services/homepi-metadata/src/metadata-parser.cpp:98-218 | for every cut into two chunks: the item behind such a header is dispatched, after the header if its length is zero, if and only if the cut lies behind the next opening tag; otherwise one message is made of both, and which one is said |
| `ProgressPayloads.FedIsRun` | services/homepi-metadata/src/metadata-parser.cpp:312-334 | folding the branch over printed payloads, samples or pairs with a wall clock, is the run over their numbers, the first frame taken for the start if there is none |
| `ProgressPayloads.PrgrTrack` | services/homepi-metadata/src/metadata-parser.cpp:295-303 | a printed `prgr` leaves its start and end, and nothing accumulated |
| `ProgressPayloads.Phb0Track` | services/homepi-metadata/src/metadata-parser.cpp:305-310 | a printed `phb0` starts again from its frame, towards the same end |
| `ProgressPayloads.PrintedPositionBounds` | services/homepi-metadata/src/metadata-parser.cpp:295-363 | after a printed `prgr` and printed climbing samples, the reported position is the exact one less a millisecond at most for every sample but the first, wrapped to 32 bits |
| `ProgressPayloads.PrintedWithinDuration` | services/homepi-metadata/src/metadata-parser.cpp:295-363 | while the printed samples stay in a track that fits, every reported position is within the duration |
| `ProgressPayloads.PrintedClockFromFirst` | services/homepi-metadata/src/metadata-parser.cpp:312-363 | after printed pairs with climbing wall clocks whose last product fits, the reported position is the time since the first of them, less a millisecond at most for each later one |
| `ProgressPayloads.PrintedPrgrReports` | services/homepi-metadata/src/progress-parser.cpp:59-85 | where its spans fit, a printed `prgr` reports a position if and only if the current sample is not before the start, and a duration if and only if that is between one millisecond and eight hours; three zeros report neither |
| `ProgressPayloads.OtherTokensReportNothing` | services/homepi-metadata/src/progress-parser.cpp:59-68 | any other number of tokens reports nothing |
| `Sha256Constants.RoundConstantsAreCubeRoots` | services/homepi-metadata/src/content-hash.cpp:17-28 | the 64 round constants are the first 32 bits of the fractional parts of the cube roots of the first 64 primes, as section 4.2.2 of FIPS 180-4 has it |
| `Sha256Constants.InitialAreSquareRoots` | services/homepi-metadata/src/content-hash.cpp:88-91 | the initial state likewise from the square roots of the first eight, as section 5.3.3 has it |
| `Sha256Example.AbcDigest` | services/homepi-metadata/src/content-hash.cpp:88-112 | the digest of the message `abc` is the published one |
| `Sha256Example.BlocksInTurn` | services/homepi-metadata/src/content-hash.cpp:102-104 | hashing a message of whole blocks in two parts, one after the other, is hashing it at once |
| `HifiBareNames.BareNameRoundTripIff` | services/homepi-hifi-serial/src/protocol-parser.cpp:365-475 | a printed list of names without quotes parses back to the same list, in order, if and only if every index is one of the family, every name is clean, and none holds a marker of the family |
| `HifiBareNames.OnlyUnmarkedNames` | services/homepi-hifi-serial/src/protocol-parser.cpp:423-441 | from any line without quotes only names without a marker of the family are read |
| `HifiNumbers.NumbersRoundTripIff` | services/homepi-hifi-serial/src/protocol-parser.cpp:156-197 | a reply of bare numbers, in any order, gives back the printed map if and only if no pair looks like that of a longer index and every number fits 32 bits |
| `HifiNumbers.NumbersRoundTrip` | services/homepi-hifi-serial/src/protocol-parser.cpp:156-197 | without such pairs every number comes back, wrapped to 32 bits |
| `HifiNumbers.LooksLongerIff` | services/homepi-hifi-serial/src/protocol-parser.cpp:99-114 | with sixteen zones exactly the pairs of zone 1 and a number that begins with 0 to 6 look longer, with fewer than ten none |
| `HifiGroups.GroupNamesRoundTripIff` | services/homepi-hifi-serial/src/protocol-parser.cpp:559-620 | a reply of quoted group names, in any order, gives back the printed map if and only if no name ends with the marker of a group in such a place that the scan reads on from its closing quote |
| `HifiGroups.NameSwallowed` | services/homepi-hifi-serial/src/protocol-parser.cpp:559-620 | two names, the first ending with the marker of the second, that do not come back |
| `PlaybackChanges.OutdatedPassPlaysNothing` | services/homepi-pcm-router/src/audio-bridge.cpp:503-600 | in every interleaving: once the owner or the revision differs from what the playback loop has loaded, and while it does, the pass plays nothing, and reads no ring if it has not yet |
| `PlaybackChanges.ClosedDacPlaysNothing` | services/homepi-pcm-router/src/audio-bridge.cpp:503-600 | while the DAC is closed nothing is played, whatever the threads do |
| `PlaybackChanges.NoOwnerPlaysNothing` | services/homepi-pcm-router/src/audio-bridge.cpp:503-523 | without an owner the loop stays at the top and reads no ring |
| `PlaybackChanges.PeriodIsWaitedFor` | services/homepi-pcm-router/src/audio-bridge.cpp:553-590 | a ring that is not stale is waited for, and a period that arrives then is played in the same pass |
| `PlaybackChanges.StaleIsGivenUp` | services/homepi-pcm-router/src/audio-bridge.cpp:553-563 | a stale ring without a period is given up at once when no hand-off is under way |
| `PlaybackChanges.OpenedCaptureBuffers` | services/homepi-pcm-router/src/audio-bridge.cpp:460-493 | a ring set up anew holds the newest of what is captured if its zone is told to buffer, and otherwise stays empty |
| `RacesAlone.ItemInWorld` | services/homepi-pcm-router/src/service.cpp:96-452 | in the world of overlapping handlers, a step of a handler that nobody interrupts publishes just what it is about, of the present state |
| `RacesAlone.PublishedAreEvents` | services/homepi-pcm-router/src/service.cpp:96-113 | what it publishes are the events of the service, as many and of the same content |
| `RacesAlone.ReportGoesBack` | services/homepi-pcm-router/src/service.cpp:297-302 | a run of two threads that ends at rest with an owner in the cache that is no longer the owner, for a report alone publishes the routing-changed event that it has built before its snapshot after it |

## Left out

- `OwnerEvents.CachesFollowRouter`: a request handler is one step, and so it is in `OwnerEvents.StepAgrees`; `OwnerRaces` and `OwnerTurns` interleave the handlers of different threads.
- `OwnerEvents.StepAgrees`: as `OwnerEvents.CachesFollowRouter`.
- `OwnerRaces.StaleAtRestIff`: a run begins with the start-up snapshot published, and publishing an event is one step that reaches the backend in that order.
- `OwnerTurns.MirrorIff`: the metadata service is followed where each event is read and published in one step, and not with its reads taken apart.
- `Routing.RoutingState.SetRoutingTo`: asked for an owner of at most 16; the code indexes the mask unchecked, so a larger owner has no defined behaviour to model.
- `RoutingRuns.RouterSafety`: `set_routing` is asked for no repeated zone; `RoutingRuns.SetRoutingInvIff` gives the exact condition.
- `Routing.RoutingState.OnRouteStartCommit`: the clock is read once for each round of activity questions, not once for each zone, which loses nothing because the set of live zones is arbitrary; `pending_owner_at_ms_` is written and never read, and is not a field.
- `MetadataFraming.AnyCutDispatchesItems`: as `MetadataFraming.AnyCutDispatchesOutcomes`.
- `MetadataFraming.AnyCutDispatchesOutcomes`: the gap between two items holds no `<` and stays five characters below the 8 MB limit of the buffer, above which the parser throws its buffer away.
- `MetadataStream.MetadataParser.Reset`: the picture fields are not part of this model, and the progress fields are reset by `Progress.ProgressTracker.ResetTracking`.
- `MetadataStream.ReadHex`: a sign or a `0x` in front of a number, which `sscanf` accepts as well, is not read.
- `Progress.PrgrPositionWithinDurationIff`: durations below eight hours; `Durations.PrgrLongDurationIff` has the others.
- `Progress.PhbtWithinDurationIff`: durations below eight hours, with the sample eight hours in below the threshold of wall clocks; `Durations.PhbtLongestIff` has every reported duration.
- `Progress.WallClockBounds`: asks that no clock after the first is taken for a sample before a millisecond has been counted, and that the sum fits 32 bits.
- `PlaybackPath.PlaybackControl.EnsureCaptureOpen`: mapping, opening and configuring the device are one answer.
- `PlaybackPath.PromotionOnBridge`: the DAC opens when the hand-off is applied; idle closing of captures in between is not modelled.
- `FrameRings.FrameRing.Write`: a frame is one value, not `bytes_per_frame` bytes; the size stays as the guard it is.
- `AudioBridge.DacHearsInOrder`: when the waiting loop gives up is left open, a failed ALSA write counts as heard, and silence is not recorded.
- `AudioBridge.HandoffHasPeriod`: steps that empty a ring of the pair are excluded; `AudioBridge.EmptiedPair` says what they do once a zone is picked.
- `HifiIndexed.EmitByIndex`: the printed replies that `HifiNumbers.NumbersRoundTripIff` and `HifiGroups.GroupNamesRoundTripIff` read back name only indices of the family.
- `HifiNumbers.NumbersRoundTripIff`: families of fewer than a hundred indices, as all of the controller's are.
- `HifiBareNames.BareNameRoundTripIff`: names that hold no quote; those that do are printed in quotes.
- `PlaybackPass.PassDelivers`: the pass is not interrupted and reads the same millisecond from every clock; `AudioBridge.DacHearsInOrder` has every interleaving.
- `PlaybackChanges.PeriodIsWaitedFor`: how long the loop waits is left open, as in `AudioBridge.DacHearsInOrder`.
- `MetadataUnclosed.UnclosedHeaderIff`: one item follows the header, in two chunks.
- `Announcements.MirrorHoldsEnabledZones`: a request handler is one step, as in `OwnerEvents.CachesFollowRouter`.
- `Replay.EventBroadcaster.AddSubscriber`: a response throws on all writes of one call or on none; the same holds for `Replay.EventBroadcaster.DeliverBootstrap`.
- Sockets, epoll, threads, timers, systemd, udev, ALSA, MQTT, SQLite, HTTP routes and the frontend.
- JSON text: payloads are datatypes, and the field readers are not part of this model.
- Idle closing of captures, pausing and stopping the bridge, and the lifecycle of the DAC, apart from whether it is open.
- `parse_response_line` as a dispatcher, single replies, and the commands other than the escaping in them.
- The other fields `dispatch_item` reports: titles, artwork chunks, playback state, track ids.
- Now-playing state and its normaliser, paging, repositories, configuration, supervisor and volume conversion, which would add only easy members.
- How soon a promotion or an idle close happens, and audio timing.
