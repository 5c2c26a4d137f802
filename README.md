# LibrePCB core, modelled in Dafny

This project models part of LibrePCB, an electronic design automation suite, and proves properties of that model.

**Board net segments.** The largest part is the board net segment (`BI_NetSegment`). It holds the vias, netpoints and netlines of one piece of copper routing.
- Batch additions and removals are transactions. Each completed step records a compensating action. Any failure runs the compensations backwards, and that includes the final cohesion check.
- The segment is cohesive when every netpoint can be reached from the first one. A step goes along a netline, or hops between two netpoints attached to the same via.

**Registries.** Around the segment are the registries it talks to:
- the net signal, which counts four kinds of registrants and keeps two electrical-rule-check flags;
- the footprint pad, which holds at most one netpoint per copper layer;
- the schematic, which adds and removes symbols and net segments with rollback.

**Value types.** Then come the value types and their S-expression codecs:
- `Uuid`;
- the locale key/value map;
- the footprint pad's board side and shape tokens;
- `Text`, `Attribute`, `PackagePad`, the component pin/signal map and the symbol variant item;
- the library element's loading checks, save guard and copy rules.

**Editor and import logic.** Last are four small pieces:
- the recent-projects list;
- the undo command that moves a schematic symbol;
- the Eagle symbol importer;
- the symbol editor's "add pins" tool.

**How operations are modelled.** Every operation that changes state in place is a method of a class, stated against a step function on values:
- `(r, State()) == XStep(old(State()), ...)`.

The lemmas about the step functions carry the source's promises:
- round trips;
- "a failure changes nothing";
- preserved invariants;
- first-match searches.

**Parameters and error classes.** Behaviour of code outside this model is passed in as parameters:
- a child element's `addToBoard` throwing becomes a `failing` set;
- `NetClass` registration becomes a boolean;
- the trigonometric `Point::rotated` becomes a function value;
- `AttributeType` rules, version and date parsing, and the Eagle UUID database become records of functions.

Exceptions become a `Result`/`Outcome` value. Their class is kept: `LogicError`, `RuntimeError`, or `GenericError` for the plain `Exception`.

**Lengths and angles.** They are integers, in nanometres and microdegrees. `PositiveLength` and `UnsignedLength` reject bad values with a `RuntimeError`.

**The count check.** `BI_NetSegment::areAllNetPointsConnectedTogether` compares the number of netpoints its search visits with the number of netpoints listed.
- `NetGraph.CountCheckIsCohesion` proves that this equals "every listed netpoint is reachable" whenever every netline endpoint is listed.
- `NetGraph.DanglingEndpointPassesCountCheck` shows that a netline ending at an unlisted netpoint can make the counts agree although a listed netpoint is unreachable.

**Version check on loading.** A library element is loaded only when its version file holds exactly the application version. `save`, however, writes the file format version. `LibraryElements.CopiedElementLoads` therefore assumes the two versions are equal.

## Model

| member | source | states |
|---|---|---|
| BoardNetSegments.NetPoint.constructor | libs/librepcb/project/boards/items/bi_netpoint.h:135-140 | The owning segment, UUID, layer, position, pad and via are set at construction, and no netline is registered yet |
| BoardNetSegments.NetPoint.IsAttached | libs/librepcb/project/boards/items/bi_netpoint.h:81-83 | A netpoint is attached exactly when it has a pad or a via |
| BoardNetSegments.NetPoint.IsUsed | libs/librepcb/project/boards/items/bi_netpoint.h:88-89 | A netpoint is used exactly when at least one netline is registered with it |
| BoardNetSegments.NetPoint.IsMirrored | libs/librepcb/project/boards/items/bi_netpoint.h:114 | A netpoint is never mirrored |
| BoardNetSegments.NetLine.constructor | libs/librepcb/project/boards/items/bi_netline.h:64 | A netline has a start point, an end point and a positive width from construction |
| BoardNetSegments.NetLine.Copy | libs/librepcb/project/boards/items/bi_netline.h:62 | The copy keeps the UUID and width of the original and joins the given replacement endpoints |
| BoardNetSegments.NetLine.OtherPoint | libs/librepcb/project/boards/items/bi_netline.h:73 | The other endpoint is returned exactly when the point touches the line; otherwise the result is null, and it agrees with the traversal's graph view |
| BoardNetSegments.NetLine.Position | libs/librepcb/project/boards/items/bi_netline.h:113 | The position is the centre of the endpoints whatever their order: twice each coordinate is within one unit of their sum, and a line with equal endpoints is centred on that point |
| Geometry.Centre | libs/librepcb/project/boards/items/bi_netline.h:113 | Each coordinate of the centre is half the sum of the endpoints' coordinates, rounded toward zero |
| Geometry.DivTrunc | libs/librepcb/project/boards/items/bi_netline.h:113 | Integer division truncates toward zero: the remainder is non-negative below the divisor for non-negative dividends and non-positive above its negation otherwise |
| BoardNetSegments.NetLine.SetWidth | libs/librepcb/project/boards/items/bi_netline.h:83 | The width becomes the given positive width and the selection is kept |
| BoardNetSegments.LineEnds | libs/librepcb/project/boards/items/bi_netsegment.cpp:531-532 | The graph the search walks has one edge per netline, from its start point to its end point |
| BoardNetSegments.ViaHopNeedsAttachedPoints | libs/librepcb/project/boards/items/bi_netsegment.cpp:521-538 | A via hop joins two listed netpoints that are attached to the same via |
| BoardNetSegments.AddScanOk | libs/librepcb/project/boards/items/bi_netsegment.cpp:287-331 | When a batch is accepted, each new element is not in the segment yet, belongs to it, does not fail, and has a UUID unused by that kind; the list grows by exactly the batch |
| BoardNetSegments.RemoveScanOk | libs/librepcb/project/boards/items/bi_netsegment.cpp:351-377 | When a removal batch is accepted, every element was in the list and the list loses exactly the batch, as multisets |
| BoardNetSegments.RemoveScanDetached | libs/librepcb/project/boards/items/bi_netsegment.cpp:351-377 | When a removal batch is accepted, no element of it failed to come off the board |
| BoardNetSegments.RemoveScanNoDup | libs/librepcb/project/boards/items/bi_netsegment.cpp:351-377 | On a duplicate-free list, an accepted removal leaves exactly the elements not in the batch |
| BoardNetSegments.RemoveLineStep | libs/librepcb/project/boards/items/bi_netsegment.cpp:351-359 | Removing a netline of a valid segment keeps it valid, and re-adding it on rollback gives the old state up to order |
| BoardNetSegments.RemovePointStep | libs/librepcb/project/boards/items/bi_netsegment.cpp:360-368 | Removing a netpoint of a valid segment keeps it valid, and re-adding it on rollback gives the old state up to order |
| BoardNetSegments.RemoveViaStep | libs/librepcb/project/boards/items/bi_netsegment.cpp:369-377 | Removing a via of a valid segment keeps it valid, and re-adding it on rollback gives the old state up to order |
| BoardNetSegments.UnwoundRespectsOrder | libs/librepcb/project/boards/items/bi_netsegment.cpp:350-385 | Running the same compensation log on two states that agree up to list order gives states that still agree up to order |
| BoardNetSegments.ValidUpToOrder | libs/librepcb/project/boards/items/bi_netsegment.cpp:350-385 | Reordering the lists keeps a segment valid |
| BoardNetSegments.AddElementsStep | libs/librepcb/project/boards/items/bi_netsegment.cpp:278-340 | addElements fails with a LogicError unless the segment is on the board, and any failure leaves the lists and the on-board set exactly as before |
| BoardNetSegments.RemoveElementsStep | libs/librepcb/project/boards/items/bi_netsegment.cpp:342-386 | removeElements fails with a LogicError unless the segment is on the board, and any failure leaves the state as before |
| BoardNetSegments.AddElementsScans | libs/librepcb/project/boards/items/bi_netsegment.cpp:278-340 | A successful addElements accepted all three batches, and the new state is the three appended lists with all new elements on the board |
| BoardNetSegments.AddElementsSpec | libs/librepcb/project/boards/items/bi_netsegment.cpp:278-340 | After a successful addElements each list is the old list followed by its batch, every element is on the board, the segment passes the cohesion check and stays valid |
| BoardNetSegments.AddElementsRejectsVias | libs/librepcb/project/boards/items/bi_netsegment.cpp:287-301 | Accepted vias were not in the segment, belong to it and share no UUID with an existing via |
| BoardNetSegments.AddElementsRejectsPoints | libs/librepcb/project/boards/items/bi_netsegment.cpp:302-316 | Accepted netpoints were not in the segment, belong to it and share no UUID with an existing netpoint |
| BoardNetSegments.AddElementsRejectsLines | libs/librepcb/project/boards/items/bi_netsegment.cpp:317-331 | Accepted netlines were not in the segment, belong to it and share no UUID with an existing netline |
| BoardNetSegments.RemoveElementsScans | libs/librepcb/project/boards/items/bi_netsegment.cpp:342-386 | A successful removeElements accepted all three batches, and their elements left the board |
| BoardNetSegments.RemoveElementsSpec | libs/librepcb/project/boards/items/bi_netsegment.cpp:350-377 | Only elements of the segment can be removed, and each list loses exactly its batch |
| BoardNetSegments.RemoveElementsKeepsValid | libs/librepcb/project/boards/items/bi_netsegment.cpp:379-385 | After a successful removeElements the segment is on the board, exactly its elements are attached, it passes the cohesion check and stays valid |
| BoardNetSegments.BatchLeavesCohesive | libs/librepcb/project/boards/items/bi_netsegment.cpp:333-339 | After a successful batch, every netpoint is reachable from the first one whenever all netline endpoints are listed |
| BoardNetSegments.AddToBoardStep | libs/librepcb/project/boards/items/bi_netsegment.cpp:392-416 | A failed addToBoard leaves the segment and the net signal unchanged |
| BoardNetSegments.RemoveFromBoardStep | libs/librepcb/project/boards/items/bi_netsegment.cpp:418-442 | A failed removeFromBoard leaves the segment and the net signal unchanged |
| BoardNetSegments.AddToBoardThenRemove | libs/librepcb/project/boards/items/bi_netsegment.cpp:392-442 | After a successful addToBoard the segment is added and valid, and removeFromBoard restores the segment and the signal exactly |
| BoardNetSegments.RemoveFromBoardKeepsValid | libs/librepcb/project/boards/items/bi_netsegment.cpp:418-442 | removeFromBoard keeps segment and signal valid; on success nothing is on the board |
| BoardNetSegments.SetNetSignalStep | libs/librepcb/project/boards/items/bi_netsegment.cpp:219-233 | A used segment on the board, or a signal from another circuit, is a LogicError that changes neither signal; a segment that is not on the board just switches |
| BoardNetSegments.SetNetSignalFailureRestores | libs/librepcb/project/boards/items/bi_netsegment.cpp:219-233 | When moving the registration fails, the new signal is untouched and the old signal has the same registrations as before |
| BoardNetSegments.SetNetSignalMoves | libs/librepcb/project/boards/items/bi_netsegment.cpp:219-233 | A successful switch on the board moves the segment's registration from the old signal to the new one, and both stay valid |
| BoardNetSegments.NetSegment.constructor | libs/librepcb/project/boards/items/bi_netsegment.cpp:148-151 | A new segment is empty, not on the board, valid and bound to its net signal |
| BoardNetSegments.NetSegment.IsUsed | libs/librepcb/project/boards/items/bi_netsegment.cpp:165-168 | A segment is used exactly when it has a via, netpoint or netline |
| BoardNetSegments.NetSegment.GetViaByUuid | libs/librepcb/project/boards/items/bi_netsegment.cpp:239-246 | Returns the first via with that UUID, or nothing exactly when none has it |
| BoardNetSegments.NetSegment.GetNetPointByUuid | libs/librepcb/project/boards/items/bi_netsegment.cpp:252-259 | Returns the first netpoint with that UUID, or nothing exactly when none has it |
| BoardNetSegments.NetSegment.GetNetLineByUuid | libs/librepcb/project/boards/items/bi_netsegment.cpp:265-272 | Returns the first netline with that UUID, or nothing exactly when none has it |
| BoardNetSegments.NetSegment.AreAllNetPointsConnectedTogether | libs/librepcb/project/boards/items/bi_netsegment.cpp:509-519 | The result is the count check on the segment's netpoint graph (see NetGraph.CountCheckIsCohesion) |
| BoardNetSegments.NetSegment.IsSelected | libs/librepcb/project/boards/items/bi_netsegment.cpp:484-491 | A segment is selected exactly when it has netlines and all of them are selected |
| BoardNetSegments.NetSegment.Compensate | libs/librepcb/project/boards/items/bi_netsegment.cpp:286-339 | One rollback action changes the lists and on-board set as the compensation says, and keeps the net signal |
| BoardNetSegments.NetSegment.Unwind | libs/librepcb/project/boards/items/bi_netsegment.cpp:286-339 | Running the compensation log gives the state the log describes, and the net signal is kept |
| BoardNetSegments.NetSegment.AddViaBatch | libs/librepcb/project/boards/items/bi_netsegment.cpp:287-301 | The via loop succeeds exactly when the batch is acceptable, appends the batch, and its log unwinds to the state before the call |
| BoardNetSegments.NetSegment.AddPointBatch | libs/librepcb/project/boards/items/bi_netsegment.cpp:302-316 | The netpoint loop succeeds exactly when the batch is acceptable, appends the batch, and its log unwinds to the state before the call |
| BoardNetSegments.NetSegment.AddLineBatch | libs/librepcb/project/boards/items/bi_netsegment.cpp:317-331 | The netline loop succeeds exactly when the batch is acceptable, appends the batch, and its log unwinds to the state before the call |
| BoardNetSegments.AddViaStep | libs/librepcb/project/boards/items/bi_netsegment.cpp:287-301 | Appending an accepted via keeps the segment valid, and logging its removal makes the unwound state the same as before |
| BoardNetSegments.AddPointStep | libs/librepcb/project/boards/items/bi_netsegment.cpp:302-316 | Appending an accepted netpoint keeps the segment valid, and logging its removal makes the unwound state the same as before |
| BoardNetSegments.AddLineStep | libs/librepcb/project/boards/items/bi_netsegment.cpp:317-331 | Appending an accepted netline keeps the segment valid, and logging its removal makes the unwound state the same as before |
| BoardNetSegments.NetSegment.AddElements | libs/librepcb/project/boards/items/bi_netsegment.cpp:278-340 | The outcome and new state are those of AddElementsStep, so a failure restores the state exactly, and the segment stays valid |
| BoardNetSegments.NetSegment.RemoveLineBatch | libs/librepcb/project/boards/items/bi_netsegment.cpp:351-359 | The netline loop succeeds exactly when every netline is in the segment, removes the batch, and its log unwinds up to order |
| BoardNetSegments.NetSegment.RemovePointBatch | libs/librepcb/project/boards/items/bi_netsegment.cpp:360-368 | The netpoint loop succeeds exactly when every netpoint is in the segment, removes the batch, and its log unwinds up to order |
| BoardNetSegments.NetSegment.RemoveViaBatch | libs/librepcb/project/boards/items/bi_netsegment.cpp:369-377 | The via loop succeeds exactly when every via is in the segment, removes the batch, and its log unwinds up to order |
| BoardNetSegments.NetSegment.RemoveElements | libs/librepcb/project/boards/items/bi_netsegment.cpp:342-386 | The outcome is that of RemoveElementsStep; on success the state is its result, and on failure the state is the old one up to list order |
| BoardNetSegments.NetSegment.AttachAll | libs/librepcb/project/boards/items/bi_netsegment.cpp:401-412 | Attaching a list succeeds exactly when none of its elements fails; then all are on the board, and the log undoes every attach |
| BoardNetSegments.NetSegment.DetachAll | libs/librepcb/project/boards/items/bi_netsegment.cpp:425-436 | Detaching a list succeeds exactly when none of its elements fails; then none is on the board, and the log undoes every detach |
| BoardNetSegments.NetSegment.AttachEverything | libs/librepcb/project/boards/items/bi_netsegment.cpp:401-412 | Attaching vias, netpoints and netlines succeeds exactly when none of them fails, puts all of them on the board, and the log restores the old state |
| BoardNetSegments.NetSegment.AddToBoard | libs/librepcb/project/boards/items/bi_netsegment.cpp:392-416 | Segment and net signal change as AddToBoardStep says, registering with the signal first, and both stay valid |
| BoardNetSegments.NetSegment.RemoveFromBoard | libs/librepcb/project/boards/items/bi_netsegment.cpp:418-442 | Segment and net signal change as RemoveFromBoardStep says, unregistering from the signal last, and both stay valid |
| BoardNetSegments.NetSegment.SetNetSignal | libs/librepcb/project/boards/items/bi_netsegment.cpp:219-233 | The current signal is a no-op; otherwise both signals change as SetNetSignalStep says, and the segment switches signal only on success |
| BoardNetSegments.NetSegment.LoadVias | libs/librepcb/project/boards/items/bi_netsegment.cpp:97-106 | The via loop succeeds exactly when the vias' UUIDs are distinct, and then holds all of them in file order; on a duplicate the list is cleared |
| BoardNetSegments.NetSegment.LoadNetPoints | libs/librepcb/project/boards/items/bi_netsegment.cpp:108-117 | The netpoint loop succeeds exactly when the netpoints' UUIDs are distinct, and then holds all of them in file order; on a duplicate the list is cleared |
| BoardNetSegments.NetSegment.LoadNetLines | libs/librepcb/project/boards/items/bi_netsegment.cpp:119-128 | The netline loop succeeds exactly when the netlines' UUIDs are distinct, and then holds all of them in file order; on a duplicate the list is cleared |
| BoardNetSegments.NetSegment.Load | libs/librepcb/project/boards/items/bi_netsegment.cpp:85-146 | Loading succeeds exactly when the net signal exists, the UUIDs of each kind are distinct and the count check holds; failure is a RuntimeError leaving the segment empty |
| NetGraph.OtherPoint | libs/librepcb/project/boards/items/bi_netsegment.cpp:532-533 | A line yields its other endpoint exactly for a point it touches |
| NetGraph.FindAllConnected | libs/librepcb/project/boards/items/bi_netsegment.cpp:521-538 | The depth-first search returns a duplicate-free extension of the visited list that contains every neighbour of the start point |
| NetGraph.SearchVisitsReachSet | libs/librepcb/project/boards/items/bi_netsegment.cpp:509-538 | A search begun at the first netpoint visits exactly the points reachable from it |
| NetGraph.AreAllConnected | libs/librepcb/project/boards/items/bi_netsegment.cpp:509-519 | The result is true exactly when there are at most one netpoint, or the search visits as many points as are listed |
| NetGraph.CountCheckIsCohesion | libs/librepcb/project/boards/items/bi_netsegment.cpp:509-538 | When every line endpoint is listed and no point is listed twice, the count check holds exactly when every listed point is reachable from the first |
| NetGraph.DanglingEndpointPassesCountCheck | libs/librepcb/project/boards/items/bi_netsegment.cpp:509-519 | Counterexample: a line to an unlisted point makes the count check pass although a listed point is unreachable |
| NetGraph.ChainCohesion | libs/librepcb/project/boards/items/bi_netsegment.cpp:509-538 | A chain of three points is cohesive and the same points with one line missing are not |
| Circuits.UsedIffSomeRegistrant | libs/librepcb/project/circuit/netsignal.cpp:80-93 | A signal is used exactly when one of its four registrant lists is non-empty |
| Circuits.UpdateErcMessages | libs/librepcb/project/circuit/netsignal.cpp:262-288 | Afterwards the "unused" flag is set exactly for an added, unused signal, and the "fewer than two pins" flag exactly for an added signal with fewer than two component signals; nothing else changes |
| Circuits.SetNameStep | libs/librepcb/project/circuit/netsignal.cpp:109-122 | An unchanged name and auto flag is a no-op; an empty new name is a RuntimeError that changes nothing; otherwise both fields are set and the flags updated |
| Circuits.AddToCircuitStep | libs/librepcb/project/circuit/netsignal.cpp:136-144 | addToCircuit is a LogicError when already added or used, changes nothing on failure, and otherwise sets the added flag |
| Circuits.RemoveFromCircuitStep | libs/librepcb/project/circuit/netsignal.cpp:146-159 | removeFromCircuit is a LogicError when not added and a RuntimeError when still used; both leave the signal as it was, and success clears the added flag |
| Circuits.RegisterStep | libs/librepcb/project/circuit/netsignal.cpp:161-230 | Registering succeeds exactly when the signal is added, the element is not registered and is in the same circuit; on success exactly that element is appended |
| Circuits.UnregisterStep | libs/librepcb/project/circuit/netsignal.cpp:172-239 | Unregistering succeeds exactly when the signal is added and the element is registered, and removes exactly that element |
| Circuits.WithRegistrants | libs/librepcb/project/circuit/netsignal.cpp:80-88 | Replacing one registrant list leaves the other three lists and the name, auto flag and added flag alone |
| Circuits.RegistrantsUnchangedByErc | libs/librepcb/project/circuit/netsignal.cpp:262-288 | Updating the check flags changes no registrant list and no count |
| Circuits.CountAfterUpdate | libs/librepcb/project/circuit/netsignal.cpp:80-88 | The count is the sum of the four list lengths, so replacing one list changes the count by the difference in length |
| Circuits.RegisterThenUnregister | libs/librepcb/project/circuit/netsignal.cpp:161-179 | A successful register raises the count by one, registering again fails, and unregistering restores the exact previous state |
| Circuits.UnregisterThenRegister | libs/librepcb/project/circuit/netsignal.cpp:161-179 | Unregistering a registered element and registering it again gives the same registrations up to order |
| Circuits.SetNameKeepsValid | libs/librepcb/project/circuit/netsignal.cpp:109-122 | setName keeps the name non-empty and the check flags in step |
| Circuits.AddToCircuitKeepsValid | libs/librepcb/project/circuit/netsignal.cpp:136-144 | addToCircuit keeps the check flags in step |
| Circuits.RemoveFromCircuitKeepsValid | libs/librepcb/project/circuit/netsignal.cpp:146-159 | removeFromCircuit keeps the check flags in step |
| Circuits.RegisterKeepsValid | libs/librepcb/project/circuit/netsignal.cpp:161-230 | Every register keeps the registrant lists duplicate-free and the check flags in step |
| Circuits.UnregisterKeepsValid | libs/librepcb/project/circuit/netsignal.cpp:172-239 | Every unregister keeps the registrant lists duplicate-free and the check flags in step |
| Circuits.NetSignal.constructor | libs/librepcb/project/circuit/netsignal.cpp:62-65 | The members are set: the given UUID (the random one is a parameter), name and auto flag, not added, nothing registered, no ERC message |
| Circuits.NetSignal.Create | libs/librepcb/project/circuit/netsignal.cpp:62-68 | Construction fails exactly when the name is empty, with a LogicError; otherwise the new signal is valid, has its name and auto flag, is not added and has nothing registered |
| Circuits.NetSignal.UpdateErc | libs/librepcb/project/circuit/netsignal.cpp:262-288 | The check flags become those of UpdateErcMessages |
| Circuits.NetSignal.SetName | libs/librepcb/project/circuit/netsignal.cpp:109-122 | Outcome and new state are those of SetNameStep, and the signal stays valid |
| Circuits.NetSignal.AddToCircuit | libs/librepcb/project/circuit/netsignal.cpp:136-144 | Outcome and new state are those of AddToCircuitStep, and the signal stays valid |
| Circuits.NetSignal.RemoveFromCircuit | libs/librepcb/project/circuit/netsignal.cpp:146-159 | Outcome and new state are those of RemoveFromCircuitStep, and the signal stays valid |
| Circuits.NetSignal.Register | libs/librepcb/project/circuit/netsignal.cpp:161-230 | Outcome and new state are those of RegisterStep for the given registrant kind, and the signal stays valid |
| Circuits.NetSignal.Unregister | libs/librepcb/project/circuit/netsignal.cpp:172-239 | Outcome and new state are those of UnregisterStep for the given registrant kind, and the signal stays valid |
| Circuits.NetSignal.IsNameForced | libs/librepcb/project/circuit/netsignal.cpp:95-103 | The name is forced exactly when some registered component signal forces it |
| BoardFootprintPads.OneLayerPerNetPoint | libs/librepcb/project/boards/items/bi_footprintpad.cpp:154-167 | In a valid pad, two layers hold the same netpoint only if they are the same layer |
| BoardFootprintPads.PadAddToBoardStep | libs/librepcb/project/boards/items/bi_footprintpad.cpp:130-140 | addToBoard succeeds exactly when the pad is not added and unused and the component signal accepts it; failure changes nothing |
| BoardFootprintPads.PadRemoveFromBoardStep | libs/librepcb/project/boards/items/bi_footprintpad.cpp:142-152 | removeFromBoard succeeds exactly when the pad is added and unused and the component signal accepts it; failure changes nothing |
| BoardFootprintPads.PadAddThenRemove | libs/librepcb/project/boards/items/bi_footprintpad.cpp:130-152 | removeFromBoard after a successful addToBoard restores the pad |
| BoardFootprintPads.RegisterThenUnregisterNetPoint | libs/librepcb/project/boards/items/bi_footprintpad.cpp:154-179 | Registering a netpoint on a free copper layer keeps the pad valid, and unregistering it restores the registrations |
| BoardFootprintPads.FootprintPad.constructor | libs/librepcb/project/boards/items/bi_footprintpad.cpp:54-73 | A new pad is not on the board, has no netpoints and keeps its library data, footprint mirroring and component signal |
| BoardFootprintPads.FootprintPad.IsUsed | libs/librepcb/project/boards/items/bi_footprintpad.cpp:142-147 | A pad is used exactly when a netpoint is registered on some layer |
| BoardFootprintPads.FootprintPad.LayerName | libs/librepcb/project/boards/items/bi_footprintpad.cpp:100-106 | The layer name is the mirrored library layer name exactly when the footprint is mirrored |
| BoardFootprintPads.FootprintPad.IsOnLayer | libs/librepcb/project/boards/items/bi_footprintpad.cpp:108-115 | The pad is on a layer when the library pad is on that layer, after mirroring the layer name when the footprint is mirrored |
| BoardFootprintPads.FootprintPad.OnOwnLayer | libs/librepcb/project/boards/items/bi_footprintpad.cpp:100-115 | When mirroring is an involution, the pad is on its own layer exactly when the library pad is on its library layer |
| BoardFootprintPads.FootprintPad.CompSigInstNetSignal | libs/librepcb/project/boards/items/bi_footprintpad.cpp:117-124 | Without a component signal the net signal is null, otherwise it is that signal's net signal |
| BoardFootprintPads.FootprintPad.DisplayText | libs/librepcb/project/boards/items/bi_footprintpad.cpp:90-98 | The text starts with the pad name; it is only the name without a net signal, and otherwise continues with a colon, a newline and the signal name |
| BoardFootprintPads.FootprintPad.AddToBoard | libs/librepcb/project/boards/items/bi_footprintpad.cpp:130-140 | Outcome and new state are those of PadAddToBoardStep |
| BoardFootprintPads.FootprintPad.RemoveFromBoard | libs/librepcb/project/boards/items/bi_footprintpad.cpp:142-152 | Outcome and new state are those of PadRemoveFromBoardStep |
| BoardFootprintPads.FootprintPad.RegisterNetPoint | libs/librepcb/project/boards/items/bi_footprintpad.cpp:154-167 | Succeeds exactly when all the preconditions of the source hold (pad on board with a signal, same board, free layer, same signal, copper layer the pad is on); then that layer maps to the netpoint; otherwise a LogicError changes nothing |
| BoardFootprintPads.FootprintPad.UnregisterNetPoint | libs/librepcb/project/boards/items/bi_footprintpad.cpp:169-179 | Succeeds exactly when the netpoint is the one registered for its layer, and then removes only that layer's entry; otherwise a LogicError changes nothing |
| BoardFootprintPads.FootprintPad.UpdatePosition | libs/librepcb/project/boards/items/bi_footprintpad.cpp:181-191 | The pad and every registered netpoint take the new position; only those positions change |
| Schematics.AddItemStep | libs/librepcb/project/schematics/schematic.cpp:254-270 | Adding succeeds exactly when the schematic is added, the item is not present, belongs to this schematic, has a fresh UUID and attaches; failure changes nothing |
| Schematics.RemoveItemStep | libs/librepcb/project/schematics/schematic.cpp:272-280 | Removing succeeds exactly when the schematic is added, the item is present and detaches; failure changes nothing |
| Schematics.AddItemKeepsValid | libs/librepcb/project/schematics/schematic.cpp:254-270 | Adding keeps the list valid and on success adds exactly that item, attached |
| Schematics.RemoveItemKeepsValid | libs/librepcb/project/schematics/schematic.cpp:272-280 | Removing keeps the list valid and on success removes exactly that item, detached |
| Schematics.AddThenRemoveItem | libs/librepcb/project/schematics/schematic.cpp:254-280 | Removing an item just added restores the list |
| Schematics.AddToProjectStep | libs/librepcb/project/schematics/schematic.cpp:327-346 | A failed addToProject leaves everything as it was, including the added flag |
| Schematics.RemoveFromProjectStep | libs/librepcb/project/schematics/schematic.cpp:348-366 | A failed removeFromProject leaves everything as it was |
| Schematics.ProjectStepsKeepValid | libs/librepcb/project/schematics/schematic.cpp:327-366 | Both steps keep the schematic valid, and each successful step is undone exactly by the other |
| Schematics.Schematic.constructor | libs/librepcb/project/schematics/schematic.cpp:52-55 | A new schematic holds the given UUID and name, no items, nothing attached, and is not added to the project |
| Schematics.Schematic.Create | libs/librepcb/project/schematics/schematic.cpp:507-511 | create fails exactly when the name is empty, with a LogicError (the attribute check after setting the name); otherwise the new schematic is empty, not added and valid |
| Schematics.Schematic.IsEmpty | libs/librepcb/project/schematics/schematic.cpp:147-150 | Empty exactly when it has no symbols and no net segments |
| Schematics.Schematic.BuiltInAttributeValue | libs/librepcb/project/schematics/schematic.cpp:451-460 | SHEET gives the name, PAGE the decimal text of the 1-based index, and any other key the empty text |
| Schematics.Schematic.GetSymbolByUuid | libs/librepcb/project/schematics/schematic.cpp:245-252 | Returns the first symbol with that UUID, or nothing exactly when none has it |
| Schematics.Schematic.GetNetSegmentByUuid | libs/librepcb/project/schematics/schematic.cpp:286-293 | Returns the first net segment with that UUID, or nothing exactly when none has it |
| Schematics.Schematic.AddSymbol | libs/librepcb/project/schematics/schematic.cpp:254-270 | The symbols change as AddItemStep says |
| Schematics.Schematic.RemoveSymbol | libs/librepcb/project/schematics/schematic.cpp:272-280 | The symbols change as RemoveItemStep says |
| Schematics.Schematic.AddNetSegment | libs/librepcb/project/schematics/schematic.cpp:295-311 | The net segments change as AddItemStep says |
| Schematics.Schematic.RemoveNetSegment | libs/librepcb/project/schematics/schematic.cpp:313-321 | The net segments change as RemoveItemStep says |
| Schematics.Schematic.Compensate | libs/librepcb/project/schematics/schematic.cpp:332-345 | One rollback action undoes one attach or detach |
| Schematics.Schematic.Unwind | libs/librepcb/project/schematics/schematic.cpp:332-345 | Running the log backwards gives the state the log describes |
| Schematics.Schematic.AttachSymbols | libs/librepcb/project/schematics/schematic.cpp:334-337 | Succeeds exactly when no symbol fails to attach; then all are attached; the log undoes every attach |
| Schematics.Schematic.AttachSegments | libs/librepcb/project/schematics/schematic.cpp:338-341 | Succeeds exactly when no segment fails to attach; then all are attached; the log undoes every attach |
| Schematics.Schematic.DetachSegments | libs/librepcb/project/schematics/schematic.cpp:355-358 | Succeeds exactly when no segment fails to detach; then none is attached; the log undoes every detach |
| Schematics.Schematic.DetachSymbols | libs/librepcb/project/schematics/schematic.cpp:359-362 | Succeeds exactly when no symbol fails to detach; then none is attached; the log undoes every detach |
| Schematics.Schematic.AddToProject | libs/librepcb/project/schematics/schematic.cpp:327-346 | Outcome and new state are those of AddToProjectStep, and the schematic stays valid |
| Schematics.Schematic.RemoveFromProject | libs/librepcb/project/schematics/schematic.cpp:348-366 | Outcome and new state are those of RemoveFromProjectStep, and the schematic stays valid |
| Schematics.Schematic.Load | libs/librepcb/project/schematics/schematic.cpp:85-116 | Loading succeeds exactly when the name is non-empty and symbol UUIDs and net segment UUIDs are distinct; every failure is a RuntimeError (the empty name before any item) and leaves no items; success gives a valid schematic holding the file's name and items in order |
| SchematicNetLines.NetLine.constructor | libs/librepcb/project/schematics/items/si_netline.h:58-59 | A schematic netline has a start point, an end point and an unsigned width, which may be zero |
| SchematicNetLines.NetLine.OtherPoint | libs/librepcb/project/schematics/items/si_netline.h:68 | The other endpoint is returned exactly when the point touches the line, otherwise null |
| SchematicNetLines.NetLine.Position | libs/librepcb/project/schematics/items/si_netline.h:102 | The position is the centre of the endpoints whatever their order: twice each coordinate is within one unit of their sum, and a line with equal endpoints is centred on that point |
| SchematicNetLines.NetLine.SetWidth | libs/librepcb/project/schematics/items/si_netline.h:73 | The width becomes the given unsigned width |
| KeyValueMaps.EntryOf | libs/librepcb/common/fileio/serializablekeyvaluemap.h:101-108 | One child gives the default key and its value; more give the named key and the second child's value; malformed entries are a RuntimeError |
| KeyValueMaps.Fill | libs/librepcb/common/fileio/serializablekeyvaluemap.h:100-114 | Filling only adds keys and never changes a value already present |
| KeyValueMaps.FillStep | libs/librepcb/common/fileio/serializablekeyvaluemap.h:100-114 | One loop pass: a well-formed entry with a new key is inserted and the loop goes on with the rest |
| KeyValueMaps.Loaded | libs/librepcb/common/fileio/serializablekeyvaluemap.h:98-119 | Loading succeeds exactly when no key repeats and a default entry exists; a loaded map always has the default key |
| KeyValueMaps.DuplicateKeyRejected | libs/librepcb/common/fileio/serializablekeyvaluemap.h:109-112 | Two entries with the same key make loading fail |
| KeyValueMaps.KeyInFillRejected | libs/librepcb/common/fileio/serializablekeyvaluemap.h:109-112 | An entry whose key is already loaded makes loading fail |
| KeyValueMaps.EntryNode | libs/librepcb/common/fileio/serializablekeyvaluemap.h:124-128 | A serialised entry omits the locale exactly for the default key and reads back as its key and value |
| KeyValueMaps.FillEntries | libs/librepcb/common/fileio/serializablekeyvaluemap.h:100-114 | Filling from the entries of distinct keys succeeds and gives exactly those keys with their values |
| KeyValueMaps.FillSerialized | libs/librepcb/common/fileio/serializablekeyvaluemap.h:98-130 | Filling from a map's serialised entries gives back the map |
| KeyValueMaps.LoadEntries | libs/librepcb/common/fileio/serializablekeyvaluemap.h:98-130 | Loading serialised entries gives the map when it has a default entry, and a RuntimeError otherwise |
| KeyValueMaps.KeyValueMap.constructor | libs/librepcb/common/fileio/serializablekeyvaluemap.h:50 | A new map is empty |
| KeyValueMaps.KeyValueMap.DefaultValue | libs/librepcb/common/fileio/serializablekeyvaluemap.h:62-64 | The default value is the value of the empty key, or the empty text when there is none |
| KeyValueMaps.KeyValueMap.Value | libs/librepcb/common/fileio/serializablekeyvaluemap.h:71-82 | Returns the value of the first key in the order that is present and reports that key; with none present it returns the default value and reports the empty key |
| KeyValueMaps.KeyValueMap.SetDefaultValue | libs/librepcb/common/fileio/serializablekeyvaluemap.h:86-88 | Only the default entry changes, and afterwards the default value is the given one |
| KeyValueMaps.KeyValueMap.Insert | libs/librepcb/common/fileio/serializablekeyvaluemap.h:90-92 | The key gets the value, overwriting any old one, and a lookup of that key finds it |
| KeyValueMaps.KeyValueMap.Clear | libs/librepcb/common/fileio/serializablekeyvaluemap.h:94-96 | The map becomes empty |
| KeyValueMaps.KeyValueMap.LoadFromDomElement | libs/librepcb/common/fileio/serializablekeyvaluemap.h:98-119 | Previous contents are discarded; success holds exactly when Loaded succeeds and gives its map; failure is a RuntimeError |
| KeyValueMaps.KeyValueMap.Serialize | libs/librepcb/common/fileio/serializablekeyvaluemap.h:122-130 | One entry per key in key order, without a locale exactly for the default key, each carrying that key's value |
| KeyValueMaps.KeyValueMap.LoadSerialized | libs/librepcb/common/fileio/serializablekeyvaluemap.h:98-130 | Loading the serialised map gives an equal map when it has a default entry, and fails otherwise |
| KeyValueMaps.KeyValueMap.Equals | libs/librepcb/common/fileio/serializablekeyvaluemap.h:137-139 | Two maps are equal exactly when they serialise identically |
| Uuids.SetUuid | libs/librepcb/common/uuid.h:106-114 | Accepts exactly the valid texts and keeps them; a rejected text leaves the UUID null |
| Uuids.FromString | libs/librepcb/common/uuid.h:71 | Constructing from text gives a non-null UUID exactly for a valid text, holding that text |
| Uuids.StringRoundTrip | libs/librepcb/common/uuid.h:71-100 | Rebuilding a UUID from its text gives the same UUID |
| Uuids.LessIsStrictTotalOrder | libs/librepcb/common/uuid.h:125-131 | The text order on UUIDs is irreflexive, asymmetric, transitive and total |
| Uuids.Serialize | libs/librepcb/common/uuid.h:155-158 | Writes a token, which is "null" exactly for the null UUID |
| Uuids.Deserialize | libs/librepcb/common/uuid.h:160-169 | Accepts "null" (as a token or a string, giving the NULL UUID) and valid texts only, keeps the text of a non-null result, and rejects everything else with a RuntimeError |
| Uuids.SerializeRoundTrip | libs/librepcb/common/uuid.h:155-169 | Every UUID, the null one included, reads back after being written |
| Uuids.DeserializeRejectsInvalid | libs/librepcb/common/uuid.h:164-167 | A string or token that is neither valid nor "null" is a RuntimeError |
| Uuids.FindByUuid | libs/librepcb/project/schematics/schematic.cpp:245-252 | Returns the first element with that UUID, or nothing exactly when none has it |
| Uuids.DistinctUuidsNoDup | libs/librepcb/project/schematics/schematic.cpp:91-110 | A list with distinct UUIDs has no element twice, and a UUID identifies its element |
| FootprintPads.BoardSideToken | libs/librepcb/library/pkg/footprintpad.h:137-146 | A board side serialises to one of "top", "bottom", "tht" |
| FootprintPads.SerializeBoardSide | libs/librepcb/library/pkg/footprintpad.h:137-146 | TOP, BOTTOM and THT serialise to "top", "bottom" and "tht" respectively |
| FootprintPads.DeserializeBoardSide | libs/librepcb/library/pkg/footprintpad.h:147-154 | Exactly the three tokens are accepted; any other input is a RuntimeError |
| FootprintPads.BoardSideRoundTrip | libs/librepcb/library/pkg/footprintpad.h:137-154 | Every board side reads back after being written |
| FootprintPads.BoardSideTokenRoundTrip | libs/librepcb/library/pkg/footprintpad.h:137-154 | An accepted token is written back as the same token |
| FootprintPads.ShapeToken | libs/librepcb/library/pkg/footprintpad.h:156-165 | A shape serialises to one of "round", "rect", "octagon" |
| FootprintPads.SerializeShape | libs/librepcb/library/pkg/footprintpad.h:156-165 | ROUND, RECT and OCTAGON serialise to "round", "rect" and "octagon" respectively |
| FootprintPads.DeserializeShape | libs/librepcb/library/pkg/footprintpad.h:166-173 | Exactly the three tokens are accepted; any other input is a RuntimeError |
| FootprintPads.ShapeRoundTrip | libs/librepcb/library/pkg/footprintpad.h:156-173 | Every shape reads back after being written |
| FootprintPads.ShapeTokenRoundTrip | libs/librepcb/library/pkg/footprintpad.h:156-173 | An accepted token is written back as the same token |
| FootprintPads.PadUuid | libs/librepcb/library/pkg/footprintpad.h:71-72 | A footprint pad's UUID is its package pad's UUID |
| FootprintPads.OnePadPerPackagePad | libs/librepcb/library/pkg/footprintpad.h:71 | In a pad list keyed by UUID, no two footprint pads refer to the same package pad |
| FootprintPads.Differs | libs/librepcb/library/pkg/footprintpad.h:105 | `!=` is the negation of `==` |
| Texts.Equal | libs/librepcb/common/geometry/text.cpp:181-191 | Two texts are equal exactly when all seven fields, the UUID included, are equal |
| Texts.Apply | libs/librepcb/common/geometry/text.cpp:96-148 | A setter never changes the UUID |
| Texts.Changes | libs/librepcb/common/geometry/text.cpp:96-148 | A setter has an effect exactly when the new value differs from the current one |
| Texts.SetTwiceNotifiesOnce | libs/librepcb/common/geometry/text.cpp:96-148 | Setting the same value twice changes the text once and notifies nothing the second time |
| Texts.SerializeText | libs/librepcb/common/geometry/text.cpp:164-175 | Serialising succeeds exactly for a valid text, else a LogicError; the output starts with the UUID and carries layer and value |
| Texts.LoadText | libs/librepcb/common/geometry/text.cpp:59-86 | A loaded text is valid; a height of zero or less is a RuntimeError; the other fields come from their nodes, and a missing UUID gives a fresh one with the first child as the text |
| Texts.LoadSerializedText | libs/librepcb/common/geometry/text.cpp:59-175 | A valid text with a UUID and a layer reads back equal after being written |
| Texts.TextObserver.constructor | libs/librepcb/common/geometry/text.cpp:154-157 | A new observer has received nothing |
| Texts.Text.constructor | libs/librepcb/common/geometry/text.cpp:52-57 | The new text holds the given fields and has no observers |
| Texts.Text.Copy | libs/librepcb/common/geometry/text.cpp:35-44 | The copy has the same fields as the original |
| Texts.Text.CopyWithUuid | libs/librepcb/common/geometry/text.cpp:46-50 | The copy differs from the original only in the UUID |
| Texts.Text.Assign | libs/librepcb/common/geometry/text.cpp:193-203 | After assignment the text equals the right-hand side |
| Texts.Text.RegisterObserver | libs/librepcb/common/geometry/text.cpp:154-157 | Registration inserts into the observer set, so registering twice adds nothing |
| Texts.Text.UnregisterObserver | libs/librepcb/common/geometry/text.cpp:159-162 | Unregistration removes from the observer set |
| Texts.Text.Notify | libs/librepcb/common/geometry/text.cpp:96-103 | Every registered observer receives the change exactly once |
| Texts.Text.SetLayerName | libs/librepcb/common/geometry/text.cpp:96-103 | The layer name is set; observers are notified exactly when it changed, and untouched otherwise |
| Texts.Text.SetText | libs/librepcb/common/geometry/text.cpp:105-112 | The text is set; observers are notified exactly when it changed, and untouched otherwise |
| Texts.Text.SetPosition | libs/librepcb/common/geometry/text.cpp:114-121 | The position is set; observers are notified exactly when it changed, and untouched otherwise |
| Texts.Text.SetRotation | libs/librepcb/common/geometry/text.cpp:123-130 | The rotation is set; observers are notified exactly when it changed, and untouched otherwise |
| Texts.Text.SetHeight | libs/librepcb/common/geometry/text.cpp:132-139 | The height is set; observers are notified exactly when it changed, and untouched otherwise |
| Texts.Text.SetAlign | libs/librepcb/common/geometry/text.cpp:141-148 | The alignment is set; observers are notified exactly when it changed, and untouched otherwise |
| Attributes.ValidKeyNotBlank | libs/librepcb/common/attributes/attribute.cpp:136-142 | With an allowed unit and a valid value, an attribute is valid exactly when its key is not blank |
| Attributes.Equal | libs/librepcb/common/attributes/attribute.cpp:123-130 | Equal exactly when key, type, value and unit are equal |
| Attributes.UnitText | libs/librepcb/common/attributes/attribute.cpp:111-115 | No unit is written as "none", a unit as its name |
| Attributes.SerializeAttr | libs/librepcb/common/attributes/attribute.cpp:106-117 | Succeeds exactly for a valid attribute, else a LogicError; writes key, type, unit and value |
| Attributes.AttrNodes | libs/librepcb/common/attributes/attribute.cpp:108-116 | The nodes carry the key first, then type, unit (or "none") and value |
| Attributes.LoadAttr | libs/librepcb/common/attributes/attribute.cpp:42-55 | A loaded attribute is valid and its fields come from their nodes; an invalid one read from well-formed nodes is a LogicError |
| Attributes.LoadedFields | libs/librepcb/common/attributes/attribute.cpp:42-50 | Missing or malformed fields are a RuntimeError |
| Attributes.LoadSerializedAttr | libs/librepcb/common/attributes/attribute.cpp:42-117 | A valid attribute of a known type reads back equal after being written |
| Attributes.Attribute.FromData | libs/librepcb/common/attributes/attribute.cpp:57-62 | Constructing a valid attribute keeps its fields |
| Attributes.Attribute.Create | libs/librepcb/common/attributes/attribute.cpp:57-62 | Construction succeeds exactly for a valid attribute, else a LogicError |
| Attributes.Attribute.Copy | libs/librepcb/common/attributes/attribute.cpp:37-40 | The copy has the same fields |
| Attributes.Attribute.SetKey | libs/librepcb/common/attributes/attribute.cpp:81-88 | A blank key is a RuntimeError that changes nothing; any other key is stored, and validity is kept |
| Attributes.Attribute.SetTypeValueUnit | libs/librepcb/common/attributes/attribute.cpp:90-100 | Succeeds exactly when the type allows the unit and the value is valid, setting all three; otherwise a LogicError changes nothing |
| PackagePads.Equal | libs/librepcb/library/pkg/packagepad.cpp:82-87 | Equal exactly when UUID and name are equal |
| PackagePads.SerializePackagePad | libs/librepcb/library/pkg/packagepad.cpp:70-76 | Succeeds exactly for a pad with a non-empty name, else a LogicError; writes the UUID and the name |
| PackagePads.LoadPackagePad | libs/librepcb/library/pkg/packagepad.cpp:46-51 | Loading succeeds exactly with a valid UUID and a non-empty name, else a RuntimeError; a loaded pad is valid |
| PackagePads.LoadSerializedPackagePad | libs/librepcb/library/pkg/packagepad.cpp:46-76 | A valid pad reads back equal after being written |
| PackagePads.PackagePad.constructor | libs/librepcb/library/pkg/packagepad.cpp:41-44 | The pad holds the given UUID and name |
| PackagePads.PackagePad.Copy | libs/librepcb/library/pkg/packagepad.cpp:36-39 | The copy equals the original |
| PackagePads.PackagePad.SetName | libs/librepcb/library/pkg/packagepad.cpp:61-64 | Any name is accepted, the empty one included, which makes the pad invalid |
| PackagePads.PackagePad.Assign | libs/librepcb/library/pkg/packagepad.cpp:89-94 | After assignment the pad equals the right-hand side |
| PinSignalMaps.Equal | libs/librepcb/library/cmp/componentpinsignalmap.cpp:75-81 | Equal exactly when pin UUID, optional signal UUID and display type are equal |
| PinSignalMaps.SerializeOptionalUuid | libs/librepcb/library/cmp/componentpinsignalmap.cpp:66-67 | An absent signal is written as "none" |
| PinSignalMaps.DeserializeOptionalUuid | libs/librepcb/library/cmp/componentpinsignalmap.cpp:51 | "none" reads as an absent signal; bad input is a RuntimeError |
| PinSignalMaps.OptionalUuidRoundTrip | libs/librepcb/library/cmp/componentpinsignalmap.cpp:49-69 | Present and absent signal UUIDs read back after being written |
| PinSignalMaps.SerializeMapItem | libs/librepcb/library/cmp/componentpinsignalmap.cpp:64-69 | Writes the pin UUID, then "sig", then "disp" |
| PinSignalMaps.LoadMapItem | libs/librepcb/library/cmp/componentpinsignalmap.cpp:49-54 | A loaded item's pin UUID and known display type come from their nodes; failures are RuntimeErrors |
| PinSignalMaps.LoadSerializedMapItem | libs/librepcb/library/cmp/componentpinsignalmap.cpp:49-69 | An item with a known display type reads back equal after being written |
| PinSignalMaps.InsertByPin | libs/librepcb/library/cmp/componentsymbolvariantitem.cpp:79-83 | Inserting adds exactly that item and nothing else |
| PinSignalMaps.InsertByPinOrdered | libs/librepcb/library/cmp/componentsymbolvariantitem.cpp:79-83 | Inserting into a list sorted by pin UUID keeps it sorted |
| PinSignalMaps.SortedByUuid | libs/librepcb/library/cmp/componentsymbolvariantitem.cpp:79-83 | The result is sorted by pin UUID and is a permutation of the input |
| SymbolVariantItems.Equal | libs/librepcb/library/cmp/componentsymbolvariantitem.cpp:90-98 | Equal exactly when everything but position and rotation is equal |
| SymbolVariantItems.EqualIgnoresPlacement | libs/librepcb/library/cmp/componentsymbolvariantitem.cpp:90-98 | Moving or rotating the symbol keeps the item equal, and equality is reflexive, symmetric and transitive |
| SymbolVariantItems.PinNodes | libs/librepcb/library/cmp/componentsymbolvariantitem.cpp:79-83 | One pin node per map item, in order |
| SymbolVariantItems.ItemHead | libs/librepcb/library/cmp/componentsymbolvariantitem.cpp:75-78 | The scalar part: UUID, symbol UUID, placement, required flag, suffix |
| SymbolVariantItems.SerializeItem | libs/librepcb/library/cmp/componentsymbolvariantitem.cpp:75-84 | The scalar fields come first, then the pin/signal map sorted by pin UUID |
| LibraryElements.PathTo | libs/librepcb/library/librarybaseelement.cpp:186 | A child path has the given file name and lies strictly inside the parent |
| LibraryElements.ElementNodes | libs/librepcb/library/librarybaseelement.cpp:250-265 | The element's document starts with its UUID |
| LibraryElements.SerializeElement | libs/librepcb/library/librarybaseelement.cpp:250-265 | Succeeds exactly for a valid element, else a LogicError; the document starts with the UUID |
| LibraryElements.LoadUuid | libs/librepcb/library/librarybaseelement.cpp:104-109 | The UUID is read from the first child when that is a leaf; failures are RuntimeErrors |
| LibraryElements.LoadAttributes | libs/librepcb/library/librarybaseelement.cpp:110-113 | Version, author, creation date and deprecated flag come from their nodes, and version and date must parse |
| SExpressions.DeserializeBool | libs/librepcb/library/librarybaseelement.cpp:113 | Exactly the leaf tokens "true" and "false" are accepted, as the value they name; anything else is a RuntimeError |
| LibraryElements.LoadMaps | libs/librepcb/library/librarybaseelement.cpp:116-118 | Names, descriptions and keywords load as three key/value maps, and all three must load |
| LibraryElements.LoadElementData | libs/librepcb/library/librarybaseelement.cpp:103-118 | The element loads exactly when UUID, attributes and maps load, and consists of their values |
| LibraryElements.LoadElement | libs/librepcb/library/librarybaseelement.cpp:61-127 | Loading fails on a missing marker file, on a directory name that is not a UUID when one is required, on a file version other than the application version, and on a UUID that differs from the directory name |
| LibraryElements.WithElementFiles | libs/librepcb/library/librarybaseelement.cpp:165-175 | Saving writes the main file and the marker file and removes nothing |
| LibraryElements.SaveStep | libs/librepcb/library/librarybaseelement.cpp:157-176 | An element opened read-only cannot be saved (RuntimeError), an invalid one is a LogicError, and a failure writes nothing |
| LibraryElements.CopyStep | libs/librepcb/library/librarybaseelement.cpp:211-248 | The element either stays where it was or moves to the destination as neither temporary nor read-only, and a successful copy leaves it in the destination |
| LibraryElements.Removed | libs/librepcb/library/librarybaseelement.cpp:241-243 | Removing a directory removes exactly the files under it |
| LibraryElements.CopyStepProperties | libs/librepcb/library/librarybaseelement.cpp:211-248 | Copying to the current directory only saves; a wrong directory name or an existing destination is a RuntimeError that changes nothing; otherwise the element moves to the destination, neither temporary nor read-only, and a removed source leaves nothing under it |
| LibraryElements.LoadedEntries | libs/librepcb/library/librarybaseelement.cpp:116-118 | A serialised locale map loads back when it has a default entry |
| LibraryElements.LoadSerializedElement | libs/librepcb/library/librarybaseelement.cpp:103-118 | A valid element reads back after being written, exactly when it has default description and keywords |
| LibraryElements.LoadElementDataOf | libs/librepcb/library/librarybaseelement.cpp:103-118 | Any document with the element's serialised nodes loads as that element |
| LibraryElements.CopiedElementLoads | libs/librepcb/library/librarybaseelement.cpp:211-248 | After a successful copy, loading the destination gives the same element |
| LibraryElements.LoadWrittenElement | libs/librepcb/library/librarybaseelement.cpp:61-127 | A directory holding the element's marker and main file loads as that element |
| LibraryElements.IntoParentDirectory | libs/librepcb/library/librarybaseelement.cpp:184-188 | Copying into a parent directory under the UUID name succeeds exactly for a valid element, when that directory is new |
| LibraryElements.FileSystem.CopyDirectory | libs/librepcb/library/librarybaseelement.cpp:229 | The destination directory exists afterwards |
| LibraryElements.FileSystem.RemoveDirectory | libs/librepcb/library/librarybaseelement.cpp:242 | Everything under the directory is gone afterwards, and nothing else |
| LibraryElements.LibraryBaseElement.FromData | libs/librepcb/library/librarybaseelement.cpp:61-68 | The loading constructor's members: the element holds the given data in the given directory, which is not temporary, read-only exactly as asked |
| LibraryElements.LibraryBaseElement.Create | libs/librepcb/library/librarybaseelement.cpp:41-59 | A new element lives in a temporary, writable directory that now exists, is not deprecated and has only default-locale name, description and keywords; failing to create the directory is a RuntimeError that leaves the disk as it was |
| LibraryElements.FileSystem.MakePath | libs/librepcb/library/librarybaseelement.cpp:53 | The directory exists afterwards and nothing else changes |
| LibraryElements.LibraryBaseElement.Open | libs/librepcb/library/librarybaseelement.cpp:61-127 | Opening succeeds exactly when LoadElement does, holds the loaded data and records the directory and read-only mode |
| LibraryElements.LibraryBaseElement.AllAvailableLocales | libs/librepcb/library/librarybaseelement.cpp:142-151 | The sorted, duplicate-free union of the locales of names, descriptions and keywords |
| LibraryElements.LibraryBaseElement.CheckAttributesValidity | libs/librepcb/library/librarybaseelement.cpp:267-272 | Valid exactly when serialising succeeds, which needs a non-empty default name |
| LibraryElements.LibraryBaseElement.Save | libs/librepcb/library/librarybaseelement.cpp:157-176 | The file system changes as SaveStep says |
| LibraryElements.LibraryBaseElement.CopyTo | libs/librepcb/library/librarybaseelement.cpp:211-248 | Outcome, location and file system are those of CopyStep |
| LibraryElements.LibraryBaseElement.CopyElsewhere | libs/librepcb/library/librarybaseelement.cpp:228-243 | The copy to a new directory behaves as CopyStep says |
| LibraryElements.LibraryBaseElement.SaveTo | libs/librepcb/library/librarybaseelement.cpp:178-182 | A copy that removes the source exactly when the directory was temporary |
| LibraryElements.LibraryBaseElement.MoveTo | libs/librepcb/library/librarybaseelement.cpp:190-194 | A copy that removes the source |
| LibraryElements.LibraryBaseElement.SaveIntoParentDirectory | libs/librepcb/library/librarybaseelement.cpp:184-188 | saveTo into the parent's child named by the UUID |
| LibraryElements.LibraryBaseElement.MoveIntoParentDirectory | libs/librepcb/library/librarybaseelement.cpp:196-200 | moveTo into the parent's child named by the UUID |
| RecentProjects.FirstIndex | libs/librepcb/workspace/recentprojectsmodel.cpp:92 | The index of the first entry equal to the path |
| RecentProjects.FirstIndexIsFirst | libs/librepcb/workspace/recentprojectsmodel.cpp:92 | An occurrence with no earlier one is the first index |
| RecentProjects.KeptCount | libs/librepcb/workspace/recentprojectsmodel.cpp:105-112 | The trimming loop keeps fewer than five entries, and keeps all of a shorter list |
| Seqs.CutAtFirst | libs/librepcb/workspace/recentprojectsmodel.cpp:96-101 | Cutting out the first occurrence is removing one occurrence |
| RecentProjects.PathComesFirst | libs/librepcb/workspace/recentprojectsmodel.cpp:87-118 | The path is always first afterwards, and a path already first leaves the list unchanged |
| RecentProjects.MovedToFront | libs/librepcb/workspace/recentprojectsmodel.cpp:96-101 | A known path moves to the front; the others keep their order; length and contents are kept |
| RecentProjects.NewPathPrepended | libs/librepcb/workspace/recentprojectsmodel.cpp:105-117 | A new path is prepended after the oldest entries are dropped until fewer than five remain |
| RecentProjects.NothingInvented | libs/librepcb/workspace/recentprojectsmodel.cpp:87-118 | Every entry afterwards is the path or was there before |
| RecentProjects.StaysBoundedAndDistinct | libs/librepcb/workspace/recentprojectsmodel.cpp:87-118 | At most five distinct paths stay at most five distinct paths |
| RecentProjects.MadeRecentIdempotent | libs/librepcb/workspace/recentprojectsmodel.cpp:87-118 | Making a path recent twice is the same as once |
| RecentProjects.RecentProjectsModel.constructor | libs/librepcb/workspace/recentprojectsmodel.cpp:40-62 | The list starts as loaded, and that is also what is saved |
| RecentProjects.RecentProjectsModel.Save | libs/librepcb/workspace/recentprojectsmodel.cpp:100 | The saved list is the current list |
| RecentProjects.RecentProjectsModel.SetLastRecentProject | libs/librepcb/workspace/recentprojectsmodel.cpp:87-118 | The list becomes MadeRecent of the old list, and it is saved unless the path was already first |
| RecentProjects.RecentProjectsModel.RowCount | libs/librepcb/workspace/recentprojectsmodel.cpp:124-130 | The list length for the root index and zero below it |
| SymbolMoves.Moved | src/project/schematics/cmd/cmdsymbolinstancemove.cpp:82-90 | The moved pose is offset from the start by exactly the deltas |
| SymbolMoves.SetAbsoluteStep | src/project/schematics/cmd/cmdsymbolinstancemove.cpp:55-60 | The symbol goes to the given position, the delta becomes its offset from the start position, and the angle, the end pose and the flag stay |
| SymbolMoves.SetDeltaStep | src/project/schematics/cmd/cmdsymbolinstancemove.cpp:62-67 | The delta becomes the given one and the symbol sits at the start position plus that delta; the angle, the end pose and the flag stay |
| SymbolMoves.RotateStep | src/project/schematics/cmd/cmdsymbolinstancemove.cpp:69-76 | The symbol's position is the old start-plus-delta position rotated about the centre, the delta follows it, and the angle is the start angle plus every rotation so far |
| SymbolMoves.RedoStep | src/project/schematics/cmd/cmdsymbolinstancemove.cpp:82-90 | The flag is set even when the base redo fails, which changes nothing else; on success the end pose is start plus delta and the symbol takes it |
| SymbolMoves.UndoStep | src/project/schematics/cmd/cmdsymbolinstancemove.cpp:92-98 | The flag is set even when the base undo fails, which changes nothing else; on success the symbol is back at the start pose and nothing else changes |
| SymbolMoves.DestroyedAsWritten | src/project/schematics/cmd/cmdsymbolinstancemove.cpp:42-49 | As written: the start pose comes back only when neither redo nor undo ran and the position delta is non-zero; a zero position delta keeps the current pose |
| SymbolMoves.Destroyed | src/project/schematics/cmd/cmdsymbolinstancemove.cpp:42-49 | Corrected: any uncommitted edit that moved or turned the symbol is reverted to the start pose; after redo or undo the symbol keeps its pose |
| SymbolMoves.CreatedTracks | src/project/schematics/cmd/cmdsymbolinstancemove.cpp:34-40 | A new command starts from the symbol's pose with zero deltas |
| SymbolMoves.TemporaryMovesTrack | src/project/schematics/cmd/cmdsymbolinstancemove.cpp:55-67 | Both temporary moves keep the symbol at start plus delta; an absolute move is a delta move by the offset from the start and puts the symbol at that position |
| SymbolMoves.RotateTracks | src/project/schematics/cmd/cmdsymbolinstancemove.cpp:69-76 | rotate keeps the symbol at start plus delta, turns its position about the centre and adds the angle to its angle |
| SymbolMoves.RedoUndoPoses | src/project/schematics/cmd/cmdsymbolinstancemove.cpp:82-98 | redo puts the symbol at the end pose, which is where the temporary moves left it; undo puts it at the start pose |
| SymbolMoves.UndoRedoCycle | src/project/schematics/cmd/cmdsymbolinstancemove.cpp:82-98 | undo after redo gives the start pose, and redo after undo the end pose |
| SymbolMoves.DestroyedRestores | src/project/schematics/cmd/cmdsymbolinstancemove.cpp:42-49 | The corrected destructor restores the start pose for every uncommitted edit and leaves the symbol alone after redo or undo |
| SymbolMoves.RotationOnlyEditKept | src/project/schematics/cmd/cmdsymbolinstancemove.cpp:42-49 | Counterexample: the destructor as written leaves a rotation-only edit in place |
| SymbolMoves.SymbolInstance.constructor | src/project/schematics/cmd/cmdsymbolinstancemove.cpp:34-40 | The symbol has the given pose |
| SymbolMoves.SymbolInstance.SetPosition | src/project/schematics/cmd/cmdsymbolinstancemove.cpp:59 | Only the position changes |
| SymbolMoves.SymbolInstance.SetAngle | src/project/schematics/cmd/cmdsymbolinstancemove.cpp:75 | Only the angle changes |
| SymbolMoves.CmdSymbolInstanceMove.constructor | src/project/schematics/cmd/cmdsymbolinstancemove.cpp:34-40 | The start pose is the symbol's pose at construction, the deltas are zero and the end pose is the start pose |
| SymbolMoves.CmdSymbolInstanceMove.SetAbsolutePosTemporary | src/project/schematics/cmd/cmdsymbolinstancemove.cpp:55-60 | The state changes as SetAbsoluteStep says |
| SymbolMoves.CmdSymbolInstanceMove.SetDeltaToStartPosTemporary | src/project/schematics/cmd/cmdsymbolinstancemove.cpp:62-67 | The state changes as SetDeltaStep says |
| SymbolMoves.CmdSymbolInstanceMove.Rotate | src/project/schematics/cmd/cmdsymbolinstancemove.cpp:69-76 | The state changes as RotateStep says |
| SymbolMoves.CmdSymbolInstanceMove.Redo | src/project/schematics/cmd/cmdsymbolinstancemove.cpp:82-90 | Outcome and state are those of RedoStep |
| SymbolMoves.CmdSymbolInstanceMove.Undo | src/project/schematics/cmd/cmdsymbolinstancemove.cpp:92-98 | Outcome and state are those of UndoStep |
| SymbolMoves.CmdSymbolInstanceMove.Destroy | src/project/schematics/cmd/cmdsymbolinstancemove.cpp:42-49 | The symbol ends at the pose of the corrected destructor |
| EagleImport.ConvertSchematicLayer | libs/librepcb/eagleimport/symbolconverter.cpp:155-165 | Exactly the layers 93, 94, 95, 96 and 99 are accepted; any other id throws |
| EagleImport.EagleLayerId | libs/librepcb/eagleimport/symbolconverter.cpp:157-162 | Every converted layer comes from an id between 93 and 99 |
| EagleImport.LayerRoundTrip | libs/librepcb/eagleimport/symbolconverter.cpp:155-165 | Each layer is the image of exactly one Eagle id |
| EagleImport.PlaceholderText | libs/librepcb/eagleimport/symbolconverter.cpp:112-115 | A text starting with ">" becomes "{{" + rest + "}}"; any other text is kept |
| EagleImport.NamePlaceholderSources | libs/librepcb/eagleimport/symbolconverter.cpp:112-118 | Exactly ">NAME" and "{{NAME}}" become the name placeholder |
| EagleImport.ValuePlaceholderSources | libs/librepcb/eagleimport/symbolconverter.cpp:112-121 | Exactly ">VALUE" and "{{VALUE}}" become the value placeholder |
| EagleImport.Unsigned | libs/librepcb/eagleimport/symbolconverter.cpp:63 | A negative length is a RuntimeError; others are kept |
| EagleImport.Positive | libs/librepcb/eagleimport/symbolconverter.cpp:84 | A length of zero or less is a RuntimeError; others are kept |
| EagleImport.ConvertWire | libs/librepcb/eagleimport/symbolconverter.cpp:59-69 | A wire becomes an unfilled grab-area line with its width, on its layer |
| EagleImport.ConvertRectangle | libs/librepcb/eagleimport/symbolconverter.cpp:71-80 | A rectangle becomes a filled grab-area rectangle of zero line width |
| EagleImport.ConvertCircle | libs/librepcb/eagleimport/symbolconverter.cpp:82-91 | A circle has twice the radius as positive diameter and is filled exactly when its line width is zero |
| EagleImport.ConvertPolygon | libs/librepcb/eagleimport/symbolconverter.cpp:93-108 | A polygon becomes an unfilled grab-area closed outline with its vertices |
| EagleImport.ConvertText | libs/librepcb/eagleimport/symbolconverter.cpp:110-127 | A text gets its placeholder rewrite, a positive height by the height rules, its position and rotation, on its layer |
| EagleImport.TextHeight | libs/librepcb/eagleimport/symbolconverter.cpp:116-121 | The height is one of the two placeholder heights or twice the Eagle size, and is positive whenever the size is |
| EagleImport.TextHeights | libs/librepcb/eagleimport/symbolconverter.cpp:116-121 | The name placeholder gets 3.175 mm, the value placeholder 2.5 mm, and any other text twice the Eagle size |
| EagleImport.ConvertPin | libs/librepcb/eagleimport/symbolconverter.cpp:129-136 | A pin's UUID is looked up from the symbol UUID and pin name; a negative length is rejected |
| EagleImport.ConvertEach | libs/librepcb/eagleimport/symbolconverter.cpp:59-136 | A list converts exactly when every element does, element by element; otherwise the error is that of the first failing element |
| EagleImport.ConvertEachSnoc | libs/librepcb/eagleimport/symbolconverter.cpp:59-136 | Converting one more element extends the result or stops with its error |
| EagleImport.FirstFailureStops | libs/librepcb/eagleimport/symbolconverter.cpp:59-136 | The first failing element decides the error of the whole list |
| EagleImport.ConvertedProperties | libs/librepcb/eagleimport/symbolconverter.cpp:53-139 | A converted symbol has the looked-up UUID, one output per input, the fill rules for wires, rectangles, circles and polygons, and conversion succeeds exactly when every element converts |
| EagleImport.Symbol.constructor | libs/librepcb/eagleimport/symbolconverter.cpp:55-57 | The new symbol has its UUID and name and no content |
| EagleImport.AppendEach | libs/librepcb/eagleimport/symbolconverter.cpp:59-136 | The loop appends the converted elements to the list it is given, or stops with the first error |
| EagleImport.ConvertAll | libs/librepcb/eagleimport/symbolconverter.cpp:59-137 | The six element loops give exactly the converted symbol contents, or the error of the first element that fails, lists taken in source order |
| EagleImport.Generate | libs/librepcb/eagleimport/symbolconverter.cpp:53-139 | generate succeeds exactly when the conversion does and produces exactly the converted symbol |
| SymbolEditorAddPins.PinNames | libs/librepcb/libraryeditor/sym/fsm/symboleditorstate_addpins.cpp:205-208 | The names of the symbol's pins |
| SymbolEditorAddPins.NextPinNameUnique | libs/librepcb/libraryeditor/sym/fsm/symboleditorstate_addpins.cpp:198-203 | The least free pin number is unique |
| SymbolEditorAddPins.NextNameKeepsNamesDistinct | libs/librepcb/libraryeditor/sym/fsm/symboleditorstate_addpins.cpp:159-168 | Adding a pin with the next name keeps the pin names distinct |
| SymbolEditorAddPins.Names | libs/librepcb/libraryeditor/sym/fsm/symboleditorstate_addpins.cpp:205-208 | The pin names in list order |
| SymbolEditorAddPins.AddPinsState.constructor | libs/librepcb/libraryeditor/sym/fsm/symboleditorstate_addpins.cpp:45-49 | No pin is being placed, and the length starts at 2.54 mm |
| SymbolEditorAddPins.AddPinsState.HasPin | libs/librepcb/libraryeditor/sym/fsm/symboleditorstate_addpins.cpp:205-208 | A name is taken exactly when some pin has it |
| SymbolEditorAddPins.AddPinsState.DetermineNextPinName | libs/librepcb/libraryeditor/sym/fsm/symboleditorstate_addpins.cpp:198-203 | The decimal text of the least positive number that is not a pin name, hence never an existing name |
| SymbolEditorAddPins.AddPinsState.AddNextPin | libs/librepcb/libraryeditor/sym/fsm/symboleditorstate_addpins.cpp:159-181 | A pin with the next name, the last length and the given pose is appended and becomes the pin being placed |
| SymbolEditorAddPins.AddPinsState.NameEdited | libs/librepcb/libraryeditor/sym/fsm/symboleditorstate_addpins.cpp:183-188 | A blank text, or no pin being placed, changes nothing; otherwise the pin takes the trimmed text |
| SymbolEditorAddPins.AddPinsState.LeftMouseButtonPressed | libs/librepcb/libraryeditor/sym/fsm/symboleditorstate_addpins.cpp:125-141 | The placed pin takes the cursor position, and the next pin starts there with the placed pin's rotation and the next free name |

## Left out

- Spatial queries and rendering: `get*AtScenePos`, `setSelectionRect`, `clearSelection`, grab areas and graphics items. These are geometry and painting over floating point.
- `BI_NetSegment` copy constructor (bi_netsegment.cpp:48-83): netline remapping is modelled by `NetLine.Copy`, but the copying of whole segments is not.
- Serialisation of `BI_NetSegment` and `NetSignal`, `NetSignal::setHighlighted`, and `checkAttributesValidity` of the segment: output formatting and a display flag with no logic to verify.
- Child elements' own `addToBoard`/`removeFromBoard` and NetClass registration: foreign code, modelled as a set of failing elements or a boolean.
- `BI_NetPoint::setLayer`, `setPadToAttach` and `setViaToAttach` (bi_netpoint.h:94-96) are not modelled: a netpoint's layer and attachment never change after construction, so the via hops of the cohesion check see the attachment given at creation.
- Netpoint/netline registration with each other (`registerNetLine`) and air-wire scheduling: not part of this model's files.
- Point rotation is a function parameter, because the trigonometry is floating point. Angle addition is integer addition, and angle normalisation is not part of this model.
- Lengths, coordinates and angles are integers. The millimetre and degree doubles of the Eagle importer and the editor are taken as already converted.
- Random UUIDs (`Uuid::createRandom`) of new elements and texts: randomness. Where a loader falls back to a random UUID, the UUID is a parameter.
- Uuids.SetUuid: `Uuid::isValid` (uuid.cpp) is not modelled; validity is taken to be the lowercase RFC 4122 version-4 text form (section 3 and section 4.4 of RFC 4122).
- `AttributeType` rules, version and date parsing, GraphicsLayer mirroring names and the Eagle library database: foreign code, modelled as records of functions.
- The backward-compatibility regex rewrites in text.cpp and attribute.cpp.
- File and OS I/O:
  - file parsing and saving is modelled on an abstract disk of paths, documents and versions;
  - `FileUtils` copies only create the destination path;
  - the recent-projects file is modelled as a `saved` field, and write failures are not modelled;
  - `Schematic::save` is not modelled.
- The library element's destructor, which removes a temporary directory, and the attributes subclasses add when serialising.
- The Eagle importer:
  - `createDescription`;
  - the symbol's fixed version "0.1" and author "LibrePCB";
  - text alignment;
  - polygon vertex conversion beyond copying.
- The add-pins tool:
  - the undo stack, graphics items and message boxes;
  - rotation and mouse-move handling;
  - the length spin box;
  - the name field's 20-character limit.
- Qt signal/slot connections and the ERC message objects: only the two "message present" flags are kept.
- `qHash(Uuid)` (uuid.h:181-183): it is Qt's string hash of the text, which is foreign code with nothing of its own to state.
- String order compares characters by Unicode code point. `QString` compares UTF-16 code units, which differs only between supplementary-plane characters and U+E000–U+FFFF; the model does not capture that difference.
- BoardNetSegments.NetSegment.RemoveElements: on failure the state is restored only up to list order, because the source re-appends removed elements at the end.

## Findings

| source | as written | input that shows it | evidently intended | confidence | as-written member | corrected member |
|---|---|---|---|---|---|---|
| src/project/schematics/cmd/cmdsymbolinstancemove.cpp:42-49 | The destructor restores the start pose only when neither redo nor undo ran and the position delta is non-zero | Rotate a symbol about its own position by a non-zero angle, then destroy the command without redo: the position delta stays zero, so the symbol stays rotated | Any uncommitted temporary edit, including a rotation-only one, is reverted | not executed | SymbolMoves.RotationOnlyEditKept | SymbolMoves.DestroyedRestores |
