# Relay: a verified model of its sessions, its spatial grid and its latency exchange

Relay (formerly Hagall) is a real-time server: connections join sessions as participants, add entities with a pose to
them, attach components, actions and assets to these, and everyone else in the session is told. Its dagaz module keeps
an index of horizontal planes, and each participant may ask for a signed report of its latency. This project models
these three parts in Dafny and proves what they keep, over every input and every run.

## The spatial grid

`CellMath`, `Geometry`, `Cells`, `Boards`, `Merging`, `MergingInputs`, `Grid`. A `RegularGrid` object holds rows of columns of
quad lists and shared `Quad` objects, and its methods update them in place as the Go code does: growth in four directions, the merging loop, the four
edge strips of a merge with swap removal, the append, and the vertical and region queries. `float32` is modelled as
`real` and the resolution as a positive integer. Quads have non-negative extents. The grid starts as
`NewRegularGrid(1, 1, r)`, the only configuration the module uses; for other counts the constructor's `Max` would not
match the table.

The invariant `RegularGrid.Valid` says that the table has `(Max - Min) / Resolution` rows and columns, that every
stored quad lies in `[Min, Max)` and is listed in every cell its bounds reach, that the lists hold stored quads only, and
that the two counters count the stored quads and the merges since insertion. `Boards` and `Merging` say on values what a
table means in the world and what the passes of the merging loop do; `RegularGrid.AsBoard` is what the object holds, and
its methods are proved to do to it what the passes on values do. What the small functions compute is stated without them, in
numerals and world coordinates: when a ray hits a quad and where (`Geometry.HitIff`), which quad a merge picks and when it picks
none (`Grid.TargetIff`), which cells a quad or a region covers (`Boards.RectIff`, `RegularGrid.RegionIff`). Three facts about the code that the proofs bring out:

- A merge sweeps its left and right strips over the union of the old and the new rows. When it widens the columns while
  it narrows the rows, cells outside the new range keep an extra entry. `Cells.MergeExactIff` says that this is the only
  way in which a merge loses exact membership, and `MergingInputs.Spill` gives two quads that do. An insert keeps exact
  membership if none of its merges spills, and when it makes at most two merges only then
  (`Merging.TwoMergesExactIff`); in a longer run a later merge may take the extra entries away again
  (`Cells.SpillUndone`, and a run of three merges in which it does, `MergingInputs.SpillRegained`).
- After a merge the loop looks for a target again, from the merged quad's own centre. It normally finds that very quad and
  merges it into itself, which changes nothing but the counters (`Merging.NoRivalRun`). A pass on a stored quad ends the
  loop if and only if the first listed quad that touches its centre is the quad itself, has the same centre, or does not
  take it in (`Merging.PassEndsIff`). From this follow the exact conditions, in terms of the lists before the first merge,
  for an end within two passes (`Merging.EndsInTwoIff`) and for at most two merges (`Merging.AtMostTwoMergesIff`).
- The loop need not end. Two cells that list two overlapping quads in opposite orders make the quads take each other in
  forever, each time at four fifths of the distance (`MergingInputs.NeverEnds`, `MergingInputs.GridNeverSettles`); with
  `float32` only rounding would end it.

## The session protocol

`Ids`, `Components`, `Protocol`, `SessionInvariant`, `World`, `WorldInvariant`, `History`, `Replicas`, `Subscribers`,
`ClientRuns` say on values what each message, join and departure does to one session and to the whole server, and prove what
all runs keep. `Requests`, `Membership` and `Steps` pin these functions down one by one, for every flag set: what each request, a
join and a departure change, what they leave alone, and exactly who is sent what; and what each event does to the seats, the
sessions and the store of the whole server, for every connection, whether it sits in a session or not. `Options` and `Sequences` hold what several parts use.
`EntityComponentStore`, `Sessions`, `SessionStore`, `Modules`, `Realtime`, `Departure`, `Arrival`, `Connections` are the
objects of the server: id generators, the component store, entities, participants, sessions, module states, the session
store and the handler of a connection. Their methods update maps and fields and send to responders in loops as the Go
code does, and each is proved to do what the function on values says: `View()` is what the session object holds,
`Logged()` what each of its participants was sent.

Assumptions: a handled message, a join or a disconnect is one atomic step (the code takes separate locks to check and to
act, so finer interleavings are not covered); ids do not wrap around at 32 bits; the server id is constant; a pose update
carries a pose. The iteration order of maps, the reusable id that is handed out and the place of a new allocation are
arbitrary choices of each step.

Clients are modelled too. Each keeps a replica of its session, and it knows the components of a type from the answer to a
list request that it makes while it subscribes to the type, until it gives up the subscription. Over every run with no
feature flag set both stay exactly right (`ClientRuns.ClientsStayInSync`, `ClientRuns.SubscribersStayInformed`). A
subscription alone would not do: `Subscribers.FreshSubscriberKnowsNothing` shows components that a new subscriber is never
told of.

Where the code is less regular than its comments suggest, the model follows the code: an update of a component that was
never added is told to the subscribers although nothing is stored; a component that is added or deleted is told to all
others as soon as anyone subscribes to its type; a connection that asks for the session it is in gets an error and then
the module states once more.

## The latency exchange

`Statistics`, `Latency`. A countdown of pings that ends in one response. The counter is a 32-bit word. Two facts: a
latency below a microsecond counts as zero and may be forgotten by the running minimum (`Statistics.RunningMinExact` says
when), and a ping answered twice completes the exchange while another ping was never answered
(`Latency.CompleteIffDistinct`).

## Model

| member | source | states |
|---|---|---|
| CellMath.CellIndexUnique | modules/dagaz/grid_spatial_partition.go:141-142 | the floored quotient is the one cell whose half-open interval holds the distance |
| CellMath.CellIff | modules/dagaz/grid_spatial_partition.go:141-142 | an index is at most i if and only if the distance is below the end of cell i, and at least i if and only if it is not below its start |
| CellMath.CellIndexShift | modules/dagaz/grid_spatial_partition.go:349-367 | moving the origin by whole cells moves every index by that number |
| CellMath.CellIndexInRange | modules/dagaz/grid_spatial_partition.go:141-149 | an index is within the table if and only if the point is within the grid |
| CellMath.CellsToAddIsLeast | modules/dagaz/grid_spatial_partition.go:313-337 | the nested floor, absolute value and ceiling give enough cells to reach the point, and one cell less would not do |
| Geometry.MergeBounds | modules/dagaz/grid_spatial_partition.go:398-405 | on all three axes the merged bounds are four fifths of the one and one fifth of the other, the normal is kept, and extents stay non-negative |
| Geometry.HitIff | modules/dagaz/math.go:210-230 | a ray hits a quad at t if and only if it crosses its plane, 0 <= t <= 1, and the point from + t * (to - from) lies in the plane and within the tolerance of all six bounds |
| Geometry.IntersectIff | modules/dagaz/math.go:210-230 | the query does so with a tolerance of 0.0001 |
| Geometry.FlatHit | modules/dagaz/math.go:210-230 | a vertical ray within the bounds of a horizontal quad hits it at the fraction of its way at which it is at the height of the quad |
| Geometry.OverlapIff | modules/dagaz/math.go:153-174 | two quads overlap if and only if, on both horizontal axes, their centres are closer than the sum of their extents |
| Geometry.MergeOverlap | modules/dagaz/math.go:153-174 | two overlapping quads still overlap themselves and the old bounds after the merge |
| Geometry.MergeCentre | modules/dagaz/grid_spatial_partition.go:100-103 | the centres coincide after a merge if and only if they did before |
| Geometry.SelfMerge | modules/dagaz/grid_spatial_partition.go:398-401 | merging a quad into itself moves nothing |
| Geometry.VerticalHit | modules/dagaz/math.go:210-230 | a vertical ray that hits starts within the tolerance of the bounds |
| Geometry.LooserHit | modules/dagaz/math.go:222-225 | a hit within exact bounds is the same hit within the tolerance |
| Geometry.HitOwnCentre | modules/dagaz/math.go:210-230 | a ray from a quad's own centre hits it at distance zero |
| Cells.RemovedCounts | modules/dagaz/grid_spatial_partition.go:381-387 | swap removal takes out one entry of the quad and keeps all others |
| Cells.RemovedPlaces | modules/dagaz/grid_spatial_partition.go:381-387 | the last entry takes the place of the first entry of the quad, and every other entry stays where it is |
| Cells.EdgeActionMeaning | modules/dagaz/grid_spatial_partition.go:411-489 | the four strips list the cells gained, drop the cells lost, keep the shared ones, and list exactly the spilled ones besides |
| Cells.FourEdges | modules/dagaz/grid_spatial_partition.go:447-489 | the strips do not overlap, so sweeping them one after the other acts on each cell once |
| Cells.MergeKeepsCover | modules/dagaz/grid_spatial_partition.go:389-489 | a merged quad is listed in every cell of its new range |
| Cells.MergeKeepsOthers | modules/dagaz/grid_spatial_partition.go:389-489 | every other quad stays listed as often as it was in every cell |
| Cells.MergeExactIff | modules/dagaz/grid_spatial_partition.go:389-489 | from exact membership a merge ends exact if and only if it does not widen the columns while it narrows the rows |
| Cells.SpillUndone | modules/dagaz/grid_spatial_partition.go:389-489 | a merge to a wider and narrower range and one back: membership ends exact, whatever the first spilled |
| Cells.GrownExact | modules/dagaz/grid_spatial_partition.go:342-378 | after growth membership is exact at the shifted indices if and only if it was exact |
| Grid.NearestMeaning | modules/dagaz/grid_spatial_partition.go:151-160 | the scan of a list finds a hit if there is one, and one of least distance |
| Grid.FirstOfNearest | modules/dagaz/grid_spatial_partition.go:151-160 | of several hits at the least distance the scan returns the one that is listed first |
| Grid.ListAgreesWithScan | modules/dagaz/grid_spatial_partition.go:130-161 | the list of one cell answers a vertical ray like all stored quads, up to the tolerance margin |
| Grid.MergeTargetMeaning | modules/dagaz/grid_spatial_partition.go:72-97 | a merge target is a listed quad with a vertical normal part that overlaps, never a nil hit |
| Grid.TargetIff | modules/dagaz/grid_spatial_partition.go:70-97 | a quad is the target if and only if it is hit by the upward or the downward ray of length 1.6, nothing listed is hit nearer on either ray, an upward hit and then an earlier place win ties, and it is at most 0.6 away in height and overlaps; there is no target if and only if nothing is hit or the best quad fails that guard |
| Boards.SameWorld | modules/dagaz/grid_spatial_partition.go:342-378 | after growth every point of the world has the list it had |
| Boards.RectIff | modules/dagaz/grid_spatial_partition.go:389-405 | a cell is in the range of a quad if and only if, on both axes, the cell begins no later than the upper bound of the quad and ends after its lower bound |
| Boards.MergeKeepsIndex | modules/dagaz/grid_spatial_partition.go:389-489 | a merge keeps all quads placed and covered |
| Boards.MergeKeepsExact | modules/dagaz/grid_spatial_partition.go:389-489 | membership of all quads stays exact if and only if the merge does not spill |
| Boards.GrowKeepsIndex | modules/dagaz/grid_spatial_partition.go:308-379 | growth keeps all quads placed and covered, and makes membership neither exact nor inexact |
| Boards.AppendKeepsExact | modules/dagaz/grid_spatial_partition.go:111-124 | an appended quad is listed once in each cell of its range, and membership is exact after if and only if it was before |
| Merging.PassEndsIff | modules/dagaz/grid_spatial_partition.go:70-108 | a pass on a stored quad ends the loop if and only if the first listed quad that touches its centre is the quad itself, has its centre, or does not take it in |
| Merging.FirstAfterMerge | modules/dagaz/grid_spatial_partition.go:70-108 | after a merge the first quad to touch the new centre is the first that was listed before the merged one, or else the merged one |
| Merging.EndsInTwoIff | modules/dagaz/grid_spatial_partition.go:70-109 | two passes end the loop if and only if the centres coincide or no quad listed before the target takes it in at its new centre; stated on the lists before the first merge |
| Merging.AtMostTwoMergesIff | modules/dagaz/grid_spatial_partition.go:70-109 | any longer run makes at most two merges if and only if two passes end it or nothing takes in the quad that took in the target |
| Merging.NoRivalRun | modules/dagaz/grid_spatial_partition.go:70-109 | without a quad listed before that touches the new centre the second merge is that of the target with itself: shapes and table are as after the first |
| Merging.IntoSound | modules/dagaz/grid_spatial_partition.go:389-489 | a merge on values keeps every quad in the table and listed in each cell it reaches |
| Merging.RunKeepsExact | modules/dagaz/grid_spatial_partition.go:70-109 | exact membership survives every run of the loop in which no merge spills |
| Merging.TwoMergesExactIff | modules/dagaz/grid_spatial_partition.go:70-109 | a run of at most two merges keeps exact membership if and only if none of them spills |
| MergingInputs.NeverEnds | modules/dagaz/grid_spatial_partition.go:70-109 | a sound grid of two quads, and a third quad, for which the loop has not ended after any number of passes |
| MergingInputs.GridNeverSettles | modules/dagaz/grid_spatial_partition.go:70-109 | on a grid object that holds this, no bound on the passes is enough |
| MergingInputs.Spill | modules/dagaz/grid_spatial_partition.go:407-489 | a tall and a wide quad whose merge widens the columns while it narrows the rows |
| MergingInputs.SpillRegained | modules/dagaz/grid_spatial_partition.go:70-109 | a run of three merges of which the first spills, and after which membership is exact: the condition for at most two merges does not extend to longer runs |
| MergingInputs.SpillLosesExact | modules/dagaz/grid_spatial_partition.go:389-489 | so membership is not exact after it, in every grid that holds the tall one |
| Grid.RegularGrid.constructor | modules/dagaz/grid_spatial_partition.go:27-53 | the one-cell start satisfies the invariant; resolution zero becomes one |
| Grid.RegularGrid.ExpandToFitPoint | modules/dagaz/grid_spatial_partition.go:308-379 | the point ends in [Min, Max), dimensions match the bounds, no cell is added that was not needed, and every world point keeps its list |
| Grid.RegularGrid.ArrayContains | modules/dagaz/math.go:201-208 | the loop finds the first position of the quad, or tells that there is none |
| Grid.RegularGrid.RemoveQuadFromCell | modules/dagaz/grid_spatial_partition.go:381-387 | one cell loses one entry, the rest of the table stays |
| Grid.RegularGrid.UpdateEdges | modules/dagaz/grid_spatial_partition.go:411-489 | the four loops together act on each cell as the old and new ranges demand |
| Grid.RegularGrid.MergeQuads | modules/dagaz/grid_spatial_partition.go:389-493 | the target moves a fifth of the way and the table follows as a merge on values says, the invariant holds, both counters go up by one, and membership stays exact if and only if the merge does not spill |
| Grid.RegularGrid.IntersectQuad | modules/dagaz/grid_spatial_partition.go:139-161 | the nearest hit of the origin's cell, in list order; nil and -1 outside; in a valid grid a hit is a stored quad that the ray meets at the returned distance, and no stored quad that the ray meets within its exact bounds is nearer or missed |
| Grid.RegularGrid.QueryAnswers | modules/dagaz/grid_spatial_partition.go:130-161 | what the scan of the cell returns meets this in every valid grid, and outside the grid no stored quad is met |
| Grid.RegularGrid.FlatQuery | modules/dagaz/grid_spatial_partition.go:130-161 | a vertical ray that crosses the height of a stored horizontal quad within its bounds gets a hit no farther than that crossing |
| Grid.RegularGrid.AgreesWithScan | modules/dagaz/grid_spatial_partition.go:130-161 | in every valid grid a vertical query returns a stored quad it hits, never farther than the nearest within exact bounds nor nearer than the nearest within tolerance |
| Grid.RegularGrid.FindMergeTarget | modules/dagaz/grid_spatial_partition.go:71-97 | the nearer of the hits above and below, if close in height and overlapping: in the terms of TargetIff, among the quads listed at the centre |
| Grid.RegularGrid.PicksBest | modules/dagaz/grid_spatial_partition.go:70-97 | the quads it picks from include every stored quad that one of the two rays meets within its exact bounds |
| Grid.RegularGrid.TargetIsTaker | modules/dagaz/grid_spatial_partition.go:70-97 | for a stored quad the nearer of the hits above and below is the first listed quad that touches its centre, and it is the target if it takes the quad in |
| Grid.RegularGrid.MergePass | modules/dagaz/grid_spatial_partition.go:70-108 | one merge as on values or none, one taker counted; on a stored quad it stops if and only if the first quad to touch the centre is that quad, has that centre, or does not take it in |
| Grid.RegularGrid.MergeLoop | modules/dagaz/grid_spatial_partition.go:70-109 | any number of passes leaves the table, the shapes and the counters of each quad as that many passes on values do, and ends if and only if they end |
| Grid.RegularGrid.RunOutcome | modules/dagaz/grid_spatial_partition.go:70-109 | what the grid says of a run before it starts: an end within two passes, at most two merges, and exact membership, each with an exact condition |
| Grid.RegularGrid.Append | modules/dagaz/grid_spatial_partition.go:111-124 | the quad is stored, and added at the end of the list of exactly the world points whose cell it reaches; plane count up by one; exact membership is neither lost nor gained |
| Grid.RegularGrid.InsertQuad | modules/dagaz/grid_spatial_partition.go:55-126 | every insert keeps the invariant and grows the grid by no row or column that the quad does not reach; its first target is the best hit in the terms of TargetIff; it either appends the quad or merges as on values without changing the set of quads; it ends within two passes, makes at most two merges, changes nothing by the second, and keeps exact membership exactly under the stated conditions |
| Grid.RegularGrid.GetRegion | modules/dagaz/grid_spatial_partition.go:256-283 | each quad listed in the half-open clamped range of cells, once, and no other |
| Grid.RegularGrid.RegionIff | modules/dagaz/grid_spatial_partition.go:256-283 | a cell is covered if and only if, on both axes, it ends after the region begins and not after the region ends, what lies outside the grid not counting |
| Grid.RegularGrid.RegionComplete | modules/dagaz/grid_spatial_partition.go:256-283 | a stored quad whose range has a cell in the region is among them; conversely when its membership is exact |
| Ids.TakeKeepsPartition | models/id.go:13-24 | a handed-out id was not outstanding, and outstanding and reusable ids still partition 1..current |
| Ids.ReturnKeepsPartition | models/id.go:28-37 | a returned id becomes reusable, and the partition holds |
| Ids.PickIff | models/id.go:13-37 | an id may be handed out if and only if it was issued and is not outstanding, or is the next one while all issued ids are outstanding |
| Ids.SequentialIDGenerator.New | models/id.go:13-24 | some reusable id if there is one, else the next |
| Ids.SequentialIDGenerator.Reuse | models/id.go:28-37 | the id becomes reusable |
| Ids.HexReads | models/session.go:305-307 | reading the digits in base 16, 0 to 9 and a to f at their values, gives the number back; there is no leading zero |
| Ids.HexInjective | models/session.go:305-307 | lowercase hexadecimal is injective |
| Ids.GlobalIDReads | models/session.go:305-307 | a global id is the server id, an x, and the session id in hexadecimal |
| Ids.GlobalIDInjective | models/session.go:305-307 | two sessions of one server share a global id only if they share the id |
| Components.AddTypeKeeps | models/entity.go:99-111 | the two type indexes stay inverse; a name registered twice gets the same id, different names different ones |
| Components.DeleteEntityKeeps | models/entity.go:174-181 | exactly the components of the entity go, and all references stay to live entities |
| Components.SubscribeKeeps | models/entity.go:246-264 | subscriptions stay within registered types and current participants |
| Components.UnsubscribeKeeps | models/entity.go:277-284 | no subscription of the participant is left |
| EntityComponents.EntityComponentStore.AddType | models/entity.go:99-111 | the known id, or the next one in both indexes |
| EntityComponents.EntityComponentStore.Add | models/entity.go:135-158 | refuses unknown types before present components; else stores |
| EntityComponents.EntityComponentStore.Delete | models/entity.go:160-172 | tells whether the component was there, and removes it |
| EntityComponents.EntityComponentStore.DeleteByEntityID | models/entity.go:174-181 | the loop removes the entity's components of every type, in any order of types |
| EntityComponents.EntityComponentStore.Update | models/entity.go:183-203 | replaces a present component, and changes nothing otherwise |
| EntityComponents.EntityComponentStore.List | models/entity.go:205-218 | the loop collects every component of the type, and no others |
| EntityComponents.EntityComponentStore.Subscribe | models/entity.go:246-264 | adds a subscriber to a registered type only |
| EntityComponents.EntityComponentStore.UnsubscribeByParticipant | models/entity.go:277-284 | the loop removes the participant from every type |
| EntityComponents.EntityComponentStore.Notify | models/entity.go:286-301 | collects exactly the subscribers of the type |
| SessionInvariant.HandleKeepsValid | websocket/realtime.go:250-410 | every handled message keeps the session valid: issued ids, ownership index, references, frame handlers |
| SessionInvariant.DeleteEntityOwned | websocket/realtime.go:332-346 | after a delete every participant's index still holds exactly the entities it owns |
| SessionInvariant.AssetsRefer | modules/odal/odal.go:94-161 | assets refer to live entities, carry their owner, and never share an id |
| SessionInvariant.ActionsRefer | modules/vikja/vikja.go:94-158 | actions refer to live entities |
| SessionInvariant.ComponentRequestKeepsStore | websocket/realtime.go:572-871 | components stay in live entities and registered types, subscriptions in registered types and current participants |
| SessionInvariant.JoinKeepsValid | websocket/realtime.go:197-204 | a join adds one participant under an id never used before and one frame handler, and keeps the session valid |
| SessionInvariant.DropOwnedMeaning | websocket/realtime.go:996-1013 | in whatever order the loop visits them, exactly the transient entities go, with exactly their components |
| SessionInvariant.LeaveKeepsValid | websocket/realtime.go:980-1027 | a departure keeps the session valid although modules forget entities before the session removes them |
| Requests.EntityAddMeaning | websocket/realtime.go:250-305 | one new entity under an unused id, owned by the sender, with the flag, persistence and pose asked for or a pose of zeros; the sender is sent its id, and everyone else the entity unless the feature flag is set |
| Requests.EntityDeleteMeaning | websocket/realtime.go:307-364 | only the owner deletes; the entity goes with its components, actions and asset and nothing else does; reply and broadcast as above; NotFound and Unauthorized change nothing |
| Requests.UpdatePoseMeaning | websocket/realtime.go:366-410 | only the owner moves an entity, the sender is told nothing and everyone else the pose; anyone else is ignored silently |
| Requests.TypeAddMeaning | websocket/realtime.go:454-483 | a name is answered to the sender alone with the id it has in both indexes after the request, its old one or one never used; the empty name is refused as a bad request |
| Requests.ComponentAddMeaning | websocket/realtime.go:572-651 | one component is set, or the request is refused for zero ids, an unknown entity or type, or a component that is there, in that order; all others hear of it if anyone subscribes |
| Requests.ComponentDeleteMeaning | websocket/realtime.go:653-718 | one component goes, or the request is refused; all others hear of it if anyone subscribes |
| Requests.ComponentUpdateMeaning | websocket/realtime.go:720-763 | a component that is there is replaced, one that is not stays away, and of a live entity the other subscribers are told either way; nothing is answered |
| Requests.ComponentListMeaning | websocket/realtime.go:765-795 | the answer holds exactly the components of the type, goes to the sender alone, and nothing changes |
| Requests.SubscribeMeaning | websocket/realtime.go:797-837 | the sender joins the subscribers of the one type, or is refused for a zero or unknown type |
| Requests.UnsubscribeMeaning | websocket/realtime.go:839-871 | the sender leaves the subscribers of the one type, and no other subscription changes |
| Requests.SetActionMeaning | modules/vikja/vikja.go:94-158 | one action is replaced and everyone else told, unless the request is incomplete, its entity unknown, or a later action is stored |
| Requests.AssetAddMeaning | modules/odal/odal.go:94-161 | the owner gives the entity an asset under an id no asset has; everyone else is told; three refusals in order |
| Membership.JoinMeaning | websocket/realtime.go:197-235 | the newcomer gets an id never used and a free frame handler, is sent the response, the whole state and the module states, and is announced to everyone else; nothing else changes |
| Membership.DropMeaning | websocket/realtime.go:996-1013 | exactly the visited transient entities go with their components, and everyone but the leaver is told of each once, for any order |
| Membership.LeaveMeaning | websocket/realtime.go:980-1027 | a leaver takes its transient entities, their components, actions and assets, its subscriptions and its frame handler; persistent entities stay; everyone else is told of each entity and then of the leaver, the leaver of nothing |
| WorldInvariant.StepKeepsInv | websocket/realtime.go:151-248 | every connect, join, message and disconnect keeps the invariant of the whole server |
| WorldInvariant.RunKeepsInv | websocket/realtime.go:151-248 | so does every run |
| WorldInvariant.ReachableInv | websocket/realtime.go:151-248 | every world that a run from the start ends in satisfies the invariant |
| WorldInvariant.JoinIsEnabled | websocket/realtime.go:171-204 | a join is possible in every world for some choice of ids, allocation and visiting order |
| WorldInvariant.LeaveKeepsInv | websocket/realtime.go:980-1038 | after a departure the connection sits nowhere, and a session is in the store only if somebody is left |
| WorldInvariant.ConnectionsConsistent | websocket/realtime.go:151-242 | in every reachable world a seated connection is a participant of a stored session, under its global id, with one frame handler of its own |
| WorldInvariant.ParticipantsConsistent | websocket/realtime.go:197-217 | in every reachable world every participant of a session belongs to exactly one connection |
| WorldInvariant.LookupFindsTheSession | models/session.go:295-307 | in every reachable world a global id finds the one live session with that id, and it is not empty |
| WorldInvariant.NewIDsAreNotLive | models/session.go:266-293 | live and reusable session ids partition 1..current, and no live id is handed out |
| WorldInvariant.NewIDIsFree | models/session.go:266-280 | a new session overwrites nothing in the store |
| History.PersistentSurvives | websocket/realtime.go:332-399 | once its owner has left, no run deletes or moves a persistent entity |
| History.DepartureOrphans | websocket/realtime.go:996-1000 | a departure keeps the leaver's persistent entities as they are, owned by nobody present |
| History.IdsNeverReissued | models/session.go:66-118 | over every run of a session no entity id and no participant id names a second one, and owners never change |
| History.TimestampsNeverDecrease | modules/vikja/vikja.go:122-143 | over every run, as long as the entity exists, the stored time of an action never goes back and the action is not lost |
| History.StepLater | websocket/realtime.go:250-410 | every event leaves every session ever allocated in a later state |
| Replicas.HandleSyncs | websocket/realtime.go:250-410 | the sender's reply and the others' broadcasts take their replicas to the new session |
| Replicas.JoinSyncs | websocket/realtime.go:206-235 | a newcomer's state messages give it the whole session, whatever it held; the others learn of the newcomer |
| Replicas.LeaveSyncs | websocket/realtime.go:996-1027 | one delete broadcast per dropped entity and the leave broadcast take the others' replicas to the new session |
| Replicas.DropSyncs | websocket/realtime.go:996-1013 | a replica forgets exactly the dropped entities, in any order |
| Subscribers.HandleTells | websocket/realtime.go:572-763 | with no feature flag set, a subscriber that knows exactly the components of its type before a message knows exactly those after it, from its reply or the broadcasts alone |
| Subscribers.LeaveTells | websocket/realtime.go:988-1027 | likewise through the departure of another participant |
| Subscribers.JoinTells | websocket/realtime.go:218-235 | a newcomer is told all components with the session state; the others' knowledge stays right |
| Subscribers.FreshSubscriberKnowsNothing | websocket/realtime.go:572-651 | a component added while nobody subscribes, and then a subscription: the new subscriber is told nothing of the component that is there |
| Subscribers.ListInforms | websocket/realtime.go:765-795 | the answer to a list request gives a subscriber all components of the type, and no others |
| Subscribers.HandleInforms | websocket/realtime.go:572-871 | every message keeps each client right about what it subscribes to and about every type it has listed since it subscribed |
| Subscribers.LeaveInforms | websocket/realtime.go:988-1027 | so does every departure of another participant |
| Subscribers.JoinInforms | websocket/realtime.go:197-235 | and every join; a newcomer subscribes to nothing |
| ClientRuns.StepSyncs | websocket/realtime.go:151-410 | with no feature flag set every event keeps every client's replica equal to its session, and what it knows of component types right |
| ClientRuns.RunSyncs | websocket/realtime.go:151-410 | so does every run, from any synchronized world |
| ClientRuns.ClientsStayInSync | websocket/realtime.go:151-410 | from the start of the server no client is ever out of sync: participants, entities with owner, pose and flag, actions and assets |
| ClientRuns.SubscribersStayInformed | websocket/realtime.go:572-871 | from the start of the server every client knows what it subscribes to, and exactly the components of every type that it has listed since |
| ClientRuns.KnownUntilUnsubscribed | websocket/realtime.go:765-871 | a subscribed type becomes known with the answer to the client's own list request, and is forgotten by its own unsubscription only |
| ClientRuns.EveryRunHasClients | websocket/realtime.go:151-410 | every run of the server is one with clients, so the two theorems cover all of them |
| Sessions.Session.Broadcast | models/session.go:153-169 | everyone but the sender is sent the message once, in any order |
| Sessions.Session.BroadcastTo | models/session.go:171-193 | those of the given ids that are there, the sender excepted, are sent it once, however often they are given |
| Sessions.Session.GetParticipantsByIDs | models/session.go:95-107 | the participants of the given ids, the missing ones skipped |
| Sessions.Session.AddParticipant | models/session.go:70-75 | one more participant and nothing else |
| Sessions.Session.RemoveParticipant | models/session.go:77-82 | one participant less and nothing else |
| Sessions.Session.HandleFrame | models/session.go:210-217 | a frame handler under an id that was free |
| Sessions.Session.CancelFrame | models/session.go:217-223 | the handler goes and its id becomes reusable |
| Sessions.VikjaState.SetEntityAction | modules/vikja/state.go:14-29 | creates the inner map when needed and replaces one action |
| Sessions.OdalState.SetAssetInstance | modules/odal/state.go:21-30 | one asset instance per entity |
| Sessions.Participant.AddEntity | models/participant.go:18-23 | the index gains the entity's id |
| SessionStores.SessionStore.NewID | models/session.go:266-268 | an id that no stored session has |
| SessionStores.SessionStore.Add | models/session.go:270-280 | stored under its global id, ids still partitioned |
| SessionStores.SessionStore.Remove | models/session.go:282-293 | gone from the store, its id reusable, ids still partitioned |
| Modules.VikjaModule.HandleSetEntityAction | modules/vikja/vikja.go:94-158 | refuses incomplete, unknown and outdated actions, else stores, replies and broadcasts: Protocol.SetEntityAction |
| Modules.VikjaModule.HandleDisconnect | modules/vikja/vikja.go:59-70 | the loop forgets exactly the actions of the participant's transient or missing entities |
| Modules.VikjaModule.HandleMsg | modules/vikja/vikja.go:36-57 | dispatch of the vikja module |
| Modules.OdalModule.HandleAssetInstanceAdd | modules/odal/odal.go:94-161 | refuses missing entities and other owners, else allocates, replies and broadcasts: Protocol.AddAsset |
| Modules.OdalModule.HandleDisconnect | modules/odal/odal.go:59-70 | the loop forgets exactly the assets of the participant's transient or missing entities |
| Modules.OdalModule.HandleMsg | modules/odal/odal.go:36-57 | dispatch of the odal module |
| Realtime.HandleEntityAdd | websocket/realtime.go:264-304 | the session object and every participant's messages change as Protocol.AddEntity says |
| Realtime.HandleEntityDelete | websocket/realtime.go:321-363 | likewise Protocol.DeleteEntity, with both refusals |
| Realtime.HandleEntityUpdatePose | websocket/realtime.go:380-409 | likewise Protocol.UpdatePose, silent for strangers |
| Realtime.HandleEntityComponentTypeAdd | websocket/realtime.go:454-483 | likewise Protocol.AddType |
| Realtime.HandleEntityComponentAdd | websocket/realtime.go:572-651 | likewise Protocol.AddComponent, with its three refusals |
| Realtime.HandleEntityComponentDelete | websocket/realtime.go:653-718 | likewise Protocol.DeleteComponent, notifying before it replies |
| Realtime.HandleEntityComponentUpdate | websocket/realtime.go:720-763 | likewise Protocol.UpdateComponent, to the subscribers |
| Realtime.HandleEntityComponentList | websocket/realtime.go:765-795 | likewise Protocol.ListComponents, to subscribers and others |
| Realtime.HandleEntityComponentSubscribe | websocket/realtime.go:797-837 | likewise Protocol.SubscribeTo |
| Realtime.HandleEntityComponentUnsubscribe | websocket/realtime.go:839-871 | likewise Protocol.UnsubscribeFrom |
| Departure.DropOneMore | websocket/realtime.go:996-1013 | visiting one more entity at the end is what the recursive departure says |
| Departure.Depart | websocket/realtime.go:988-1027 | modules, subscriptions, owned entities, frame handler, participant, broadcast: Protocol.Leave for the order in which the loop went |
| Arrival.Arrive | websocket/realtime.go:197-235 | participant, frame handler, response, state and broadcast: Protocol.Join |
| Connections.HandleIs | websocket/handler.go:285-361 | a handled message is the base handler and then every module on what it left |
| Connections.HandleJoined | websocket/handler.go:285-361 | the objects change as Protocol.Handle says |
| Connections.RealtimeHandler.HandleUnjoined | websocket/realtime.go:454-483 | without a session only malformed component requests are answered |
| Connections.MalformedIff | websocket/realtime.go:454-871 | the requests that are answered without a session are exactly those that a participant would be refused as bad requests in any session |
| Connections.RealtimeHandler.HandleMessage | websocket/handler.go:285-361 | a participant's message does to its session what Protocol.Handle says, and the handler stays consistent |
| Connections.RealtimeHandler.LeaveSession | websocket/realtime.go:980-1038 | Protocol.Leave, the store loses an empty session, and the handler has neither session nor participant |
| Connections.RealtimeHandler.CreateSession | websocket/realtime.go:182-195 | a new session under an id that no stored session has, stored under its global id |
| Connections.RealtimeHandler.EnterSession | websocket/realtime.go:197-239 | Protocol.Join and the module states; handler and modules point at the session |
| Connections.RealtimeHandler.LeaveBeside | websocket/realtime.go:980-1038 | a departure changes nothing of a session that shares no object with the one that is left |
| Connections.RealtimeHandler.EnterBeside | websocket/realtime.go:197-239 | an entrance changes nothing of a session that shares no object with the one that is entered |
| Connections.RealtimeHandler.HandleParticipantJoin | websocket/realtime.go:151-242 | already there: an error and the module states; else the former session and its participants' messages change as Protocol.Leave says, and those of the session asked for, or of a new one under a free id, as Protocol.Join and the module states say, or the request is refused; the store loses an emptied session and gains a new one |
| Steps.MessageStep | websocket/realtime.go:250-410 | a message of a seated connection changes its session and sends exactly as the handled request does, and no other session changes; one of a connection that sits nowhere changes nothing |
| Steps.DisconnectStep | websocket/realtime.go:980-1038 | a connection that disconnects leaves the session it sits in; the session leaves the store, and its id may come again, if and only if nobody else was in it; one that sits nowhere changes nothing |
| Steps.JoinAgain | websocket/realtime.go:159-169 | a connection that is in the session it asks for is sent the error and the module states, and nothing else happens |
| Steps.JoinStep | websocket/realtime.go:151-242 | every other connection, seated or not, first leaves where it sits; it then enters the session that the store has under the global id, or for the empty name a new one under an id that no stored session has, or for any other name none; no other session changes |
| Steps.JoinSeats | websocket/realtime.go:171-239 | after that it sits there as a participant under an id never used there, has been sent the response and the whole state, and everyone else there has been told; entities, components, actions and assets are as they were, and a new session holds this one participant under id 1 and nothing else |
| Steps.EventsEnabled | websocket/realtime.go:244-248 | connects and messages may come at any time, and a disconnect for some order in which the entities are visited |
| Statistics.RunningMinOfPositive | models/signed_latency.go:72-77 | of positive latencies the running minimum is the true one |
| Statistics.RunningMinExact | models/signed_latency.go:72-77 | of latencies that are not negative it is the true minimum if and only if none is zero or the last one is |
| Statistics.MinimumMissed | models/signed_latency.go:75-77 | a zero that is visited first is forgotten |
| Statistics.RunningMaxExact | models/signed_latency.go:78-80 | the running maximum bounds all latencies and is one of them, or zero |
| Statistics.SortedAscends | models/signed_latency.go:86-88 | the sorted latencies are the ascending rearrangement |
| Statistics.P95Exact | models/signed_latency.go:90-93 | of at least two latencies the percentile is one of them; with k of the n at or below it 95 n < 100 (k + 1), and for every smaller number 100 (k + 1) <= 95 n; of fewer latencies it is zero |
| Statistics.RankIff | models/signed_latency.go:90 | the rank is at most k if and only if 95 n < 100 (k + 1) |
| Statistics.RoundIff | models/signed_latency.go:83 | rounding gives the nearest whole number, halves away from zero |
| Statistics.MeanExact | models/signed_latency.go:81-84 | the mean of n latencies is the whole number nearest to sum / n, a half rounded up: 2 mean n <= 2 sum + n and 2 sum < 2 mean n + n |
| Statistics.DataMeaning | models/signed_latency.go:69-93 | of at least two positive latencies: true extremes, the mean and the percentile in numerals, the last one visited, and their number |
| Statistics.OrderIrrelevant | models/signed_latency.go:72-93 | apart from the last latency, the figures do not depend on the order of the map |
| Latency.ExactlyOneResponse | models/signed_latency.go:36-66 | until completion pings sent and iterations left add up to n + 1; n accepted answers make exactly one response |
| Latency.CompleteIffDistinct | models/signed_latency.go:50-66 | the response covers completed samples only, if and only if no ping was answered twice |
| Latency.CompletionReports | models/signed_latency.go:68-132 | the completing answer reports n samples, each in whole microseconds of its own start and end, with their true extremes, the mean and the percentile in numerals, and the last one visited |
| Latency.MicrosIff | models/signed_latency.go:73 | a latency is m microseconds if and only if 1000 m <= end - start < 1000 (m + 1), towards zero for negative spans |
| Latency.AnswerEnds | models/signed_latency.go:50-66 | an answer to a known ping sets its end and nothing of any other ping, counts down a 32-bit word, and sends a new ping or the response; an unknown ping changes nothing |
| Latency.AfterCompletion | models/signed_latency.go:56-66 | an answer after completion wraps the counter and sends another ping |
| Latency.DuplicateAnswer | models/signed_latency.go:50-66 | two answers to one ping complete an exchange of two with a ping unanswered |
| Latency.SignedLatency.Start | models/signed_latency.go:36-48 | a fresh exchange: the request id and the count that were given, and one ping recorded and sent |
| Latency.SignedLatency.OnPing | models/signed_latency.go:50-132 | one answer does what the machine says, for the order in which the pings were visited |
| Latency.SignedLatency.Compute | models/signed_latency.go:69-93 | the accumulating loop, the rounding and the sort compute the figures |
| Latency.SignedLatency.SendPingRequest | models/signed_latency.go:134-144 | one more waiting ping, sent |

## Left out

- Grid.RegularGrid.InsertQuad: takes a bound on the passes of the merging loop, because the loop need not end (MergingInputs.GridNeverSettles); `done` tells whether it ended.
- Grid.RegularGrid.IntersectQuad: covers vertical rays only; the slanted walk divides by zero and relies on infinities.
- Grid.RegularGrid.GetRegion: requires an upper corner that is not below the grid's Min, since the code converts the negative index to an unsigned number.
- Grid.RegularGrid.UpdateEdges: sweeps the right and bottom strips upwards where the code goes downwards; each cell is acted on once either way, and rows and lists are values in a field, so slices that share memory are not captured.
- Latency.SignedLatency.OnPing: leaves out marshalling, hashing and signing, the order of the reported ping ids, and times too far apart for a duration.
- Connections.RealtimeHandler.HandleParticipantJoin: takes what it needs of the shared store as preconditions: the session asked for shares no object with the one that is left, and does not answer on this connection yet. World.Step composes the same steps on values, in the terms that Steps.JoinStep states, and keeps the corresponding invariant over all runs.
- Connections.RealtimeHandler.HandleMessage: checks once that a session is joined, where each handler of the code checks for itself.
- World.Step: replies to a connection that sits nowhere are not part of the outcome.
- Realtime.HandleEntityUpdatePose: a missing pose, on which the code fails, is not modelled.
- Sessions.Session.HandleFrame: a frame handler is the connection it belongs to; dispatching frames is left out.
- Module states are created with the session instead of at the first join; they are empty until then either way.
- The dagaz state lives for one grid's life; joins that replace it, and its message handlers, are left out.
- Rounding, NaN and infinities of float32, the normal of a quad (a given field), and quads with negative extents.
- Custom messages, lookups of type names and ids, pings outside the latency exchange, the range check of a latency request, receipts and sync clocks: they add easy members only.
- Locks, goroutines, timers, the socket loop, protobuf, HTTP, the discovery service, metrics and logging.
