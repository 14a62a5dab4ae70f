# pepse: chunk streaming, world generation, avatar and fruit, in Dafny

This project models the core of the side-scrolling game *pepse*.

- **Terrain.** The ground is generated column by column. A column is a stack of
  twenty 30-pixel blocks hanging from the ground height, floored to the block grid.
- **Flora.** Trees are decided per block column. A random stream is seeded only
  from the column and the world seed. A tree stands where the stream's first
  float is below 0.1. Each tree adds one trunk, its leaves and its fruits to
  three lists.
- **FloraPack.** The three flora lists are handed over in a pack. The pack keeps
  the caller's lists and hands out copies.
- **Chunk streaming.** The game manager cuts the world into chunks of ten block
  columns.
  - Every frame it loads the chunks within three of the avatar's chunk:
    terrain first, then trunks, leaves and fruits.
  - It unloads the loaded chunks more than five chunks away. Each unloaded chunk
    removes exactly the objects it added.
- **Avatar.** The avatar is an Idle / Run / Jump state machine.
  - Energy is clamped to [0, 100].
  - Running costs 2 per frame on the ground.
  - Standing still regains 1 per frame.
  - A jump costs 20. One double jump per flight costs 50.
  - Every actual change of energy is broadcast to the registered listeners.
- **Fruit.** An active fruit touched by the avatar disappears and awards 10
  energy through its callback. It respawns in place 30 seconds later.

Files and modules:

- `grid.dfy` (`Grid`): the block size, the generated objects `Obj`, and
  floored/ceiled alignment to the grid.
- `seqs.dfy` (`Seqs`): associativity of sequence concatenation.
- `terrain.dfy` (`TerrainGen`): `BlocksFrom`, the column-by-column
  specification, and the imperative `CreateInRange` proved equal to it.
- `flora_pack.dfy` (`Pack`): the `FloraPack` class over three arrays.
- `flora.dfy` (`FloraGen`):
  - `PlantsFrom`, the specification of a range's flora;
  - `TreeColumns`, the tree columns of a range;
  - the imperative `CreateInRange`, which builds a fresh `FloraPack`.
- `avatar.dfy` (`AvatarModel`):
  - a value-level specification of one frame, `Tick`, built from `IdleStep`,
    `RunStep` and `JumpStep`. Energy notifications are an honest change log
    (`Changes`);
  - the `Avatar` class, whose methods update its fields in place and are proved
    to follow that specification. This includes the log of listener calls
    (`Broadcast`).
- `fruit.dfy` (`FruitModel`): the value-level lifecycle (`Collide`, `Advance`,
  the invariant `Consistent`) and the `Fruit` class.
- `game_manager.dfy` (`Pepse`):
  - the `PepseGameManager` class. It holds the loaded-chunk map (`loadedChunks`)
    and the chunk-managed part of the engine's object collection (`world`, a
    multiset of object/layer pairs);
  - the set-level specification of streaming (`Synced`);
  - lemmas relating streaming to the generators.

Source paths below are relative to the repository root.

## Model

| member | source | states |
|---|---|---|
| Grid.AlignDown | src/pepse/world/Terrain.java:80 | the result is a multiple of the block size and the largest one not above x, also for negative x (floor division) |
| Grid.AlignUp | src/pepse/world/Terrain.java:81 | the result is a multiple of the block size and the smallest one not below x, also for negative x (ceiling division) |
| Grid.Boundary | src/pepse/PepseGameManager.java:168-169 | a whole number of blocks (such as a chunk edge) is left in place by both alignments |
| Grid.FloorToBlock | src/pepse/PepseGameManager.java:93-94 | a height floored to the grid is a block multiple, at most the height and less than one block below it |
| TerrainGen.GroundHeightAt | src/pepse/world/Terrain.java:52-67 | the ground height at x is two thirds of the window height plus the seeded noise at x; it depends on x and the generator only (a definition, no contract) |
| TerrainGen.ColumnTop | src/pepse/world/Terrain.java:84 | a column's surface block starts on the grid, at or above the ground height and less than one block above it |
| TerrainGen.CreateInRange | src/pepse/world/Terrain.java:76-94 | the blocks returned are exactly BlocksFrom of the range with minX aligned down and maxX aligned up: every column of the closed range, left to right, twenty blocks each |
| TerrainGen.AddStack | src/pepse/world/Terrain.java:86-91 | the inner loop appends exactly the twenty blocks of one column, each one block below the last, starting at the surface block |
| TerrainGen.BlocksFromLength | src/pepse/world/Terrain.java:83-91 | a range of n columns yields exactly 20 * n blocks; an empty range yields none |
| TerrainGen.BlocksFromAt | src/pepse/world/Terrain.java:83-91 | block j lies in column x + 30 * (j / 20), inside the range, at depth j % 20 below that column's surface |
| TerrainGen.BlocksFromOrdered | src/pepse/world/Terrain.java:83-91 | the output is ordered by increasing x, and by increasing y within a column |
| TerrainGen.BlocksFromAligned | src/pepse/world/Terrain.java:80-91 | from an aligned start every block's corner lies on the block grid |
| TerrainGen.OnGrid | src/pepse/world/Terrain.java:83 | stepping a whole number of blocks from a grid point lands on the grid |
| TerrainGen.ColumnInRange | src/pepse/world/Terrain.java:83-91 | each block of every grid column of a range appears in that range's output |
| TerrainGen.BlocksFromSplit | src/pepse/world/Terrain.java:83-91 | splitting a range at a grid column yields the concatenation of the two sub-ranges: a column's blocks do not depend on the range that asks for it |
| Pack.FloraPack.constructor | src/pepse/world/trees/FloraPack.java:27-33 | the pack stores the caller's three lists themselves (aliased, not copied) |
| Pack.FloraPack.GetTrunks | src/pepse/world/trees/FloraPack.java:38-40 | returns a new list with the trunks in order |
| Pack.FloraPack.GetLeaves | src/pepse/world/trees/FloraPack.java:45-47 | returns a new list with the leaves in order |
| Pack.FloraPack.GetFruits | src/pepse/world/trees/FloraPack.java:52-54 | returns a new list with the fruits in order |
| Pack.CopiesAreIndependent | src/pepse/world/trees/FloraPack.java:38-40 | writing into a getter's copy leaves the pack unchanged, and a second getter call returns the original contents |
| FloraGen.CreateInRange | src/pepse/world/trees/Flora.java:54-73 | the pack is new and its trunk, leaf and fruit lists are exactly PlantsFrom of the range with both ends aligned down: one tree per column whose first draw is below the cutoff, in column order |
| FloraGen.ToArray | src/pepse/world/trees/Flora.java:72 | the list handed to the pack is a new array with the list's elements in order |
| FloraGen.ColumnSeed | src/pepse/world/trees/Flora.java:63 | the seed of a column's Random is the hash of x and the world seed, nothing else (a definition, no contract; stated through HasTree) |
| FloraGen.HasTree | src/pepse/world/trees/Flora.java:63-65 | a tree stands at column x iff the first nextFloat() of the Random seeded with hash(x, worldSeed) is below 0.1f |
| FloraGen.TreeCutoffIsTenPercent | src/pepse/world/trees/Flora.java:22 | a 24-bit draw is below the integer cutoff exactly when nextFloat() < 0.1f |
| FloraGen.PlantsSplit | src/pepse/world/trees/Flora.java:62-70 | splitting a range at a grid column joins the two sub-ranges' flora list by list |
| FloraGen.JoinAssociative | src/pepse/world/trees/Flora.java:66-69 | list-by-list concatenation of flora is associative |
| FloraGen.ColumnIndependentOfRange | src/pepse/world/trees/Flora.java:62-70 | whatever range asks for a column, that column contributes the same plants, placed between the columns before and after it |
| FloraGen.TrunksFollowTreeColumns | src/pepse/world/trees/Flora.java:62-70 | there is one trunk per tree column, in column order, and nothing else in the trunk list |
| FloraGen.TreeColumnsExactly | src/pepse/world/trees/Flora.java:62-70 | a column holds a tree of the range iff it is on the range's grid, inside the range, and its first draw is below the cutoff |
| FloraGen.TreeColumnsIncreasing | src/pepse/world/trees/Flora.java:62-70 | tree columns come out strictly increasing, so no column yields two trees |
| FruitModel.Collide | src/pepse/world/trees/Fruit.java:64-76 | only an active fruit touched by the avatar reacts: it becomes inactive, awards the bonus exactly once and schedules one respawn 30 s later; any other contact changes nothing; the lifecycle invariant is kept |
| FruitModel.Advance | src/pepse/world/trees/Fruit.java:75-84 | the clock advances by dt; a due respawn makes the fruit active with nothing pending; a step that does not reach the deadline only moves the clock; a fruit becomes active only through a due respawn; an active fruit stays active; the lifecycle invariant is kept |
| FruitModel.AwardsSpacedByRespawn | src/pepse/world/trees/Fruit.java:64-84 | over any sequence of contacts and elapsed time, 30 s times the number of awards is at most the fruit's allowance plus the time that passed |
| FruitModel.ActiveStaysActive | src/pepse/world/trees/Fruit.java:64-84 | time passing never changes an active fruit with nothing pending, except its clock |
| FruitModel.PendingRespawnRuns | src/pepse/world/trees/Fruit.java:75-84 | a pending respawn runs exactly on the first clock advance that reaches its deadline: before, only the clock moves; from then on the fruit is active with nothing pending |
| FruitModel.BackAfterRespawnSeconds | src/pepse/world/trees/Fruit.java:64-84 | a collected fruit is inactive through every advance ending less than 30 s after collection and active once 30 s have passed: it comes back 30 s later, not earlier and not later |
| FruitModel.Fruit.constructor | src/pepse/world/trees/Fruit.java:40-54 | a new fruit is active and fully opaque at its position, with nothing pending and nothing awarded |
| FruitModel.Fruit.OnCollisionEnter | src/pepse/world/trees/Fruit.java:64-76 | the new state and the callback values follow Collide, and the invariant (including opacity matching activity) is kept |
| FruitModel.Fruit.Respawn | src/pepse/world/trees/Fruit.java:81-84 | the fruit is active and fully opaque again |
| FruitModel.Fruit.Elapse | src/pepse/world/trees/Fruit.java:75-84 | the new state follows Advance, no award is made, and the invariant is kept |
| AvatarModel.Clamp | src/pepse/world/avatar/Avatar.java:255-257 | the result is within [0, 100]; it equals the input when the input is in range, 0 below and 100 above |
| AvatarModel.ChangesConcat | src/pepse/world/avatar/Avatar.java:255-261 | two honest change logs in a row form one honest change log |
| AvatarModel.SetEnergyStep | src/pepse/world/avatar/Avatar.java:255-261 | the new energy is the clamped request, and there is at most one note, present exactly when the value changed |
| AvatarModel.SpaceJustPressed | src/pepse/world/avatar/Avatar.java:219-222 | space counts as just pressed iff it is held now and was not held at the previous update (a definition, no contract; see HeldSpaceIsNotPressedAgain) |
| AvatarModel.HeldSpaceIsNotPressedAgain | src/pepse/world/avatar/Avatar.java:219-222 | edge triggering: after a frame with space held, a next frame with space still held is not a new press |
| AvatarModel.Direction | src/pepse/world/avatar/Avatar.java:405-414 | the horizontal velocity is 0 when both or neither arrow is held, -400 for left only and +400 for right only |
| AvatarModel.ChooseNextState | src/pepse/world/avatar/Avatar.java:192-205 | Jump iff not on ground; Run iff on ground with exactly one arrow and energy at least 2; otherwise Idle |
| AvatarModel.GroundJumpStep | src/pepse/world/avatar/Avatar.java:362-367 | the regular jump fires iff on ground, space just pressed and energy at least 20; it then costs 20 and sets the jump velocity, otherwise nothing changes |
| AvatarModel.IdleStep | src/pepse/world/avatar/Avatar.java:355-368 | horizontal velocity 0; on ground, energy first grows by 1 (clamped), then the regular jump is tested on the new energy; in the air nothing else changes; energy stays in range with an honest change log |
| AvatarModel.RunMoveStep | src/pepse/world/avatar/Avatar.java:404-431 | no arrow or both: stop, free; on ground with at least 2 energy: move and pay 2; on ground with less: stop; in the air: move for free |
| AvatarModel.RunStep | src/pepse/world/avatar/Avatar.java:404-438 | the run move, then the regular jump tested on the energy left after it; energy stays in range with an honest change log |
| AvatarModel.JumpStep | src/pepse/world/avatar/Avatar.java:472-502 | horizontal velocity follows the arrows; the double jump fires iff airborne, falling, not used, space just pressed and energy at least 50, costing 50, marking it used and setting the jump velocity; otherwise nothing else changes |
| AvatarModel.BeginFrame | src/pepse/world/avatar/Avatar.java:170-181 | the engine's vertical velocity is taken, the double jump stays used only while airborne, the state becomes the one chooseNextState picks, and energy, horizontal velocity and the space memory are untouched |
| AvatarModel.StateStep | src/pepse/world/avatar/Avatar.java:183 | the current state's update never switches state or touches the space memory; Jump sets the horizontal velocity from the arrows, Idle stops; only Jump can use the double jump; energy stays in range with an honest change log |
| AvatarModel.Tick | src/pepse/world/avatar/Avatar.java:169-185 | one frame: the state is the choice made on the engine's velocity, the space key is remembered, the double jump is cleared on ground and stays used while airborne, a newly used double jump cost 50 while falling, and energy stays in range with an honest change log |
| AvatarModel.Simulate | src/pepse/world/avatar/Avatar.java:169-185 | energy stays within [0, 100] over any sequence of frames |
| AvatarModel.AtMostOneDoubleJumpPerFlight | src/pepse/world/avatar/Avatar.java:172-174 | while the avatar never touches ground, at most one double jump fires, and none if one was already used |
| AvatarModel.Fanout | src/pepse/world/avatar/Avatar.java:280-284 | every listener, in registration order, receives the value exactly once |
| AvatarModel.BroadcastConcat | src/pepse/world/avatar/Avatar.java:280-284 | broadcasting two runs of values is broadcasting their concatenation |
| AvatarModel.AppendBroadcasts | src/pepse/world/avatar/Avatar.java:280-284 | a log extended by two broadcasts is the log extended by one broadcast of both value runs |
| AvatarModel.Avatar.constructor | src/pepse/world/avatar/Avatar.java:96-153 | a new avatar has full energy, is Idle, has both flags clear and no listeners |
| AvatarModel.Avatar.NotifyEnergyChanged | src/pepse/world/avatar/Avatar.java:280-284 | the calls made are one per listener, in order, with the current energy |
| AvatarModel.Avatar.SetEnergy | src/pepse/world/avatar/Avatar.java:255-261 | energy becomes the clamped request, and the listeners are notified exactly when it changed |
| AvatarModel.Avatar.SpendEnergy | src/pepse/world/avatar/Avatar.java:263-265 | SetEnergy of energy minus the amount |
| AvatarModel.Avatar.AddEnergy | src/pepse/world/avatar/Avatar.java:267-269 | SetEnergy of energy plus the amount |
| AvatarModel.Avatar.IncreaseEnergy | src/pepse/world/avatar/Avatar.java:276-278 | energy becomes the clamped sum and stays in range; listeners are notified iff it changed |
| AvatarModel.Avatar.AddEnergyChangedListener | src/pepse/world/avatar/Avatar.java:292-295 | the listener is appended and receives the current energy immediately, once |
| AvatarModel.Avatar.GroundJump | src/pepse/world/avatar/Avatar.java:362-367 | the state and listener calls follow GroundJumpStep |
| AvatarModel.Avatar.IdleUpdate | src/pepse/world/avatar/Avatar.java:355-368 | the state and listener calls follow IdleStep |
| AvatarModel.Avatar.RunUpdate | src/pepse/world/avatar/Avatar.java:404-438 | the state and listener calls follow RunStep |
| AvatarModel.Avatar.RunMove | src/pepse/world/avatar/Avatar.java:405-431 | the state and listener calls follow RunMoveStep, and energy stays in range |
| AvatarModel.Avatar.JumpUpdate | src/pepse/world/avatar/Avatar.java:472-502 | the state and listener calls follow JumpStep |
| AvatarModel.Avatar.Update | src/pepse/world/avatar/Avatar.java:169-185 | the state and listener calls follow Tick, energy stays in range, and the listeners and position are untouched |
| AvatarModel.Avatar.BeginUpdate | src/pepse/world/avatar/Avatar.java:170-180 | the engine's vertical velocity is taken, the double jump is cleared on ground, and the chosen state becomes current |
| AvatarModel.Avatar.UpdateCurrentState | src/pepse/world/avatar/Avatar.java:183 | the current state's update runs: the result follows IdleStep, RunStep or JumpStep by the current kind |
| AvatarModel.Avatar.OnCollisionEnter | src/pepse/world/avatar/Avatar.java:237-253 | falling onto a block with an upward contact normal stops the fall and puts the avatar on top of the block; any other contact changes nothing |
| Pepse.OnLayer | src/pepse/PepseGameManager.java:173-191 | each object is recorded once, in order, with the layer it went to |
| Pepse.ChunkOf | src/pepse/PepseGameManager.java:136 | the chunk of x is the one whose [id * 300, (id + 1) * 300) interval holds x (floor division, also for negative x) |
| Pepse.Range | src/pepse/PepseGameManager.java:140 | exactly the ids from lo to hi |
| Pepse.Synced | src/pepse/PepseGameManager.java:135-159 | after streaming around c: the window c-3..c+3 is loaded, nothing outside c-5..c+5 is, loaded chunks within the band stay, and nothing else is added |
| Pepse.Ids | src/pepse/PepseGameManager.java:45 | every entry's id is a key of the map |
| Pepse.IdsAppend | src/pepse/PepseGameManager.java:193 | adding an entry adds its id |
| Pepse.TotalAppend | src/pepse/PepseGameManager.java:193 | adding an entry adds its objects to the total |
| Pepse.KeepAppend | src/pepse/PepseGameManager.java:151-158 | the unload pass keeps a new last entry iff its id is within the band |
| Pepse.KeepAll | src/pepse/PepseGameManager.java:151-158 | when every id is within the band, the unload pass keeps every entry |
| Pepse.TotalConcat | src/pepse/PepseGameManager.java:151-158 | the total of two entry lists is the sum of their totals |
| Pepse.TotalSuffix | src/pepse/PepseGameManager.java:151-158 | the total of the unvisited entries is the next entry's objects plus the rest |
| Pepse.RemovePart | src/pepse/PepseGameManager.java:201-205 | removing a chunk's objects from a world that holds them leaves the rest |
| Pepse.KeepStep | src/pepse/PepseGameManager.java:151-158 | an entry inside the band joins the kept list, and the world still holds kept and unvisited entries |
| Pepse.DropStep | src/pepse/PepseGameManager.java:151-158 | an entry outside the band is dropped, and removing its objects leaves the kept and unvisited entries |
| Pepse.KeepIds | src/pepse/PepseGameManager.java:151-158 | after the unload pass an id is loaded iff it was loaded and lies within the band |
| Pepse.KeepDistinct | src/pepse/PepseGameManager.java:151-158 | the unload pass keeps the map free of duplicate ids |
| Pepse.AppendEntry | src/pepse/PepseGameManager.java:167-194 | loading a chunk not yet loaded keeps the map free of duplicates and correctly recorded, adds its id and adds exactly its contents |
| Pepse.KeepRecorded | src/pepse/PepseGameManager.java:151-158 | the entries left by the unload pass still record exactly what loading their chunks created |
| Pepse.ChunkInTotal | src/pepse/PepseGameManager.java:167-194 | the objects of every loaded chunk are in the world |
| Pepse.WindowGrows | src/pepse/PepseGameManager.java:140-144 | after the turn for chunk c, the loaded ids are those loaded before plus the window up to c |
| Pepse.LoadThenKeep | src/pepse/PepseGameManager.java:135-159 | loading the window and then keeping the band leaves exactly Synced loaded |
| Pepse.AddedInOrder | src/pepse/PepseGameManager.java:173-191 | adding two lists one after the other adds their concatenation |
| Pepse.RemoveStep | src/pepse/PepseGameManager.java:202-204 | removing one more recorded object removes one more element of the list |
| Pepse.SyncedBounded | src/pepse/PepseGameManager.java:37-38 | at most 11 chunks are loaded after any streaming step |
| Pepse.BandCardinality | src/pepse/PepseGameManager.java:147-158 | a set of ids within lo..hi has at most hi - lo + 1 elements |
| Pepse.SyncedIdempotent | src/pepse/PepseGameManager.java:135-159 | streaming twice around the same chunk changes nothing the second time |
| Pepse.NoChurn | src/pepse/PepseGameManager.java:37-38 | after moving to a chunk at most two away and back, streaming loads and unloads nothing |
| Pepse.ChunkTerrainColumns | src/pepse/PepseGameManager.java:170-173 | a chunk's range is already aligned, so its terrain is 11 whole columns of 20 blocks |
| Pepse.ChunkBoundaryShared | src/pepse/PepseGameManager.java:170-189 | the column on the boundary between two chunks is generated by both: its blocks end one chunk's terrain and start the next one's, and so does its flora |
| Pepse.GroundAroundLoaded | src/pepse/PepseGameManager.java:135-144 | when the window is loaded, every block of every grid column within it is in the world as a static object |
| Pepse.ColumnInChunk | src/pepse/PepseGameManager.java:170-177 | a chunk's contents hold every block of every grid column of its range, as static objects |
| Pepse.ColumnInTerrain | src/pepse/PepseGameManager.java:170-177 | gives the position of each such block among the chunk's terrain objects |
| Pepse.SpawnTop | src/pepse/PepseGameManager.java:92-95 | the avatar's feet start on a block boundary, at most the ground height at the spawn x and less than one block above it |
| Pepse.PepseGameManager.constructor | src/pepse/PepseGameManager.java:69-115 | the avatar is new, Idle with full energy, its top at the spawn height (SpawnTop), the energy display is its only listener and has been told the starting energy 100 once; the chunks around the spawn x plus half the avatar's size are loaded as Synced from nothing; the map and world invariant holds |
| Pepse.PepseGameManager.Update | src/pepse/PepseGameManager.java:123-127 | the loaded ids become Synced around the chunk of the centre x the caller passes (the avatar's centre), and the invariant is kept |
| Pepse.PepseGameManager.EnsureChunksAround | src/pepse/PepseGameManager.java:135-159 | the loaded ids become Synced around centerX's chunk; no chunk is loaded twice, every entry records what loading it created, and the world holds exactly the loaded chunks' objects |
| Pepse.PepseGameManager.LoadMissing | src/pepse/PepseGameManager.java:140-144 | afterwards the loaded ids are those before plus the whole window; when the window was already loaded, nothing changes |
| Pepse.PepseGameManager.UnloadOutside | src/pepse/PepseGameManager.java:147-158 | the map becomes its entries within the band, in order, and the invariant is kept; when every id was within the band, nothing changes |
| Pepse.PepseGameManager.UnloadEntries | src/pepse/PepseGameManager.java:147-158 | the entries kept are those within the band, and the world holds exactly their objects |
| Pepse.PepseGameManager.VisitEntry | src/pepse/PepseGameManager.java:152-157 | one turn of the walk: the entry is kept or its objects removed, and the world still holds kept and unvisited entries |
| Pepse.PepseGameManager.AddAll | src/pepse/PepseGameManager.java:173-191 | each object is added to the world on its layer and recorded, in order |
| Pepse.PepseGameManager.AddChunkObjects | src/pepse/PepseGameManager.java:167-192 | the recorded list is the chunk's terrain and then its flora, and the world grows by exactly that |
| Pepse.PepseGameManager.AddTerrain | src/pepse/PepseGameManager.java:170-176 | every terrain block of the range is added as a static object |
| Pepse.PepseGameManager.AddFlora | src/pepse/PepseGameManager.java:178-191 | trunks are added as static objects, then leaves and fruits on the default layer, in the pack's order |
| Pepse.PepseGameManager.LoadChunk | src/pepse/PepseGameManager.java:167-194 | the map gains one entry for the chunk with exactly its contents, the world grows by them, and the invariant is kept |
| Pepse.PepseGameManager.UnloadChunk | src/pepse/PepseGameManager.java:201-205 | the world loses exactly the recorded objects |
| Pepse.PepseGameManager.OnFruitCollected | src/pepse/PepseGameManager.java:212-216 | when there is an avatar, its energy grows by the bonus, clamped; its listeners are told the new value once iff it changed; nothing else about the avatar changes |

## Left out

- Floating point. The source keeps energy, velocities, positions and the
  fruit's bonus as `float`. The model uses integers for energy, the horizontal
  velocity and the bonus: every amount the source adds to or spends from
  energy is a whole number, and the horizontal velocity is always 0 or +/-400.
  The vertical velocity the engine's gravity step leaves is in general
  fractional; the model takes it as an integer (`Frame.vy`). The source only
  tests it for `== 0` and `> 0` and otherwise sets it to 0 or -650, so an
  integer stand-in with the same sign and zeroness loses no decision; its
  magnitude is not modelled. Heights and positions are reals; float rounding
  of the ground height is not modelled.
- 32-bit arithmetic: chunk ids, block coordinates and `(int) Math.floor(...)`
  casts are unbounded integers; overflow far from the origin is not modelled.
- The engine's physics step (gravity, integration of position, collision
  detection) is outside the model: each frame receives the vertical velocity
  the engine left (`Frame.vy`), and a collision arrives as a tag, the collider's
  top and the contact normal's y. `super.update` is therefore not modelled.
- The avatar is "on ground" whenever its vertical velocity is 0, as the source
  tests it; the apex of a jump, where the velocity passes exactly 0, counts as
  ground in both the source and the model.
- Animations, the facing flip and the renderables (`onEnter`/`onExit`,
  `updateFacing`, `loadAnimation`) have no effect on the modelled state.
- Listener callbacks are outside the model: a listener is an identity and a
  call is recorded in the avatar's call log. A listener that calls back into
  the avatar while being notified is not modelled.
- The fruit's callback is recorded as a log of awarded values on the fruit;
  the connection from that callback to `OnFruitCollected` is modelled as the
  separate method on the manager.
- `ScheduledTask`: the respawn is an explicit deadline on a clock that the
  frame driver advances; it is taken to fire on the first clock advance that
  reaches the deadline. A respawn still pending when its chunk unloads is not
  cancelled in the source, and is not modelled.
- The noise generator, `Objects.hash`, `java.util.Random` and `Tree.createAt`
  are fields of the `Terrain` and `Flora` values (a function of their inputs).
  Tree contents (trunk, leaves, fruits) are opaque handles.
- Day/night cycle, sky, leaves' wind animation, the energy display, blocks'
  and trunks' rendering, `main` and the camera are not part of this model.
- The loaded-chunk `HashMap` is a list of entries with at most one entry per
  id, in insertion order; `HashMap`'s bucket order is not modelled. It only
  changes the order in which the unloaded chunks' objects are removed, which
  the multiset world does not observe.
- The boundary column between two adjacent chunks is generated by both chunks
  (both ends of a chunk's range are inclusive); the model keeps this behaviour
  and states it (`Pepse.ChunkBoundaryShared`).
- The FloraPack lists are arrays: the lists are never resized after they are
  handed over.
- The avatar's horizontal position is not modelled: `AvatarModel.Avatar`
  holds only its top y. The caller passes the avatar's centre x to
  `Pepse.PepseGameManager.Update`, and the constructor passes the spawn x plus
  half the avatar's size.
- The manager's avatar is assigned once during initialization and never
  replaced, so it is a constant field.
- Pepse.PepseGameManager.EnsureChunksAround: that a second call around the same
  chunk changes nothing is stated on `LoadMissing` and `UnloadOutside` and for
  the ids (`Pepse.SyncedIdempotent`), not as one postcondition of the whole call.
