# Spine two-colour batching and render-state selection for cocos2d-x

This project models two pieces of the spine-cocos2dx runtime in Dafny and proves properties of them.

**The two-colour batch (`SkeletonTwoColorBatch`).** Each frame, the skeleton renderers take `TwoColorTrianglesCommand` objects from a command pool that only grows. They put the geometry into a per-frame arena: a bump allocator for vertices and indices that grows on demand. `batch(command)` copies each command's geometry into two fixed-size staging buffers (64000 vertices, 64000 indices) and issues one draw call per batch. A new batch starts in three cases:

- the staging buffers would overflow;
- the material ID changes;
- the command forces a flush.

**The render-state selection of `SkeletonRenderer::draw` (cocos2d-x 3).** This part covers:

- which slots submit a command, and in what order;
- the tint written into each vertex;
- the x/y copy into the attachment's vertex array;
- the blend-factor table, including the `"mask_"` override.

Files:

- `cocos_types.dfy` (module `CocosTypes`): the fixed-width integers, the GL blend factors and the vertex records.
- `batch_spec.dfy` (module `BatchSpec`): the batch accumulator as a pure state machine.
  - `Step` is one `batch` call, `Flush` one `flush` call and `Run` a sequence of `batch` calls.
  - The main result is `DrawsAreMaximalRuns`. Take commands that fit the buffers together, none but the last forcing a flush. The draws they produce are exactly the maximal runs of consecutive commands with equal material IDs, in submission order. Each draw is sized to its run's totals and bound to the run's last command. The last run stays staged unless the last command forces a flush.
- `two_color_batch.dfy` (module `TwoColorBatch`): the classes `Command` (`TwoColorTrianglesCommand`) and `SkeletonTwoColorBatch`.
  - The staging buffers are arrays written in loops. The draw log is ghost state.
  - `Batch` is proved to follow `BatchSpec.Step` and `Flush` to follow `BatchSpec.Flush`, so every lemma of `BatchSpec` applies to the class.
  - Arena pointers are modelled as `Ref(store, offset)`. `store` names the backing storage, which changes whenever it is reallocated. The offset is the distance from the start of that storage.
- `skeleton_renderer.dfy` (module `SkeletonRenderer`): the slot loop of `draw`. Its spec function `Submissions` lists the commands submitted. There is also the in-place vertex loop and the blend and colour functions.

Three behaviours of the code are kept as written:

- **Frame end does not flush.** `reset` (called from `update`, SkeletonTwoColorBatch.cpp:308-310) only zeroes the counters, so a frame's last partial batch is never drawn.
  - In the model, `Reset` leaves the draw log as it was and drops the staged geometry.
  - `DrawsAreMaximalRuns` accordingly states that the last run stays staged.
- **Pool growth is `size * 2 + 1`.** When `nextFreeCommand` finds the pool used up, it grows it from n to 2n + 1 commands (SkeletonTwoColorBatch.cpp:499-504).
- **`flush` does not check for an empty batch.** A force flush followed by a change of material logs a draw with no geometry (`ForceFlushThenMaterialChange`).

The arena is filled by the callers of `allocateVertices` and `allocateIndices`, which write through the pointers returned. `StoreVertices` and `StoreIndices` are those writes.

Parameters stand in for external code:

- The XXH32 hash of the material key is the constant function field `hash` of the batch.
- `Mat4::transformPoint` is the constant function field `transformPoint`.
- A slot's world vertices are an input of the slot: the attachment's `computeWorldVertices` produces them.

## Model

| member | source | states |
|---|---|---|
| TwoColorBatch.TruncateToTriangles | spine-cocos2dx/src/spine/SkeletonTwoColorBatch.cpp:60-64 | the index count kept is a multiple of 3, at most the given count and less than 3 below it; a count that is already a multiple of 3 is kept as is |
| TwoColorBatch.TruncationIsIdempotent | spine-cocos2dx/src/spine/SkeletonTwoColorBatch.cpp:60-64 | truncating an already truncated count changes nothing, so re-initialising a command with its own triangles keeps its index count |
| TwoColorBatch.GenerateMaterialID | spine-cocos2dx/src/spine/SkeletonTwoColorBatch.cpp:87-107 | the reference definition of the material ID: the hash of a key made of the texture, the two blend factors and the program state, with the GL program not among them. The contracts of `Command.Init` and `MaterialIDIgnoresProgram` are stated against it |
| TwoColorBatch.MaterialIDIgnoresProgram | spine-cocos2dx/src/spine/SkeletonTwoColorBatch.cpp:87-107 | in the model, two initialised commands with equal texture, blend factors and program state have equal material IDs, whatever their GL programs (see `TwoColorBatch.GenerateMaterialID` under Left out for the padding bytes of the code's key) |
| TwoColorBatch.Command.constructor | spine-cocos2dx/src/spine/SkeletonTwoColorBatch.cpp:46-49 | a new command has material ID 0, texture 0, blend `BlendFunc::DISABLE`, a null program state and a null program, as the initialiser list sets them; the fields it leaves unset take the model's choices listed under Left out |
| TwoColorBatch.Command.Init | spine-cocos2dx/src/spine/SkeletonTwoColorBatch.cpp:51-82 | the triangles are stored with the index count truncated to whole triangles; the texture, blend, program state, program, order and matrix are stored; afterwards the material ID is the hash of the new key; when the key and the program are unchanged the previous ID is kept; the force-flush flag is untouched |
| TwoColorBatch.SkeletonTwoColorBatch.constructor | spine-cocos2dx/src/spine/SkeletonTwoColorBatch.cpp:312-363 | the pool holds 10000 fresh commands, each in the state `Command.constructor` gives it (the model's default render state, no triangles, no force flush), none handed out; the vertex arena is empty; the index array has capacity 8 and size 0; nothing is staged or drawn |
| TwoColorBatch.SkeletonTwoColorBatch.Flush | spine-cocos2dx/src/spine/SkeletonTwoColorBatch.cpp:456-486 | with a null command nothing changes; otherwise one draw of exactly the staged vertices and indices is logged under that command's material, even an empty one, both staged counts become 0 and the batch count rises by one; the pool and the arena are untouched |
| TwoColorBatch.SkeletonTwoColorBatch.Reset | spine-cocos2dx/src/spine/SkeletonTwoColorBatch.cpp:488-496 | the next free command, both arena sizes, both staged counts and the batch count become 0 and the last command is forgotten; no draw is issued, and the pool is kept |
| TwoColorBatch.SkeletonTwoColorBatch.RelocateVertices | spine-cocos2dx/src/spine/SkeletonTwoColorBatch.cpp:376-380 | every command handed out this frame points to the same vertex offset in the new storage; the other commands and all render states are untouched |
| TwoColorBatch.SkeletonTwoColorBatch.RelocateIndices | spine-cocos2dx/src/spine/SkeletonTwoColorBatch.cpp:400-406 | a command handed out this frame is re-pointed to the same offset in the new storage only if its indices lay in the used part of the old storage; nothing else changes |
| TwoColorBatch.SkeletonTwoColorBatch.GrowVertices | spine-cocos2dx/src/spine/SkeletonTwoColorBatch.cpp:372-381 | the vertex vector grows to (size + count) * 2 + 1 in new storage, keeping its contents and padding with value-initialised vertices; the live commands are re-pointed; staging and the index arena are untouched |
| TwoColorBatch.SkeletonTwoColorBatch.AllocateVertices | spine-cocos2dx/src/spine/SkeletonTwoColorBatch.cpp:371-386 | the result is the previous used count in the current storage; the used count rises by exactly `count` and stays within the size; the storage and the commands are unchanged when there was room, and are grown and re-pointed otherwise |
| TwoColorBatch.SkeletonTwoColorBatch.DeallocateVertices | spine-cocos2dx/src/spine/SkeletonTwoColorBatch.cpp:389-391 | the used vertex count falls by exactly `count`; nothing else changes |
| TwoColorBatch.SkeletonTwoColorBatch.GrowIndices | spine-cocos2dx/src/spine/SkeletonTwoColorBatch.cpp:395-407 | the index array moves to new storage of capacity size + count, keeping its used entries; only commands whose indices lay in the used part are re-pointed |
| TwoColorBatch.SkeletonTwoColorBatch.AllocateIndices | spine-cocos2dx/src/spine/SkeletonTwoColorBatch.cpp:394-412 | the result is the previous size in the current storage; the size rises by exactly `count` and stays within the capacity; the storage and the commands are unchanged when there was room, and grown and selectively re-pointed otherwise |
| TwoColorBatch.SkeletonTwoColorBatch.DeallocateIndices | spine-cocos2dx/src/spine/SkeletonTwoColorBatch.cpp:414-416 | the index array size falls by exactly `count`; nothing else changes |
| TwoColorBatch.SkeletonTwoColorBatch.StoreVertices | spine-cocos2dx/src/spine/SkeletonTwoColorBatch.cpp:383-385 | a caller's write through the pointer `allocateVertices` returned: the vertices read back from that place are the ones written, the arena keeps its size and every other vertex, and nothing staged changes |
| TwoColorBatch.SkeletonTwoColorBatch.StoreIndices | spine-cocos2dx/src/spine/SkeletonTwoColorBatch.cpp:409-411 | a caller's write through the pointer `allocateIndices` returned: the indices read back from that place are the ones written, the array keeps its capacity and every other entry, and nothing staged changes |
| TwoColorBatch.SkeletonTwoColorBatch.FlushBefore | spine-cocos2dx/src/spine/SkeletonTwoColorBatch.cpp:426-433 | the staged state becomes `BatchSpec.Prepare` of the old one: a flush with the last command's material when the command would reach a capacity, then one more when the last command's material ID differs; afterwards the command fits beside what is staged |
| TwoColorBatch.SkeletonTwoColorBatch.CopyVertices | spine-cocos2dx/src/spine/SkeletonTwoColorBatch.cpp:435-439 | the staging vertex buffer holds the previously staged vertices followed by the command's vertices, each position moved by the command's model-view matrix |
| TwoColorBatch.SkeletonTwoColorBatch.CopyIndices | spine-cocos2dx/src/spine/SkeletonTwoColorBatch.cpp:441-445 | the staging index buffer keeps its previous entries, followed by each of the command's indices plus the staged vertex count, stored as an unsigned short |
| TwoColorBatch.SkeletonTwoColorBatch.Stage | spine-cocos2dx/src/spine/SkeletonTwoColorBatch.cpp:435-448 | the staged state becomes `BatchSpec.Append` of the old one: the command's geometry follows the staged geometry and both staged counts rise by the command's counts |
| TwoColorBatch.SkeletonTwoColorBatch.FlushAfter | spine-cocos2dx/src/spine/SkeletonTwoColorBatch.cpp:450-453 | a force-flush command is flushed with its own material at once; either way it becomes the last command |
| TwoColorBatch.SkeletonTwoColorBatch.Batch | spine-cocos2dx/src/spine/SkeletonTwoColorBatch.cpp:425-454 | the new staged state and draw log are `BatchSpec.Step` of the old ones for this command's material, transformed vertices and indices; the batch count rises by the number of draws issued; the pool and the arena are untouched |
| TwoColorBatch.SkeletonTwoColorBatch.GrowPool | spine-cocos2dx/src/spine/SkeletonTwoColorBatch.cpp:499-504 | the pool grows to size * 2 + 1, keeping its commands in place and adding fresh, default-initialised ones |
| TwoColorBatch.SkeletonTwoColorBatch.NextFreeCommand | spine-cocos2dx/src/spine/SkeletonTwoColorBatch.cpp:498-508 | the result is the pooled command at the old next-free index and the index advances by one; the pool grows to size * 2 + 1 exactly when it was used up and never shrinks; the command handed out has its force-flush flag cleared and keeps its render state and triangles, which are the model's constructor state when it was just created; the other commands the growth adds are in the model's constructor state (`DefaultRender`, no triangles, no force flush); earlier commands, the arena and the staging state are untouched |
| TwoColorBatch.SkeletonTwoColorBatch.AddCommand | spine-cocos2dx/src/spine/SkeletonTwoColorBatch.cpp:418-423 | the next free command, initialised: its render state is the one given, its material ID the hash of the key, its triangles truncated, its flag cleared; the pool grows to size * 2 + 1 exactly when it was used up and never shrinks, and the other commands the growth adds are in the model's constructor state; every earlier pooled command, the arena and the staging state are untouched |
| BatchSpec.Flush | spine-cocos2dx/src/spine/SkeletonTwoColorBatch.cpp:456-486 | without a command nothing happens; with one, exactly one draw of the staged vertices and indices is added to the log under that command's material, even an empty one, and nothing stays staged; the last command is kept |
| BatchSpec.Prepare | spine-cocos2dx/src/spine/SkeletonTwoColorBatch.cpp:426-433 | the flushes before the append: the last command is kept, at most two draws are added and earlier draws are kept; when no draw is added nothing changes, and when one is added nothing stays staged |
| BatchSpec.Shift | spine-cocos2dx/src/spine/SkeletonTwoColorBatch.cpp:441-444 | the index moved by the staged vertex count, stored as an unsigned short: exact when the sum fits, unchanged when the offset is a multiple of 65536 |
| BatchSpec.Remap | spine-cocos2dx/src/spine/SkeletonTwoColorBatch.cpp:441-445 | one remapped index per index, each the index plus the offset whenever that sum fits an unsigned short |
| BatchSpec.Append | spine-cocos2dx/src/spine/SkeletonTwoColorBatch.cpp:435-448 | the staged geometry keeps its entries and grows by the command's counts; the log and the last command are kept; when the staged vertices fit 16-bit indices, every appended index that named vertex v of the command names the same vertex among the staged vertices |
| BatchSpec.Finish | spine-cocos2dx/src/spine/SkeletonTwoColorBatch.cpp:450-453 | the command becomes the last command; a force-flush command adds one draw of everything staged under its own material and leaves nothing staged; otherwise nothing else changes |
| BatchSpec.Step | spine-cocos2dx/src/spine/SkeletonTwoColorBatch.cpp:425-454 | after one `batch` the command is the last command; at most three draws are added and earlier draws are kept; after a force flush nothing is staged |
| BatchSpec.PrepareMakesRoom | spine-cocos2dx/src/spine/SkeletonTwoColorBatch.cpp:426-433 | after the two flushes a command that fits the buffers fits beside the staged geometry; when geometry is still staged it has the command's material ID; draws stay within capacity |
| BatchSpec.StepStaysBounded | spine-cocos2dx/src/spine/SkeletonTwoColorBatch.cpp:425-454 | if every command fits the buffers, the staged counts stay below MAX_VERTICES and MAX_INDICES, and every draw does too |
| BatchSpec.StepRemapsIndices | spine-cocos2dx/src/spine/SkeletonTwoColorBatch.cpp:435-448 | appending keeps the staged entries, adds the command's vertices, and writes staged index `prev + i` as `(indices[i] + staged vertex count) mod 65536` |
| BatchSpec.RemapByZero | spine-cocos2dx/src/spine/SkeletonTwoColorBatch.cpp:441-445 | with nothing staged the indices are copied unchanged |
| BatchSpec.SingleCommandRoundTrip | spine-cocos2dx/src/spine/SkeletonTwoColorBatch.cpp:435-453 | a lone force-flushed command in a new frame is drawn with exactly its own vertices and indices |
| BatchSpec.CapacityFlushAtExactFit | spine-cocos2dx/src/spine/SkeletonTwoColorBatch.cpp:426-428 | the capacity test is `>=`: a command that would fill the buffer exactly flushes the staged batch first |
| BatchSpec.ForceFlushThenMaterialChange | spine-cocos2dx/src/spine/SkeletonTwoColorBatch.cpp:430-453 | after a force flush, a command of another material makes `flush` log an empty draw |
| BatchSpec.CapacityFlushThenMaterialChange | spine-cocos2dx/src/spine/SkeletonTwoColorBatch.cpp:426-433 | a capacity flush followed by a material change logs the staged batch and then an empty draw, both under the previous material |
| BatchSpec.Runs | spine-cocos2dx/src/spine/SkeletonTwoColorBatch.cpp:430-433 | a command sequence cuts into non-empty runs, and into none only when it is empty |
| BatchSpec.RunsArePartition | spine-cocos2dx/src/spine/SkeletonTwoColorBatch.cpp:430-433 | the runs, concatenated in order, are the commands; each run has one material ID; neighbouring runs differ; the last run ends with the last command |
| BatchSpec.FlushClosesRun | spine-cocos2dx/src/spine/SkeletonTwoColorBatch.cpp:456-486 | flushing while a run is staged logs that run's draw and empties the staging buffers |
| BatchSpec.StepNewRun | spine-cocos2dx/src/spine/SkeletonTwoColorBatch.cpp:430-433 | a command whose material differs from the staged run's closes that run with one draw and opens a new run |
| BatchSpec.StepSameRun | spine-cocos2dx/src/spine/SkeletonTwoColorBatch.cpp:435-448 | a command with the staged run's material joins the run without a draw |
| BatchSpec.DrawsAreMaximalRuns | spine-cocos2dx/src/spine/SkeletonTwoColorBatch.cpp:425-454 | take commands that fit the buffers together, none but the last forcing a flush; the draws are exactly one per maximal equal-material run, in submission order, sized to the run's totals and bound to its last command; the last run stays staged unless the last command forces a flush |
| SkeletonRenderer.HasPrefix | spine-cocos2dx/3/src/spine/SkeletonRenderer.cpp:176 | the character-by-character comparison holds exactly when the name is at least as long as the prefix and starts with it |
| SkeletonRenderer.IsMask | spine-cocos2dx/3/src/spine/SkeletonRenderer.cpp:162-186 | a slot is a mask exactly when its attachment is a mesh and its name starts with `mask_`; region and weighted-mesh attachments are never masks |
| SkeletonRenderer.BlendFor | spine-cocos2dx/3/src/spine/SkeletonRenderer.cpp:214-231 | the blend-mode switch never yields ZERO as a factor; with premultiplied alpha the source factor is never SRC_ALPHA; the source factor is ONE, SRC_ALPHA or DST_COLOR |
| SkeletonRenderer.SelectBlend | spine-cocos2dx/3/src/spine/SkeletonRenderer.cpp:214-236 | the factors are (ONE, ZERO) exactly for a mask; no unmasked blend mode has destination ZERO |
| SkeletonRenderer.BlendModesAreDistinguished | spine-cocos2dx/3/src/spine/SkeletonRenderer.cpp:214-231 | without a mask, different blend modes give different factor pairs |
| SkeletonRenderer.PremultipliedAlphaOnlyChangesSource | spine-cocos2dx/3/src/spine/SkeletonRenderer.cpp:214-236 | premultiplied alpha never changes the destination factor; it changes the source factor exactly for unmasked normal and additive slots, so multiply, screen and masks ignore it |
| SkeletonRenderer.PremultipliedSourceFactor | spine-cocos2dx/3/src/spine/SkeletonRenderer.cpp:214-236 | with premultiplied alpha the source factor is never SRC_ALPHA; without it, it is SRC_ALPHA exactly for unmasked normal and additive slots |
| SkeletonRenderer.ToByte | spine-cocos2dx/3/src/spine/SkeletonRenderer.cpp:169-205 | a float stored into an unsigned char is truncated: the byte is at most the value and more than the value minus one |
| SkeletonRenderer.SkeletonColor | spine-cocos2dx/3/src/spine/SkeletonRenderer.cpp:149-153 | the skeleton colour taken from the node's colour and opacity lies in [0, 1] per channel |
| SkeletonRenderer.Scale | spine-cocos2dx/3/src/spine/SkeletonRenderer.cpp:201-205 | scaling a zero channel, or scaling by a zero multiplier, gives 0 |
| SkeletonRenderer.ScaledInRange | spine-cocos2dx/3/src/spine/SkeletonRenderer.cpp:201-205 | each colour product fits an unsigned char, so no conversion in the tint overflows |
| SkeletonRenderer.VertexColor | spine-cocos2dx/3/src/spine/SkeletonRenderer.cpp:169-205 | a masked slot's tint has alpha 0; with premultiplied alpha a tint of alpha 0 is black |
| SkeletonRenderer.PartialAttachmentChannelIsDropped | spine-cocos2dx/3/src/spine/SkeletonRenderer.cpp:169-205 | an attachment channel below 1.0 is truncated to 0 when stored into the byte colour, so that channel of the tint is 0 |
| SkeletonRenderer.Drawable | spine-cocos2dx/3/src/spine/SkeletonRenderer.cpp:160-199 | a slot submits a command exactly when it has an attachment and that attachment is a region, a mesh or a weighted mesh |
| SkeletonRenderer.SubmissionOf | spine-cocos2dx/3/src/spine/SkeletonRenderer.cpp:162-239 | a slot's command has blend (ONE, ZERO) exactly when the slot is a mesh named `mask_…`, and then its tint has alpha 0 |
| SkeletonRenderer.Submissions | spine-cocos2dx/3/src/spine/SkeletonRenderer.cpp:158-239 | the slot loop submits at most one command per slot, and every command it submits with blend (ONE, ZERO) has a tint of alpha 0 |
| SkeletonRenderer.SubmissionsFollowDrawOrder | spine-cocos2dx/3/src/spine/SkeletonRenderer.cpp:158-239 | slots without an attachment or with another attachment kind submit nothing; every other slot submits exactly one command; the command of drawable slot i comes right after those of the drawable slots before it |
| SkeletonRenderer.CountPrefixMonotone | spine-cocos2dx/3/src/spine/SkeletonRenderer.cpp:158-199 | the drawable slots of a prefix of the draw order, plus the slot that follows it, are no more than those of the whole order |
| SkeletonRenderer.Placed | spine-cocos2dx/3/src/spine/SkeletonRenderer.cpp:207-212 | the vertex loop keeps every z and texture coordinate and every vertex past the count |
| SkeletonRenderer.PlacedCarries | spine-cocos2dx/3/src/spine/SkeletonRenderer.cpp:207-212 | vertex v receives x = world[2v] and y = world[2v+1], and every vertex the tint |
| SkeletonRenderer.WriteVertices | spine-cocos2dx/3/src/spine/SkeletonRenderer.cpp:207-212 | the attachment's array afterwards is `Placed` of its previous contents |
| SkeletonRenderer.DrawSlot | spine-cocos2dx/3/src/spine/SkeletonRenderer.cpp:162-239 | a drawable slot submits `SubmissionOf` the slot; the attachment's vertex array afterwards is `Placed` of its previous contents with the command's world positions and tint, and `written` is its used part |
| SkeletonRenderer.Submit | spine-cocos2dx/3/src/spine/SkeletonRenderer.cpp:162-239 | one drawable slot appends its command; the slot's vertex array is `Placed` of its previous contents, every vertex keeps its z and texture coordinates and the entries past the used count are kept; each command's recorded vertex data carries its positions and tint, and the array of every command that no later command shares still holds that data |
| SkeletonRenderer.Draw | spine-cocos2dx/3/src/spine/SkeletonRenderer.cpp:146-240 | the commands submitted are `Submissions` of the draw order; the vertex data of each command, when submitted, carries that command's world positions and tint; at the end, the vertex array of every command that no later command shares holds that data; only the vertex arrays of drawable slots are written; every vertex keeps its z and texture coordinates, and a vertex that no submitted command uses keeps its old value |

## Left out

- OpenGL is not modelled. This covers buffer upload, attribute pointers, `glDrawElements` and `useMaterial`'s texture and blend binding. A draw is a ghost log entry with the material command and the uploaded vertex and index contents.
- The GLSL shader strings, GL initialisation and `onContextRecovered` are not modelled.
- The singleton, the event-listener registration and `update` are not modelled. `Reset` is an explicit call.
- XXH32 is not modelled; it is an uninterpreted function of the material key's four fields (but see `TwoColorBatch.GenerateMaterialID` below). `Mat4::transformPoint` is an uninterpreted function of the matrix and the position.
- `renderer->addCommand` in `addCommand` and in `draw`, which queues the command on the cocos2d renderer, is not modelled.
- `SkeletonBatch`, which `SkeletonRenderer::draw` submits to, is not part of this model. `Draw` returns the submissions instead of adding them to a batch.
- `draw`'s debug command, `drawDebug` and `getBoundingBox` are not modelled, nor are the attachments' `computeWorldVertices` and the loading code.
- Floating-point rounding is not modelled: float products are exact `real` products. Only the truncation on the store into a byte is kept.
- The z coordinate, the texture coordinates and the dark colour are data only.
- TwoColorBatch.SkeletonTwoColorBatch.GrowIndices: `spUnsignedShortArray_ensureCapacity` is not part of this model. Its capacity is taken to become exactly size + count. The contract promises no more than the code visible here: the used entries are kept.
- TwoColorBatch.SkeletonTwoColorBatch.GrowVertices: a `resize` that keeps the vertex vector's storage in place is modelled as always moving to new storage. Every live command is re-pointed to the same offset, so the two are indistinguishable.
- TwoColorBatch.SkeletonTwoColorBatch.GrowIndices: an `ensureCapacity` that keeps the index array's storage in place is also modelled as a move, and there the two differ. Only indices inside the used part are re-pointed (SkeletonTwoColorBatch.cpp:403). A live command whose arena indices lie at or past the used size keeps a readable pointer in the code when the storage stays in place. In the model it keeps the old store id, so `Batch` can no longer take it.
- TwoColorBatch.SkeletonTwoColorBatch.Batch: requires the command to be one handed out this frame, with counts below MAX_VERTICES and MAX_INDICES, and with geometry in the arena's current storage.
  - Nothing in the code guards an oversized command.
  - A stale arena pointer is undefined behaviour in C++.
  - Geometry outside the arena is not modelled. The code allows a command's indices to live elsewhere, for example in an attachment's own index array: `allocateIndices` re-points only indices that lie in the arena (SkeletonTwoColorBatch.cpp:403). The model has no storage besides the arena, so it cannot batch such a command.
- TwoColorBatch.SkeletonTwoColorBatch.DeallocateVertices: requires `count` to be at most the used count. The code's unsigned subtraction would wrap, and callers only give back what they took.
- TwoColorBatch.SkeletonTwoColorBatch.DeallocateIndices: same requirement and reason as `DeallocateVertices`.
- TwoColorBatch.SkeletonTwoColorBatch.AddCommand: takes the texture's GL name rather than the `Texture2D*` whose name `init` reads.
- The debug-build texture-size assertions in `init` are not modelled.
- Logging is not modelled: `CCLOGERROR` in `TwoColorTrianglesCommand::init` (SkeletonTwoColorBatch.cpp:63), which reports the truncated index count, has no counterpart.
- TwoColorBatch.GenerateMaterialID: the code hashes the raw bytes of a local struct (SkeletonTwoColorBatch.cpp:95-106) that is never zeroed. On 64-bit targets the pointer field is 8-byte aligned, so the struct has 4 uninitialised padding bytes after the blend factors, and XXH32 reads them. There, equal keys can give different material IDs, and the code promises neither "a hash of exactly the four fields" nor "equal keys, equal IDs". The model hashes the four fields only, so `MaterialIDIgnoresProgram` holds in the model, not for the code on such targets.
- TwoColorBatch.Command.constructor: the initialiser list (SkeletonTwoColorBatch.cpp:46) sets only the material ID, texture, program state, program, blend and alpha texture. The triangles, the force-flush flag, the global order and the matrix are left to their own default constructors or uninitialised, and those are not part of this model. The model picks `NoTriangles`, `false`, `0.0` and an empty matrix sequence for them (`DefaultRender`, `NoTriangles`). The empty sequence is not `Mat4`'s identity.
- The command's alpha texture ID is not modelled: the constructor sets it to 0 and nothing in this code changes it, so the second texture binding in `useMaterial` (SkeletonTwoColorBatch.cpp:113-116) never happens.
- The command's `flags` and the `CCASSERT` checks are not modelled; `AddCommand` requires a non-null program state in place of the assertion.
- SkeletonRenderer.Draw: a submitted command keeps a pointer to the attachment's vertex array. If two slots in one frame share an attachment array, the later write is what both commands draw. The contract states the final contents only for arrays that no later command writes; `written` records the data each command had when it was submitted.
- SkeletonRenderer.Draw: requires unit colours and enough world coordinates and vertex storage for every drawable slot, as `draw`'s memory accesses need.
- SkeletonRenderer.Draw: the three attachment kinds are told apart only by their type tag. spine-c's attachment type enum is not part of this model; every other type maps to `Other`.
