# A Dafny model of the ORCore batch renderer, particle system and sprite animation

This project models the CPU-side core of a small OpenGL game engine:

- **The batch renderer** (`src/core/renderer/renderer.cpp`).
  - Callers fill in a `RenderObject` with setters and hand it to the `Renderer`.
  - The renderer stores a copy, gives it the default texture if it names none, and routes its mesh into a batch.
  - A batch is chosen by exact equality of render-state maps, among batches that are not yet committed.
  - A batch that refuses a mesh is committed, and routing is tried again.
  - The renderer also hands out texture and program ids, keeps camera uniforms, commits all batches, draws them in order, and clears them.
- **The batch interface** (`src/core/renderer/batch.hpp`).
  - It is kept abstract: a batch is its id, capacity argument, state map and committed flag, plus the vertices and matrices it has accepted.
  - Whether `add_mesh` accepts a mesh is a parameter of the renderer. The model relies on one assumption about it: an empty open batch accepts any mesh. The retry loop of `add_object` and the particle manager's re-upload both rest on it.
- **The particle system** (`src/core/particles.cpp`).
  - Point emitters spawn particles at a rate per second.
  - The manager steps every particle under gravity with a semi-implicit Euler step.
  - It uploads the particle positions as one point mesh into a batch of its own. That batch is created committed, but each frame's clear reopens it, and nothing commits it again.
- **The sprite animation counter** (`src/core/animation.cpp`).
  - A frame number cycles through 1..maxFrames.
  - The sprite-sheet offset is derived from it.

Files:

- `geometry.dfy`: the value types of `mesh.hpp` (vectors, vertices, matrices, `Primitive`, `RenderState`, `Mesh`) and the `Option`/`Result` wrappers.
- `batches.dfy`: `Batch` as a value, with the operations the renderer calls on it.
- `rendering.dfy`: render-state maps, `RenderObject`, and the `Renderer` class with sequence fields.
- `particles.dfy`: the `PointEmitter` and `ParticleManager` classes, with the pure step functions they are proved against.
- `animation.dfy`: the `Animation` class.

How the source is represented:

- Floating-point numbers are reals.
- A thrown `std::runtime_error` is `Err(MissingCriticalData)`.
- The random dispersion of a particle's velocity is a function argument that gives the draws.
- The renderer owns each batch through a `unique_ptr`, so a batch is a value. The renderer's batch list is reassigned whenever a batch changes.
- Objects, textures, programs and particles are `seq` fields that the methods reassign.

## Model

| member | source | states |
|---|---|---|
| Geometry.PrimitiveCode | src/core/renderer/mesh.hpp:23-28 | point, line and triangle convert to the distinct ints 0, 1, 2, each one exactly |
| Batches.Batch.Commit | src/core/renderer/batch.hpp:24 | afterwards the batch is committed and no other part of it changed |
| Batches.Batch.Clear | src/core/renderer/batch.hpp:20 | afterwards the batch is empty and open, with the same id, size and state |
| Batches.Batch.Append | src/core/renderer/batch.hpp:21 | an accepted mesh's vertices follow the old ones in order; its transform is recorded exactly once; id, state and committed flag are kept |
| Batches.NewBatch | src/core/renderer/renderer.cpp:110-118 | a created batch is empty and open, and has the given id, size and state |
| Batches.AddMesh | src/core/renderer/batch.hpp:21 | the returned flag is the accept decision; acceptance appends, refusal leaves the batch unchanged |
| Batches.OpenCountUpdate | src/core/renderer/renderer.cpp:188-193 | replacing one batch changes the number of open batches only by that batch's change; this bounds the retry loop of `add_object` |
| Batches.RewriteIdempotent | src/core/particles.cpp:127-131 | when empty open batches accept, `add_mesh` after a clear always succeeds and appends the mesh, and clearing and re-adding the same mesh twice gives the same batch as doing it once |
| Rendering.Upsert | src/core/renderer/renderer.cpp:27-34 | after the upsert the key maps to the value, whether or not it was present; every other key and value is unchanged |
| Rendering.SameEntriesIsEquality | src/core/renderer/renderer.cpp:131-134 | the size check plus `std::equal` over ordered map entries holds exactly when the two state maps are equal |
| Rendering.WithDefaultTexture | src/core/renderer/renderer.cpp:175-178 | the stored state always names a texture: the caller's if it named one (and then the state is unchanged), otherwise the default; other keys are untouched |
| Rendering.ModelMatrixScalesThenTranslates | src/core/renderer/renderer.cpp:88-91 | the model matrix maps a point p to scale * p + translate |
| Rendering.VertexSize | src/core/renderer/mesh.hpp:39 | the number of vertices per primitive is 3, 2 or 1, for triangles, lines and points respectively |
| Rendering.RenderObject.SetState | src/core/renderer/renderer.cpp:27-34 | the key maps to the value afterwards; other keys and the rest of the object are unchanged |
| Rendering.RenderObject.SetScale | src/core/renderer/renderer.cpp:36-39 | only the mesh scale changes |
| Rendering.RenderObject.SetTranslation | src/core/renderer/renderer.cpp:41-44 | only the mesh translation changes |
| Rendering.RenderObject.SetPrimitiveType | src/core/renderer/renderer.cpp:46-63 | the primitive's int code is recorded under `primitive`; the mesh gets the primitive, and a vertex size of 3, 2 or 1 exactly for triangle, line or point; other keys, the vertices, scale, translation, model matrix, id and batch id are kept |
| Rendering.RenderObject.SetGeometry | src/core/renderer/renderer.cpp:65-68 | only the mesh vertices change, to the given geometry |
| Rendering.RenderObject.SetTexture | src/core/renderer/renderer.cpp:70-73 | the texture key maps to the id; other keys and the rest of the object are kept |
| Rendering.RenderObject.SetProgram | src/core/renderer/renderer.cpp:75-78 | the program key maps to the id; other keys and the rest of the object are kept |
| Rendering.RenderObject.SetPointSize | src/core/renderer/renderer.cpp:80-86 | a point mesh records the point size; on any other mesh the object is unchanged |
| Rendering.RenderObject.Update | src/core/renderer/renderer.cpp:88-91 | the model matrix is rebuilt from the mesh's translation and scale; nothing else changes |
| Rendering.NewRenderObject | src/core/renderer/renderer.cpp:21-25 | a new object belongs to no batch (-1) and has no state and no geometry |
| Rendering.OpenIdsExact | src/core/renderer/renderer.cpp:263-271 | when ids are indexes, the ids `commit` uploads are exactly the batches that were still open |
| Rendering.Renderer.constructor | src/core/renderer/renderer.cpp:94-98 | a new renderer has no objects, batches, textures, programs or uniforms |
| Rendering.Renderer.InitGl | src/core/renderer/renderer.cpp:100-104 | the blank image is appended as a texture and its id becomes the default texture |
| Rendering.Renderer.AddTexture | src/core/renderer/renderer.cpp:235-242 | the new texture's id is the old texture count, and the texture is appended |
| Rendering.Renderer.AddProgram | src/core/renderer/renderer.cpp:244-251 | the new program's id is the old program count, and the program is appended |
| Rendering.Renderer.SetCameraTransform | src/core/renderer/renderer.cpp:253-260 | the name maps to the transform; every other uniform is kept |
| Rendering.Renderer.CreateBatch | src/core/renderer/renderer.cpp:106-123 | a state without a program or a texture is an error and creates nothing; otherwise a batch with the next id and exactly that state is appended |
| Rendering.Renderer.CommitBatch | src/core/renderer/renderer.cpp:190 | only that batch is committed, and the open count drops by its flag |
| Rendering.Renderer.AddMeshToBatch | src/core/renderer/renderer.cpp:188 | the result is the batch's accept decision; only that batch changes; the open count is kept |
| Rendering.Renderer.ScanBatches | src/core/renderer/renderer.cpp:129-138 | the loop finds the lowest-index batch that is open and whose state equals the given one, and reports none when there is no such batch |
| Rendering.Renderer.FindBatch | src/core/renderer/renderer.cpp:125-144 | returns the first open exact match without changing anything; otherwise creates a pooled batch of 2048 for the state, or fails when the state lacks a program or texture |
| Rendering.Renderer.Place | src/core/renderer/renderer.cpp:180-188 | the first routing: with an open match, the lowest one is offered the mesh; without one, a new pooled batch of exactly the state takes it |
| Rendering.Renderer.CommitAndFind | src/core/renderer/renderer.cpp:190-191 | the refusing batch is committed and routing by the retry state either throws, with nothing else changed, or returns an open batch of exactly that state: an untouched earlier batch or a new pooled one; the number of open batches does not grow, and drops when no batch was created |
| Rendering.Renderer.RetryStep | src/core/renderer/renderer.cpp:188-192 | one iteration of the retry loop keeps the loop's frame (only batches of the two routing states that refused the mesh were committed) and either throws or brings the loop one open batch closer to its end |
| Rendering.Renderer.Reroute | src/core/renderer/renderer.cpp:188-193 | the retry loop ends; it places the mesh exactly when the retry state has a program and a texture; the batch it started from is committed, and every other batch it passes over refused the mesh, had the first or the retry state, and was committed; all other batches are untouched |
| Rendering.Renderer.Route | src/core/renderer/renderer.cpp:180-193 | the first routing throws exactly when the first state lacks a program or a texture; an accepting first open match hosts the mesh and is the only batch that changes; with no open match a new pooled batch is the only change; a refusing first match is committed; only batches of the two routing states are ever committed; a state without a texture whose first match refuses ends without a host |
| Rendering.Renderer.AddObject | src/core/renderer/renderer.cpp:165-196 | the copy is always appended with the default texture; a missing program is an error that leaves the batches alone; a complete state always succeeds; a missing texture with a refusing first batch is an error; on success the object knows its id and its batch, which holds its mesh; an accepting first open match of the stored state is the only batch that changes, and with no open match a new pooled batch is the only change; a refusing first match is committed; every other batch is kept unless it had the stored or the caller's state, refused the mesh and was committed |
| Rendering.Renderer.AddObjectCorrected | src/core/renderer/renderer.cpp:165-196 | succeeds exactly when the object names a program; the host batch's state is the stored object's state; an accepting first open match of that state hosts the object and is the only batch that changes, and with no open match a new batch is the only change; a host batch that existed before accepted the mesh; a refusing first match is committed, and only batches of the stored state are ever committed |
| Rendering.Renderer.AddObjectDedibatch | src/core/renderer/renderer.cpp:198-227 | an object without a batch gets a fresh dedicated batch of 262144 that is committed at once (an error if the state lacks a program); an object with a batch has that batch committed |
| Rendering.Renderer.ClearObjectBatch | src/core/renderer/renderer.cpp:152-156 | only the object's batch changes: it is cleared |
| Rendering.Renderer.SetObjectGeometry | src/core/particles.cpp:129 | only the stored object's geometry changes |
| Rendering.Renderer.ReaddObject | src/core/renderer/renderer.cpp:229-233 | the stored object's mesh is offered to its own batch, and the result is 1 if it was accepted and 0 otherwise |
| Rendering.Renderer.Commit | src/core/renderer/renderer.cpp:263-271 | afterwards every batch is committed and its contents are untouched; the batches uploaded are exactly those that were open, in order |
| Rendering.Renderer.Render | src/core/renderer/renderer.cpp:283-296 | one draw per batch, in creation order, each with that batch's program and all camera uniforms |
| Rendering.Renderer.Clear | src/core/renderer/renderer.cpp:298-304 | every batch is cleared and nothing else changes |
| Rendering.ExactMatchRouting | src/core/renderer/renderer.cpp:125-144 | two objects with the same state share a batch; an object whose state has one more entry gets a new batch |
| Rendering.InterleavedStates | src/core/renderer/renderer.cpp:180-193 | with batches of one object each, states A and B get batches 0 and 1; a second A overflows batch 0, which is committed, and goes to a new batch 2, while batch 1, of the other state, stays open |
| Rendering.OverflowWithoutTexture | src/core/renderer/renderer.cpp:191 | with one-object batches, an object with a program but no texture is placed the first time and makes `add_object` throw the second time |
| Rendering.OverflowWithoutTextureCorrected | src/core/renderer/renderer.cpp:191 | with the retry using the stored state, the same object is added twice, gets ids 0 and 1, and its stored copies are hosted by batch 0 and then by batch 1 |
| Particles.Trunc | src/core/particles.cpp:41 | converting a double to an int truncates toward zero |
| Particles.SpawnCount | src/core/particles.cpp:41-42 | no particle spawns when rate times dt is below 1; otherwise the count is the whole part of that product |
| Particles.Spawned | src/core/particles.cpp:44 | the new particles have mass 1 and lifetime 5, start at the emitter's position, and each velocity is within 0.1 of the emitter's on each axis when the draws are |
| Particles.Kick | src/core/particles.cpp:103 | the force of mass times g, divided by the mass, gives a velocity change of (0, 9.81 dt): the mass cancels |
| Particles.Tick | src/core/particles.cpp:102-104 | one step: lifetime drops by dt, vertical speed gains g dt, and position moves by the updated velocity |
| Particles.Age | src/core/particles.cpp:100-105 | aging keeps the number of particles and their masses, and lowers every lifetime by dt |
| Particles.Simulated | src/core/particles.cpp:94-109 | one simulation step adds exactly the spawn count of particles; old particles' lifetimes drop by dt, and new ones end at 5 - dt |
| Particles.TickNVelocity | src/core/particles.cpp:102-103 | after n steps the lifetime has dropped by n dt and the vertical speed has grown by n g dt |
| Particles.TickNPosition | src/core/particles.cpp:103-104 | after n steps the position is x + n vx dt horizontally and y + n vy dt + g dt² n(n+1)/2 vertically |
| Particles.AgeNIsTickN | src/core/particles.cpp:100-107 | aging a list n times steps every particle n times on its own, and removes none |
| Particles.Points | src/core/particles.cpp:122-125 | one vertex per particle, in list order, at the particle's position with depth 0.5 |
| Particles.LastPoints | src/core/particles.cpp:115-126 | the points the as-written loop leaves: the last emitter's particles only, or none when there are no emitters |
| Particles.AllPoints | src/core/particles.cpp:115-126 | the evidently intended points: one per particle over all emitters |
| Particles.AllPointsCovers | src/core/particles.cpp:115-126 | every particle of every emitter has its vertex among the intended points |
| Particles.RenderUpdateDropsEmitters | src/core/particles.cpp:117 | with two emitters of one particle each, the first emitter's particle is missing from the points as written |
| Particles.PointEmitter.constructor | src/core/particles.cpp:9-16 | a new emitter has no particles, a rate of 1 and a position of (0, 0) |
| Particles.PointEmitter.SetLocation | src/core/particles.cpp:28-32 | the previous position is remembered and the new one is stored |
| Particles.PointEmitter.SetVelocity | src/core/particles.cpp:34-37 | the velocity is stored |
| Particles.PointEmitter.CreateParticles | src/core/particles.cpp:39-46 | exactly the spawned particles are appended after the existing ones, which keep their mass of 1 |
| Particles.PointEmitter.Update | src/core/particles.cpp:18-21 | an update spawns particles and does nothing else |
| Particles.PointEmitter.CollectParticles | src/core/particles.cpp:48-60 | the particle list is left as it is |
| Particles.ParticleManager.constructor | src/core/particles.cpp:65-68 | keeps the renderer and starts with no emitters |
| Particles.ParticleManager.SetProgram | src/core/particles.cpp:70-73 | the program is stored |
| Particles.ParticleManager.InitGl | src/core/particles.cpp:75-85 | the particle object has exactly the program, the default texture, the point primitive and a point size of 4; scale (1, 1, 0) and no translation; it goes into a new dedicated batch of its own state, committed at once |
| Particles.ParticleManager.RegisterEmitter | src/core/particles.cpp:88-91 | the emitter is appended |
| Particles.ParticleManager.AgeParticles | src/core/particles.cpp:100-105 | each particle of the emitter is replaced in place by its one-step successor |
| Particles.ParticleManager.SimulateParticles | src/core/particles.cpp:94-109 | each emitter's list becomes `Simulated` of its old list, with that emitter's own draws; emitter positions, rates and velocities are unchanged |
| Particles.ParticleManager.GatherPoints | src/core/particles.cpp:113-126 | the as-written loop yields exactly `LastPoints` of the emitters' lists |
| Particles.ParticleManager.GatherAllPoints | src/core/particles.cpp:113-126 | the corrected loop yields exactly `AllPoints` of the emitters' lists |
| Particles.ParticleManager.Reupload | src/core/particles.cpp:127-131 | the object's geometry becomes the given points; its batch is cleared and then holds exactly those points, and is left open; nothing else changes |
| Particles.ParticleManager.RenderUpdate | src/core/particles.cpp:111-132 | the object's geometry becomes the last emitter's points; its batch is cleared and then holds exactly those points, and it is left open; nothing else changes |
| Particles.ParticleManager.RenderUpdateCorrected | src/core/particles.cpp:111-132 | the same, with the points of all emitters; the batch is also left open |
| SpriteAnimation.NextFrame | src/core/animation.cpp:50-53 | the next frame is either 1 or one more than the current one, never past maxFrames; a frame in 1..maxFrames stays in range; it is 1 exactly when the frame was at or above maxFrames (or was 0) |
| SpriteAnimation.FrameAfterCountsUp | src/core/animation.cpp:49-55 | from frame 1, k < maxFrames updates reach frame k + 1 |
| SpriteAnimation.CycleLength | src/core/animation.cpp:49-55 | from frame 1, exactly maxFrames updates return to frame 1, and no fewer do |
| SpriteAnimation.Animation.constructor | src/core/animation.cpp:7-18 | frame 1, offsets 0, and the timer loaded from its base; in range when maxFrames is at least 1 |
| SpriteAnimation.Animation.SetCurrentImage | src/core/animation.cpp:20-23 | the offsets are the width and height times the frame number |
| SpriteAnimation.Animation.Update | src/core/animation.cpp:49-55 | the frame advances by `NextFrame` and the offsets follow; the frame stays in range; max frames, sizes and timer are unchanged |
| SpriteAnimation.Animation.SetWidth | src/core/animation.cpp:33-35 | the width is stored |
| SpriteAnimation.Animation.SetHeight | src/core/animation.cpp:37-39 | as written, the height argument is stored into the width, and the height is not modified |
| SpriteAnimation.Animation.SetHeightCorrected | src/core/animation.cpp:37-39 | the height is stored |
| SpriteAnimation.Animation.GetWidth | src/core/animation.cpp:41-43 | returns the width |
| SpriteAnimation.Animation.GetHeight | src/core/animation.cpp:45-47 | returns the height |
| SpriteAnimation.FourFrameCycle | src/core/animation.cpp:49-55 | a four-frame animation runs through frames 2, 3, 4, 1, and the x offset follows the frame |
| SpriteAnimation.SetHeightIgnored | src/core/animation.cpp:38 | after `setHeight(48)` on a 32×32 sheet, `getWidth` returns 48 and `getHeight` still returns 32 |
| SpriteAnimation.SetHeightApplied | src/core/animation.cpp:38 | with the corrected setter, `getWidth` returns 32 and `getHeight` returns 48 |

## Left out

- GPU work is not modelled:
  - the uploads of `Batch::commit`, the draw calls of `Batch::render`, and the `ShaderProgram::use` and uniform calls of `Renderer::render` (which is modelled as a trace of draws);
  - texture and shader loading: images and shaders are opaque values passed in.
- `batch.cpp` is not part of this model.
  - Whether `add_mesh` accepts a mesh is the renderer's `accepts` function value.
  - The one property the renderer relies on is assumed in `Renderer.Valid`: an empty open batch accepts any mesh. Without it the retry loop of `add_object` need not end.
  - `Batch::clear` is assumed to empty the batch and reopen it.
  - The mesh offsets that `batch.cpp` writes are not modelled.
- Particles.ParticleManager.RenderUpdate: the re-upload succeeds only under the accept assumption. The cleared batch must take a point mesh of any size, and particles are never removed.
- Particles.ParticleManager.RenderUpdate: with `clear` reopening the batch, the particle batch is open from the first frame on. A pooled object with exactly the particle state would then be routed into it by `find_batch`, and the next frame's clear would drop it. This depends on `batch.cpp`, so it is not claimed as a finding and no scenario shows it.
- Floating point is modelled as reals: no rounding, no single-precision casts, no NaN or infinity.
  - `Kick` divides by the mass, so `Tick` requires a nonzero mass. That always holds: particles are only created with mass 1, and `PointEmitter.Valid` keeps it.
- The `mt19937` dispersion is an argument: the draws of one call, as a function from the draw's index to a value.
- `Animation::getImageX` and `getImageY` are left out: they convert to float normalized device coordinates.
- `Renderer::update_object` is left out. It calls `obj.update()` and then `Batch::update_mesh`, which is defined in `batch.cpp`. `create_rect_mesh` is left out as well.
- Fields the source leaves uninitialized get fixed values in the model:
  - the renderer's default texture id before `init_gl` is 0;
  - the manager's program is 0 and its object id is -1;
  - an emitter's positions and velocity are (0, 0);
  - a new `RenderObject`'s mesh, matrix and id take fixed values.
- Rendering.Renderer.CreateBatch: a program or texture id that is out of range is undefined behaviour in the source (`operator[]`), and the model does not check it; only a missing key is an error.
- Particles.ParticleManager.RegisterEmitter: requires that the emitter is not already registered. The source allows duplicates, which would be stepped twice per simulation.
- Particles.ParticleManager.SimulateParticles: only `PointEmitter` is modelled, as the one implementation of the `Emitter` interface.
- SpriteAnimation.Animation.Update: `int` arithmetic is unbounded here. The products `imageWidth * frameNumber` and `imageHeight * frameNumber` do not wrap.
- Particles.SpawnCount: the conversion of an out-of-range double to `int`, which is undefined behaviour, is not modelled.
- Logging, the commented-out code in `Renderer::commit` and in `collect_particles`, and the game, window and main-loop code are not part of this model.

## Findings

| source | as written | input that shows it | evidently intended | confidence | as-written member | corrected member |
|---|---|---|---|---|---|---|
| src/core/renderer/renderer.cpp:191 | the retry calls `find_batch(objIn.state)`, the caller's state, which need not name a texture | with batches that hold one object each, add the same object twice; the object names a program but no texture; the second call's retry throws "missing critical data" | retry with the stored copy's state, which has the default texture, as the first routing does | high; not executed | Rendering.Renderer.AddObject, Rendering.OverflowWithoutTexture | Rendering.Renderer.AddObjectCorrected, Rendering.OverflowWithoutTextureCorrected |
| src/core/particles.cpp:117 | `points.clear()` runs at the top of every emitter's iteration | two registered emitters, each with one particle, at different positions | clear once before the loop, so every emitter's particles are uploaded | medium; not executed | Particles.ParticleManager.RenderUpdate, Particles.RenderUpdateDropsEmitters | Particles.ParticleManager.RenderUpdateCorrected, Particles.AllPointsCovers |
| src/core/animation.cpp:38 | `setHeight` assigns `imageWidth` | `setHeight(48)` on a 32×32 animation, then `getWidth()` and `getHeight()` | assign `imageHeight` | high; not executed | SpriteAnimation.Animation.SetHeight, SpriteAnimation.SetHeightIgnored | SpriteAnimation.Animation.SetHeightCorrected, SpriteAnimation.SetHeightApplied |
