# Gudra, modelled in Dafny

Gudra runs two five-point stencil operators (a weighted Jacobi step and a Laplacian) on a GPU, keeps a
double-buffered timestep state, and admits work against a session budget. This project states what that
library is for and proves it of a model of its code:

* the concurrent, double-buffered runtime computes exactly what the sequential CPU loop computes, for
  every shape, number of steps, interleaving of block loads and stores, and order of polls;
* the 16x16 tiled kernels compute exactly the CPU loops, through strided views and masked edge tiles, in any
  interleaving of the lanes' loads and stores;
* storage that submitted work still uses is never freed or handed out again, over every sequence of
  public calls, and this fails without the two mechanisms the library relies on;
* usage is the exact sum of the outstanding guards and the budget is linearizable, under any interleaving of
  threads, and every exit of every call and future changes it by exactly what its documentation promises;
* a borrowed output whose execution failed stays unusable for good, and only such an output becomes so;
* the chain of checks in the shape constructor is equivalent to a short predicate;
* in exact arithmetic any two runs with one halo approach each other geometrically, the discrete Poisson
  equation with that halo has exactly one solution, and every run with a weight in (0, 1] converges to it.

## How it is organised

| file | what it models |
|---|---|
| Shape, Grids | checked geometry (src/shape.rs); row-major indexing |
| Stencil | the stencils over uninterpreted arithmetic, one haloed step, its iteration |
| Reference | the CPU loops over arrays, and the iterated oracle |
| Views, Schedules, InPlace | strided views and tiling; a launch as micro-steps of its blocks; when a launch in place races |
| Kernels | device memory and its three kernels |
| Runtime, Futures | the double grid on values, and its lazy future as a state machine |
| Timesteps, Batches | the double grid over real buffers, its batches, and the class of its future |
| Limits, Admission | limits and budget; the budget under any number of threads |
| Completion, Sessions, AsyncStep | readiness, validation, buffers, the executor's calls, the future of one step |
| Invalidation, Traces | readiness over whole runs, and its link to the classes |
| Lifetime, LifetimeTraces | storage lifetime over whole runs, and its link to the classes |
| Dependence, Residual, Contraction, Existence | domain of dependence; residual identity; convergence; solutions |

Conventions of the model:

* **Arithmetic.** Refinement results hold for any `add`, `sub`, `mul` whatsoever, so they include NaN and
  infinity; both sides of the library fix the same association order. The algebraic results are about
  exact reals. Nothing is claimed about f32 rounding or f32 convergence, and the library claims none.
* **Backend.** Whether an upload, launch or readback succeeds, the address an allocation gets, and the
  interleaving of blocks are parameters or nondeterministic choices. A failed launch may have run any part
  of its work. A completion that cannot be proven ends the process, as the library documents.
* **Ownership.** Rust's ownership and borrowing are taken as given: a `requires` that an argument is
  owned, or that an output is not also the right-hand side, is what the compiler already enforces.
* **Words.** Sizes are naturals with the word's overflow checks written out. On a valid shape the kernel's
  `i32` extents equal the stored ones, because every count is at most 2^31 - 1.
* **Guards.** A reservation is a value with a fresh id, which stands for its being unclonable. Buffer and
  device contents are mathematical sequences indexed by allocation.
* **Counter overflow.** The code reports it as a backend error (src/gpu/timesteps.rs:190-195), although that
  error is documented for device, copy, view and execution failures (src/error.rs:76). The model follows
  the code.

## Model

| member | source | states |
|---|---|---|
| Shape.NewAccepts | src/shape.rs:32-76 | on any word of at least 32 bits a shape is accepted if and only if both axes are positive and at most 65,535 tiles, and the haloed count fits i32 and, in bytes, isize; every stored field then has its mathematical value |
| Shape.NewAccepts64 | src/shape.rs:48-61 | on a 64-bit word the byte limits never decide |
| Shape.NewRejects | src/shape.rs:29-66 | which stage rejects a shape, exactly, in the documented order (zero axis, overflow, bytes, counts, blocks); the narrowing-cast errors are unreachable |
| Shape.ValidIsConstructible | src/shape.rs:67-75 | the predicate the rest of the project assumes of a shape describes exactly the constructor's results |
| Grids.AtBounds | src/reference.rs:47-48 | row-major indices are in range and a bijection between cells and positions |
| Reference.Neighbours | src/reference.rs:47-54 | every index the loops form is in range and names the neighbour it is meant to name |
| Reference.JacobiInto | src/reference.rs:34-59 | the loop writes the update of every interior cell; a wrong length is rejected in documented order with the output untouched |
| Reference.LaplacianInto | src/reference.rs:74-96 | the same for the Laplacian |
| Reference.WriteBack | examples/poisson_timesteps.rs:49-53 | the interior is replaced and the halo kept |
| Reference.Oracle | examples/poisson_timesteps.rs:47-54 | n rounds of the loop and write-back reach generation n |
| Stencil.WriteBackIsStep | examples/poisson_timesteps.rs:48-53 | a CPU update written back into its grid is one haloed step, halo copied |
| Stencil.EvolveConcat | src/gpu/timesteps.rs:92-100 | iteration composes over runs with changing parameters |
| Stencil.EvolveKeepsHalo | src/gpu/timesteps.rs:20-21 | no number of steps changes a halo cell, corners included |
| Schedules.Launch.MicroStepInv | src/gpu/kernels.rs:20-37 | any single load or store of any block of any of the three kernels keeps the launch invariant: unfinished outputs untouched, loads come from the old grid |
| Schedules.Launch.AnySchedule | src/gpu/kernels.rs:11-88 | for the timestep and both tiled kernels, every interleaving of loads and stores that finishes all blocks leaves exactly what the CPU loop computes, and touches only the output |
| Schedules.Launch.CanFinish | src/gpu/kernels.rs:37 | every partial interleaving extends to a finished one, so the result above is never vacuous |
| InPlace.RacesIff | fixtures/in_place_jacobi.cu:17-28 | with output and input aliased, in exact arithmetic and for every shape and coefficients: some memory is left different by two complete runs of the threads if and only if there are two or more interior cells and the weight is not zero |
| InPlace.QuietInPlace | fixtures/in_place_jacobi.cu:17-28 | otherwise every run, in any interleaving, leaves what the launch with its own output leaves |
| Kernels.Device.Timestep | src/gpu/kernels.rs:20-37 | one guarded block writes its own cell, with the stencil or a copy |
| Kernels.Device.Lane | src/gpu/kernels.rs:52-65 | a lane, reading through the five views, stores the value of the CPU loop at its cell |
| Kernels.Device.Tile | src/gpu/kernels.rs:77-87 | a tile run alone writes exactly its own unmasked cells |
| Kernels.Device.RunBlocks | src/gpu/timesteps.rs:202-215 | the device works on a launch in any order of single loads and stores, to its end or to any moment before, and the launch invariant holds throughout |
| Kernels.Device.Launch | src/gpu/cutile_impl.rs:213-227 | under an arbitrary scheduler a launch of any kernel leaves exactly the CPU loop's values in its output, and changes nothing else |
| Views.ViewsAreDirected | src/gpu/cutile_impl.rs:443-483 | the views of a library-made source always build, stay in bounds and are displaced by exactly one cell each |
| Views.TilesPartition | src/gpu/cutile_impl.rs:215 | every interior cell lies in exactly one tile of the launch grid |
| Views.TilesNotEmpty | src/shape.rs:62-66 | no tile of the launch grid is empty |
| Runtime.AdvanceMeaning | src/gpu/timesteps.rs:92-100 | after n steps current is generation n and next generation n - 1 |
| Runtime.AdvanceRoles | src/gpu/timesteps.rs:197-200 | the physical roles follow the parity of the step count |
| Runtime.AdvanceElsewhere | src/gpu/timesteps.rs:202-215 | a batch changes no allocation but its two grids |
| Runtime.HistoryAdvances | src/gpu/timesteps.rs:87-102 | the double-buffer invariant survives every batch, with the history extended |
| Runtime.HoldsKeepsHalo | src/gpu/timesteps.rs:20-22 | in every ready state both grids carry the initial halo |
| Runtime.AdvanceAdd | src/gpu/timesteps.rs:114-115 | advancing a and then b steps is advancing a + b steps |
| Runtime.AnySchedules | src/gpu/timesteps.rs:87-102 | a batch with its own interleaving in every step equals the sequential oracle |
| Futures.Batch.NextTracks | src/gpu/timesteps.rs:137-153 | every poll, device step, foreign write, drop or drain keeps the job on the blocking batch's path |
| Futures.Batch.AsyncEqualsBlocking | src/gpu/timesteps.rs:129-154 | a future that resolves, after any polls and interleavings, returns the grid the blocking batch computes |
| Futures.Batch.AsyncHolds | src/gpu/timesteps.rs:137-153 | and that grid satisfies the double-buffer invariant, with the batch in its history |
| Futures.Batch.EndedIsFinal | src/gpu/timesteps.rs:117-119 | a failed or dropped future never publishes a grid and submits nothing more |
| Futures.Batch.DropPublishesNothing | src/gpu/timesteps.rs:110-112 | dropping a future at any point before it resolves means it never publishes and never submits again |
| Futures.Batch.UnpolledDoesNothing | src/gpu/timesteps.rs:106-110 | a future that is never polled submits nothing and leaves its grids alone |
| Futures.Batch.CanResolve | src/gpu/timesteps.rs:139-152 | from every live state some continuation resolves |
| Timesteps.MakeGrid | src/gpu/timesteps.rs:25-63 | exact condition for success; Ok charges two haloed buffers and one interior buffer, any Err at any stage charges and allocates nothing; with one operation slot free the operations limit is never the cause |
| Timesteps.Reserve | src/gpu/timesteps.rs:44-52 | the three reservations succeed exactly when their total fits, or leave nothing behind |
| Timesteps.DoubleGrid.Advance | src/gpu/timesteps.rs:87-102 | exact condition for success; Ok is n oracle steps with the invariant kept, Err consumes the state and releases exactly its charge |
| Timesteps.DoubleGrid.AdvanceAsync | src/gpu/timesteps.rs:134-136 | admission charges one operation and runs nothing, or consumes the state and releases its charge |
| Batches.AdvanceAsync | src/gpu/timesteps.rs:129-138 | accepted exactly when the counter cannot overflow and an operation is free: the future then owns the grid and one guard and has submitted nothing |
| Batches.BatchFuture.Poll | src/gpu/timesteps.rs:139-152 | exact outcome of every poll: pending keeps the frame on the blocking batch's path while the device works; Ok returns a grid with the invariant, all steps in its history and the operation's charge; Err frees the three buffers and returns their charges and the operation's |
| Batches.BatchFuture.Drop | src/gpu/timesteps.rs:110-112 | a dropped future, polled or not, frees its three buffers and returns their charges and the operation's, and no other storage or charge changes |
| Batches.BatchFuture.FinishStep | src/gpu/timesteps.rs:141-150 | a completed launch and the exchange of roles move the frame one step along the blocking batch |
| Batches.BatchFuture.Undisturbed | src/gpu/timesteps.rs:108-109 | writes of other calls to other storage between polls leave the future on its path |
| Timesteps.DoubleGrid.Observe | src/gpu/timesteps.rs:163-188 | exact condition for success; the snapshot is the oracle's grid and the state is unchanged; Err consumes the state and releases its charge |
| Timesteps.DoubleGrid.RunBatch | src/gpu/timesteps.rs:92-100 | the loop computes the batch up to its first failed launch, and only the two grids ever differ |
| Dependence.DomainOfDependence | src/gpu/kernels.rs:22-36 | after n steps a cell is determined by initial cells within Manhattan distance n and forcing within n - 1 |
| Dependence.CornersUnused | src/reference.rs:8-9 | the four corners influence no other cell, ever |
| Residual.CellResidual | src/reference.rs:49-55 | a Jacobi update moves a cell by omega h^2 / 4 times its Laplacian residual, and not at all exactly when that residual is zero |
| Residual.StepResidual | src/reference.rs:83-93 | the same identity between the two operators on a grid |
| Residual.SteadyIffSolves | src/reference.rs:45-57 | a grid is unchanged by every number of steps if and only if the weight is zero or its Laplacian is the right-hand side |
| Residual.QuadraticSolves | tests/numerical.rs:66-84 | r^2 + c^2 has a constant Laplacian of 4 / h^2, so it is such a grid |
| Residual.ConstantSolves | tests/reference.rs:83-97 | so is a constant grid without forcing |
| Contraction.EvolveContracts | src/reference.rs:49-55 | any run of weights in [0, 1] shrinks any superharmonic barrier between two grids with one halo by the product of its factors |
| Contraction.GeometricContraction | src/gpu/timesteps.rs:92-100 | a difference within K phi(r) is within K q^n phi(r) after n steps, phi(r) = (height + 2)^2 - r^2 (squares by Contraction.SquareMeans), q = 1 - omega / (2 (height + 2)^2) |
| Contraction.Converges | src/reference.rs:49-55 | for omega in (0, 1] every start comes and stays within any tolerance of a solution with its halo |
| Contraction.BatchConverges | src/gpu/timesteps.rs:87-102 | so does the current grid of a batch of the runtime |
| Contraction.SolutionIsUnique | src/reference.rs:83-93 | a halo and a right-hand side have at most one solution |
| Existence.CommonZero | src/reference.rs:83-93 | fewer linear equations than unknowns have a common solution other than zero, by elimination |
| Existence.SolutionExists | src/reference.rs:83-93 | every halo and right-hand side have a solution of the discrete Poisson equation |
| Existence.AlwaysConverges | src/reference.rs:45-57 | so every run with omega in (0, 1] converges, and its limit is that solution |
| Limits.AdmitBuffersIff | src/limits.rs:124-149 | a run of admissions succeeds exactly when its total fits, so neither order nor overflow matters |
| Limits.StaticCheckAgrees | src/limits.rs:67-79 | the static check succeeds exactly when an empty budget admits the three buffers, in any order |
| Limits.Budget.Buffer | src/limits.rs:124-149 | exact admission condition; a refused admission changes nothing; usage stays the exact sum of outstanding guards |
| Limits.Budget.Operation | src/limits.rs:151-168 | the same for operations |
| Limits.Budget.Release | src/limits.rs:171-185 | dropping a guard returns exactly its charge, and no subtraction underflows |
| Admission.NextInv | src/limits.rs:124-185 | every lock, counter write, unlock, drop or forget of any thread keeps the accounting invariant |
| Admission.ExactWhenUnlocked | src/limits.rs:171-185 | after any interleaving, with the lock free, usage is the sum of the charged guards, forgotten ones included, within the limits, without underflow |
| Admission.AdmissionIsAtomic | src/limits.rs:126-148 | whatever other threads do between the two counter writes of an admission, the usage ends as one decision says, and a refusal leaves no trace |
| Admission.Linearizable | src/limits.rs:124-185 | in any interleaving the calls take effect at transitions of their own, and in that order they are a run of a budget with one caller, with the same outcome for each |
| Admission.DecidedOnce | src/limits.rs:124-185 | in any interleaving a thread's calls are, in order, the calls its decisions answer, and then at most the one under way: a returned call was decided exactly once |
| Admission.GrantedAsDecided | src/limits.rs:124-168 | the guards a thread is issued are, in order and with their bytes, those its admitting decisions promised, but for at most the one about to be issued |
| Admission.NoDeadlock | src/limits.rs:126-129 | an unfinished call can always make progress, somewhere |
| Completions.ValidateAccepts | src/gpu/cutile_impl.rs:378-423 | for library-made buffers validation accepts exactly ready buffers of one shape and session |
| Sessions.OpenSession | src/gpu/cutile_impl.rs:73-86 | with limits from the checked constructor a session opens exactly when the limits meet the predicate assumed of them elsewhere and the backend works; it owns and is charged nothing |
| Sessions.Session.Perform | src/completion.rs:17-25 | the output is withdrawn before the backend call and published again exactly when it succeeds; only the output's storage can differ |
| Sessions.Session.UploadReserved | src/gpu/cutile_impl.rs:119-141 | the reservation ends in the buffer or is released; exact condition for success |
| Sessions.Session.Upload | src/gpu/cutile_impl.rs:95-117 | exact condition for success; Err leaves storage and usage as they were |
| Sessions.Session.Zeros | src/gpu/cutile_impl.rs:147-156 | a fresh zeroed field, or nothing |
| Sessions.Session.StepInto | src/gpu/cutile_impl.rs:198-229 | a rejected call changes nothing and reports the first failed check; an accepted one publishes the CPU loop's field or invalidates its output; nothing else changes and no charge remains |
| Sessions.Session.LaplacianInto | src/gpu/cutile_impl.rs:240-267 | the same for the Laplacian |
| Sessions.Session.Step | src/gpu/cutile_impl.rs:166-176 | the fresh output is the CPU loop's field, or nothing has changed; with one operation slot free the operations limit is never the cause |
| Sessions.Session.IntoHost | src/gpu/cutile_impl.rs:348-366 | the field is consumed and its charge returned in every case; only a ready field is read, and its data returned |
| Sessions.Session.Free | src/gpu/cutile_impl.rs:31-40 | dropping a buffer frees its storage and then exactly its charge |
| AsyncSteps.StepIntoAsync | src/gpu/cutile_impl.rs:283-297 | accepted exactly when all buffers are ready and an operation is free: then one operation is charged and nothing has run; refused, with the exact error of the first failed check, the arguments are consumed all the same, and the storage and the charge of each one of this session are returned and no other |
| AsyncSteps.StepFuture.Poll | src/gpu/cutile_impl.rs:294-321 | pending leaves the kernel in flight, with only the output's storage differing; Ok returns the buffers with the CPU loop's field and the operation's charge; Err frees everything and returns every charge |
| AsyncSteps.StepFuture.Drop | src/gpu/cutile_impl.rs:270-278 | a dropped future releases its three buffers and its operation, polled or not, and no other storage changes |
| Traces.StepIntoTraced | src/gpu/cutile_impl.rs:205-228 | step_into on real buffers is exactly the readiness machine's transition, with the same success or the same error, and a rejected call leaves every flag as it was |
| Traces.LaplacianIntoTraced | src/gpu/cutile_impl.rs:246-266 | and so is laplacian_into |
| Invalidation.World.UncertainForever | src/completion.rs:11-25 | after a broken execution every later use of that output is turned down, until it is gone; futures may be pending meanwhile |
| Invalidation.World.UncertainIffBroken | src/completion.rs:18-25 | a live buffer, created before or during the run, is unavailable if and only if some execution borrowing it as output failed or unwound |
| Invalidation.World.UncertainIsRejected | src/gpu/cutile_impl.rs:396-405 | a call naming an unavailable buffer is rejected and changes nothing it does not consume |
| Invalidation.World.GoneForever | src/gpu/cutile_impl.rs:348-350 | a consumed buffer never comes back |
| Lifetime.LifetimesAreSafe | src/gpu/cutile_impl.rs:348-366 | over all runs, no allocation that submitted, uncompleted work uses is freed, if and only if readbacks retain their storage and dropping a future in flight drains |
| Lifetime.NeverReusedInUse | src/gpu/timesteps.rs:137-153 | nor is such an address handed out again |
| Lifetime.UnretainedReadback | docs/readback-lifetime.md:28-41 | without the retained owner, a one-buffer readback runs after its storage was freed and reused |
| Lifetime.UndrainedDrop | src/gpu/cutile_impl.rs:275-278 | without the drain, a dropped future's kernel outlives its buffers |
| Lifetime.World.NextInv | src/gpu/timesteps.rs:163-188 | every step of every call keeps each queued operation guarded by an owner or a borrow |
| LifetimeTraces.BuffersInv | src/gpu/cutile_impl.rs:31-40 | the buffers of any valid session are a state of that machine that meets its invariant, so every run from it is safe |
| LifetimeTraces.FutureInv | src/gpu/cutile_impl.rs:291-297 | the same with a future of one step, polled or not |
| LifetimeTraces.UploadTraced | src/gpu/cutile_impl.rs:119-141 | an upload on a real session, whatever its outcome, is the machine's upload |
| LifetimeTraces.StepIntoTraced | src/gpu/cutile_impl.rs:198-229 | step_into is the machine's launch: what it accepts is queued over its three buffers, and owners and storage end as they were |
| LifetimeTraces.IntoHostTraced | src/gpu/cutile_impl.rs:348-366 | into_host is the machine's retained readback, or a drop of an unavailable field |
| LifetimeTraces.StepIntoAsyncTraced | src/gpu/cutile_impl.rs:283-297 | step_into_async moves the three buffers into the machine's future, or drops those of this session |
| LifetimeTraces.PollTraced | src/gpu/cutile_impl.rs:294-321 | a poll is the machine's polls: pending has the kernel queued, Ok hands the three buffers back, Err frees them only once nothing is queued |
| LifetimeTraces.DropTraced | src/gpu/cutile_impl.rs:270-278 | dropping a future is the machine's drained drop |

## Left out

- f32 rounding, GPU contraction and the fixture tolerance: refinement is over uninterpreted operations instead.
- JacobiParams and LaplacianParams finiteness checks, error display text and error payload strings: they take no part in any property stated here.
- The link from Lifetime to the double grid: uploads, step_into, readback, and the future of one step are shown to be runs of it, each call alone on its session; the timestep calls and the interleaving of calls from several threads are in the machine and not linked to a class.
- CUDA, JIT, driver, the vendored backend and the multi-GPU halo prototype, whose code is not part of this model.
- The order in which the locals of a failing call are dropped: charges and storage are stated at call boundaries, except that one dropped buffer frees its storage before its charge.
- Device and stream creation, and the steps inside one upload, which are a single success-or-failure choice.
- Mutex poisoning: the library recovers the guard and continues, and so would the model.
- After an abort the lifetime model is frozen; what the driver does once the process is gone is outside it. Launches that fail before submitting anything leave its queue alone and are not events of it.
- Unwinding of a blocking call: it leaves an output unavailable in Invalidation; the backend's abort on unproven completion is the `Unproven` step in Lifetime.
- The benchmark and executor part of the timestep example, packaging, scripts and release gates.
