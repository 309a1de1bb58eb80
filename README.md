# RTIC code generator with modality probes, in Dafny

This project models part of the `rtic-macros` procedural macro of an RTIC
(Real-Time Interrupt-driven Concurrency) fork that is instrumented with
`defmt` trace points and modality probes. The macro turns an `#[app]` into
Rust items. The model keeps the generated items, statements and trace events
as Dafny datatype values in sequences, and it models what the generated code
does when it runs. The modelled parts are:

- **Software-task dispatchers** (`dispatchers.dfy`, module `Dispatchers`).
  For each priority level the generator emits a tag enum, a ready queue of
  capacity `capacity + 1` and an interrupt handler. It does this in a `for`
  loop (`Codegen`). The handler itself is the class `Handler`. Its `Run`
  drains the ready queue in FIFO order. For each entry it reads the input
  slot, gives the slot index back to the task's free queue, then calls the
  task at the handler's priority between `TASK_ENTER` and `TASK_EXIT`. The
  whole run sits between `INTERRUPT_ENTER` and `INTERRUPT_EXIT`.
- **Hardware-task trampolines** (`hardware_tasks.dfy`, module `HardwareTasks`).
  The generator loop pushes into three lists: `mod_app`, `root` and
  `user_tasks`. It emits one trampoline per task. It emits a locals or shared
  struct and constructor only when the task has such resources, always a task
  module, and a user function unless the task is `extern`. The trampoline
  calls its task once, at its priority, in a fixed trace order.
- **Bring-up** (`init.dfy` and `post_init.dfy`, modules `Init` and
  `PostInit`). This covers the `#[init]` items and `call_init`, which traces
  `TRACE_START` before it calls init. It also covers the ordered post-init
  statement list: live shared writes, live local writes, probe construction,
  monotonic reset then store, and one final interrupt enable.
- **Trace-point format strings** (`tracing.dfy`, module `Tracing`). There is
  one function per `tp_*` builder. The wire layout is defined once, by
  `Render` and `Parse`, and each builder is proved to be the rendering of its
  documented field list. These layout lemmas hold for any name without `,`,
  `=`, `:` or `{`. That covers every Rust identifier, including Unicode and
  raw (`r#name`) ones.
- **Probe ids** (`id_gen.dfy`, module `ProbeIds`). This covers:
  - the inclusive id range;
  - the wrapping 32-bit mix of the leading digest bytes;
  - the reduction modulo the range end;
  - `IdGen`, whose `hashed_id` retry loop draws a new UUID after each rejected hash.
- **Probe manifest** (`manifest_gen.dfy`, module `Manifest`). Loading
  upper-cases the probe names. The merge upserts each application probe: it
  refreshes the description of an existing probe or appends a new one. The
  result is then sorted stably by id.

`text.dfy` (module `Text`) holds the shared text helpers: ASCII upper-casing,
decimal rendering, join/split, and the `u8`/`u32` widths. `steps.dfy` (module `Steps`)
holds the run-time step log that the dispatcher and the trampolines record:
trace points, slot reads, slot releases and task calls with their priority.

## Model

| member | source | states |
|---|---|---|
| Dispatchers.ArgCount | macros/src/codegen/dispatchers.rs:82-83 | `pats.len() as u8`: the count itself below 256, reduced modulo 256 otherwise |
| Dispatchers.Codegen | macros/src/codegen/dispatchers.rs:17-136 | the generator loop pushes exactly `AllItems`: three items per level in channel order |
| Dispatchers.ItemsOfLevel | macros/src/codegen/dispatchers.rs:17-136 | the output has three items per level, and items `3k..3k+3` are those of level `k` |
| Dispatchers.LevelItemsMeaning | macros/src/codegen/dispatchers.rs:20-135 | per level: a tag enum with one variant per task in channel order, a ready queue with capacity parameter `capacity + 1`, and a handler at that level and interrupt whose arms call each task with `TASK_ENTER` (task, level, dispatcher, argument count) and `TASK_EXIT`, framed by `INTERRUPT_ENTER`/`INTERRUPT_EXIT` |
| Dispatchers.HandlerLevelsAppend | macros/src/codegen/dispatchers.rs:121-135 | the handler levels of two item lists concatenate |
| Dispatchers.LevelHandlers | macros/src/codegen/dispatchers.rs:117-135 | one level's items contain exactly one handler, at that level |
| Dispatchers.OneHandlerPerLevel | macros/src/codegen/dispatchers.rs:17-136 | the handlers of the whole output are exactly one per channel, at the channel levels, in order |
| Dispatchers.HandlersAscending | macros/src/codegen/dispatchers.rs:17-136 | with the channels keyed by ascending level, the handlers' levels are the channels' levels and strictly ascend, so no level gets two handlers |
| Dispatchers.Released | macros/src/codegen/dispatchers.rs:96 | releasing dequeued entries keeps one free queue per task |
| Dispatchers.CountTagAppend | macros/src/codegen/dispatchers.rs:110 | the number of ready entries of a task is additive over concatenation |
| Dispatchers.IndicesOfCount | macros/src/codegen/dispatchers.rs:96 | the indices released for a task are as many as its entries |
| Dispatchers.ReleasedContents | macros/src/codegen/dispatchers.rs:96-110 | after draining, a task's free queue is its old queue followed by the indices of its entries, in dequeue order |
| Dispatchers.Conservation | macros/src/codegen/dispatchers.rs:96-110 | per task, ready count plus free count is the same before and after a drain |
| Dispatchers.DispatchedShape | macros/src/codegen/dispatchers.rs:89-115 | the drain log has five steps per entry, in FIFO order, and each block is the arm of that entry's tag on its slot's input |
| Dispatchers.CallInArm | macros/src/codegen/dispatchers.rs:90-103 | every call in the drain log comes right after the read of one of its task's slots, the release of that same index and a trace point; a trace point follows it; it runs at the handler's level |
| Dispatchers.RunCall | macros/src/codegen/dispatchers.rs:97-133 | the same for every call of a whole handler run |
| Dispatchers.RunTrace | macros/src/codegen/dispatchers.rs:98-133 | a handler run logs `INTERRUPT_ENTER` first, five steps per entry, `INTERRUPT_EXIT` last, and every call is at the handler's level |
| Dispatchers.DequeueKeeps | macros/src/codegen/dispatchers.rs:96-110 | dequeuing one entry and releasing its index keeps the queue invariant |
| Dispatchers.Drain | macros/src/codegen/dispatchers.rs:109-115 | the `while let` loop ends with the ready queue empty and the invariant kept; the free queues are the old ones plus the released indices, and the log is the FIFO dispatch of every entry |
| Dispatchers.Handler.constructor | macros/src/codegen/dispatchers.rs:55 | a handler starts with an empty ready queue, as `Queue::new()` creates it, and with its arms, level and interrupt taken from the handler item |
| Dispatchers.Handler.Run | macros/src/codegen/dispatchers.rs:117-135 | after the handler runs: ready queue empty, slots untouched, each task's free queue extended by its dequeued indices, log extended by the full run |
| HardwareTasks.Codegen | macros/src/codegen/hardware_tasks.rs:32-123 | the three pushed lists are the per-task contributions concatenated in task order |
| HardwareTasks.Trampolines | macros/src/codegen/hardware_tasks.rs:32-61 | exactly one trampoline per task, in order, named after the bound interrupt, for that task, at its priority |
| HardwareTasks.Constructors | macros/src/codegen/hardware_tasks.rs:67-90 | the locals and shared constructors in `mod_app` are those of the tasks with local and with shared resources, in order |
| HardwareTasks.RootStructs | macros/src/codegen/hardware_tasks.rs:67-99 | the locals and shared structs in `root` are those of the tasks with such resources; one module per task, in order, whose lifetime flags imply the resources exist |
| HardwareTasks.RootCount | macros/src/codegen/hardware_tasks.rs:67-99 | `root` holds one module per task plus one struct per task with locals and one per task with shared resources |
| HardwareTasks.RootLength | macros/src/codegen/hardware_tasks.rs:67-99 | each task contributes 1 + [has locals] + [has shared] root items |
| HardwareTasks.UserFunctions | macros/src/codegen/hardware_tasks.rs:101-119 | the user functions are exactly those of the non-`extern` tasks, in order |
| HardwareTasks.ItemsIff | macros/src/codegen/hardware_tasks.rs:67-119 | for distinct task names: a task has a locals struct and constructor iff it has local resources, a shared struct and constructor iff it has shared resources, and a user function iff it is not `extern` |
| HardwareTasks.ModAppOfTask | macros/src/codegen/hardware_tasks.rs:43-90 | one task's `mod_app` items are its trampoline and its optional constructors |
| HardwareTasks.RootOfTask | macros/src/codegen/hardware_tasks.rs:67-99 | one task's `root` items are its optional structs and its module |
| HardwareTasks.TrampolineCalls | macros/src/codegen/hardware_tasks.rs:49-60 | a trampoline makes five steps with exactly one call, the third, to its task at its declared priority with no inputs |
| HardwareTasks.TrampolineEnters | macros/src/codegen/hardware_tasks.rs:51-53 | the first two steps are read by the collector as `INTERRUPT_ENTER` and then `TASK_ENTER` with task, priority and isr |
| HardwareTasks.TrampolineExits | macros/src/codegen/hardware_tasks.rs:57-59 | the last two steps are read as `TASK_EXIT` and then `INTERRUPT_EXIT` |
| Init.Fields | macros/src/codegen/init.rs:41-68 | one field per resource |
| Init.FieldsRoundTrip | macros/src/codegen/init.rs:41-82 | the resources are read back from the struct fields, with names, types and order |
| Init.FieldsInjective | macros/src/codegen/init.rs:41-68 | different resource lists give different field lists |
| Init.Codegen | macros/src/codegen/init.rs:28-126 | `mod_app` is `Some(locals constructor)` iff init has local resources; `root_init` is the struct pair, then the optional locals struct, then the init module; user init returns (Shared, Local, Monotonics); `call_init` is `TRACE_START` and then the call binding the triple |
| Init.CallInitTraced | macros/src/codegen/init.rs:109-114 | the trace point emitted before init is read as `TRACE_START` with `version=1` and the init's name |
| PostInit.Codegen | macros/src/codegen/post_init.rs:9-89 | the four loops and the final push build exactly `Statements` |
| PostInit.LiveMembers | macros/src/codegen/post_init.rs:13-17 | a resource is written iff it is declared and has a location |
| PostInit.LiveDistinct | macros/src/codegen/post_init.rs:13-46 | the written resources are distinct when the declared ones are |
| PostInit.SharedWrittenOnce | macros/src/codegen/post_init.rs:13-28 | each shared resource with a location is written exactly once, any other never |
| PostInit.LocalWrittenOnce | macros/src/codegen/post_init.rs:31-46 | each local resource with a location is written exactly once, any other never |
| PostInit.Layout | macros/src/codegen/post_init.rs:9-88 | length is live shared + live local + probes + 2·monotonics + 1; the groups are in order; the interrupt enable is last and appears only once |
| PostInit.MonotonicPairs | macros/src/codegen/post_init.rs:69-83 | monotonic `i` is reset at position `2i` and stored right after |
| PostInit.ProbeIds | macros/src/codegen/post_init.rs:49-67 | every probe gets one construction statement whose id constant is its upper-cased name |
| PostInit.OnceIfPresent | macros/src/codegen/post_init.rs:13 | a name of a distinct list occurs once if present, otherwise never |
| PostInit.SharedWritesCount | macros/src/codegen/post_init.rs:13-28 | each shared write occurs as often as its name |
| PostInit.LocalWritesCount | macros/src/codegen/post_init.rs:31-46 | each local write occurs as often as its name |
| Tracing.RoundTrip | macros/src/codegen/tracing.rs:7-133 | the collector's reading of a rendered event gives that event back |
| Tracing.RenderInjective | macros/src/codegen/tracing.rs:7-133 | different events have different format strings |
| Tracing.RenderPrefix | macros/src/codegen/tracing.rs:7-133 | every format string starts with `AUXON_` and the event name |
| Tracing.Collected | macros/src/codegen/tracing.rs:7-133 | a trace point laid out as an event is read back as that event |
| Tracing.TraceStartLayout | macros/src/codegen/tracing.rs:7-12 | `AUXON_TRACE_START::version=1,task=<task>`, with no arguments |
| Tracing.IdleTaskEnterLayout | macros/src/codegen/tracing.rs:14-19 | `TASK_ENTER` with task and `priority=0` |
| Tracing.InterruptEnterLayout | macros/src/codegen/tracing.rs:21-27 | `INTERRUPT_ENTER` with an interrupt-number `u32` placeholder, priority and isr; its one argument fills it |
| Tracing.InterruptExitLayout | macros/src/codegen/tracing.rs:29-33 | exactly `AUXON_INTERRUPT_EXIT`, with no fields |
| Tracing.SwTaskEnterLayout | macros/src/codegen/tracing.rs:35-45 | `TASK_ENTER` with task, priority, dispatcher, arg_cnt, then a `queue_index` `u8` placeholder |
| Tracing.HwTaskEnterLayout | macros/src/codegen/tracing.rs:47-52 | `TASK_ENTER` with task, priority and isr, and no queue index |
| Tracing.TaskExitLayout | macros/src/codegen/tracing.rs:54-58 | exactly `AUXON_TASK_EXIT`, with no fields |
| Tracing.TaskSpawnLayout | macros/src/codegen/tracing.rs:60-73 | `TASK_SPAWN` with task, interrupt placeholder, isr, arg_cnt and queue_index |
| Tracing.TaskSpawnFailedLayout | macros/src/codegen/tracing.rs:75-88 | `TASK_SPAWN_FAILED` with task, interrupt placeholder, isr and arg_cnt |
| Tracing.TaskSpawnAfterLayout | macros/src/codegen/tracing.rs:90-95 | `TASK_SPAWN_AFTER` with task, then instant and duration `u64` placeholders |
| Tracing.TaskSpawnAtLayout | macros/src/codegen/tracing.rs:97-104 | `TASK_SPAWN_AT` with task, instant, arg_cnt and queue_index |
| Tracing.TaskSpawnAtFailedLayout | macros/src/codegen/tracing.rs:106-112 | `TASK_SPAWN_AT_FAILED` with task, instant and arg_cnt |
| Tracing.TaskCancelLayout | macros/src/codegen/tracing.rs:114-119 | `TASK_CANCEL` with task |
| Tracing.TaskRescheduleAfterLayout | macros/src/codegen/tracing.rs:121-126 | `TASK_RESCHEDULE_AFTER` with task and a duration placeholder |
| Tracing.TaskRescheduleAtLayout | macros/src/codegen/tracing.rs:128-133 | `TASK_RESCHEDULE_AT` with task and an instant placeholder |
| Tracing.SpawnFailedOmitsQueueIndex | macros/src/codegen/tracing.rs:60-88 | `TASK_SPAWN` reads as the fields of `TASK_SPAWN_FAILED` followed by `queue_index` |
| Tracing.SpawnAtFailedOmitsQueueIndex | macros/src/codegen/tracing.rs:97-112 | `TASK_SPAWN_AT` reads as the fields of `TASK_SPAWN_AT_FAILED` followed by `queue_index` |
| ProbeIds.NewRange | macros/src/modality_probe/id_gen.rs:26-35 | `None` iff start > end; otherwise the range with those ends |
| ProbeIds.Reduce | macros/src/modality_probe/id_gen.rs:95 | the reduced hash is below the inclusive end |
| ProbeIds.Be16IsTop | macros/src/modality_probe/id_gen.rs:86-89 | the leading 16 bits are the top half of the leading 32 bits |
| ProbeIds.MixFormula | macros/src/modality_probe/id_gen.rs:90-94 | the mix is `(be16·0xFFFF_FFFF + be32) mod 2^32`, that is `(be32 − be16) mod 2^32` |
| ProbeIds.HashOf | macros/src/modality_probe/id_gen.rs:80-96 | a hash is below the inclusive end |
| ProbeIds.IdGen.constructor | macros/src/modality_probe/id_gen.rs:49-54 | the generator keeps its range and starts on the first UUID |
| ProbeIds.IdGen.RegenerateUuid | macros/src/modality_probe/id_gen.rs:56-58 | the UUID in use becomes the next one drawn |
| ProbeIds.IdGen.TokenHash | macros/src/modality_probe/id_gen.rs:80-96 | the hash of the UUID in use and the token, below the inclusive end |
| ProbeIds.IdGen.HashedId | macros/src/modality_probe/id_gen.rs:60-78 | the loop yields the outcome of at most 65535 attempts from the current UUID; on panic all of them were drawn |
| ProbeIds.SearchFound | macros/src/modality_probe/id_gen.rs:63-67 | a returned id is non-zero and in the range, and is the first accepted attempt within the budget |
| ProbeIds.SearchPanics | macros/src/modality_probe/id_gen.rs:61-76 | panics exactly when all attempts are rejected |
| ProbeIds.IdGenFor | macros/src/modality_probe/id_gen.rs:9-17 | `id_gen` searches the range `[1, MAX_ID]`, and a returned id lies in `[1, MAX_ID − 1]` |
| Manifest.FromCsv | macros/src/modality_probe/manifest_gen.rs:169-187 | a missing file gives no probes; otherwise every row, with its name upper-cased and every other field kept |
| Manifest.Position | macros/src/modality_probe/manifest_gen.rs:44 | `None` iff no probe has the name; otherwise the first index with that name |
| Manifest.MergeManifest | macros/src/modality_probe/manifest_gen.rs:36-70 | writes only when `Component.toml` exists, and writes the merge of the loaded probes sorted by id |
| Manifest.UpsertEffect | macros/src/modality_probe/manifest_gen.rs:43-65 | an existing name only gets its description replaced; a new name appends a probe with the component id, upper-cased name, tags `RTIC;task`, empty file and line; a missing description becomes `Probe for task <task>` |
| Manifest.MergeKeeps | macros/src/modality_probe/manifest_gen.rs:42-66 | no probe is removed, and the loaded probes keep their places and every field but the description |
| Manifest.UpsertNames | macros/src/modality_probe/manifest_gen.rs:43-65 | one upsert adds the name, and grows the list exactly when the name was absent |
| Manifest.MergeNames | macros/src/modality_probe/manifest_gen.rs:42-66 | afterwards the names are the loaded ones plus every application probe's upper-cased name |
| Manifest.MergeGrowth | macros/src/modality_probe/manifest_gen.rs:42-66 | the list grows by exactly the number of distinct new names |
| Manifest.SortByIdCorrect | macros/src/modality_probe/manifest_gen.rs:68 | sorted by ascending id, a permutation, and the order among equal ids is kept |
| Manifest.InsertStable | macros/src/modality_probe/manifest_gen.rs:68 | inserting a probe places it after those of equal id |
| Manifest.WrittenNames | macros/src/modality_probe/manifest_gen.rs:42-69 | the written list holds the loaded names and every application probe's name |
| Manifest.ManifestPaths | macros/src/modality_probe/manifest_gen.rs:135-141 | both paths start with the component directory, end in `Component.toml` and `probes.csv`, and differ |
| Text.ToUpper | macros/src/modality_probe/manifest_gen.rs:43 | upper-casing keeps the length and maps each character |
| Text.ToUpperIsUpper | macros/src/codegen/post_init.rs:55 | an upper-cased name has no lower-case letter and upper-casing is idempotent |
| Text.DecimalRoundTrip | macros/src/codegen/tracing.rs:21-24 | a rendered priority or count reads back as its value |
| Text.SplitJoin | macros/src/codegen/tracing.rs:7-133 | splitting comma-joined fields gives them back |

## Left out

- The run-time library the generated code calls is not part of this model: `rtic::export::run`, `Priority`, `SCRQ`/`Queue` and `RacyCell`. `run(P, f)` becomes "the calls in `f` are logged at priority `P`". The queues are sequences, and the bound `capacity + 1` appears only as the ready queue's parameter and as an invariant of `Handler`.
- Spawning, the ceiling lock and the monotonic timer queue are not modelled. Only their trace strings are in the model.
- Hardware preemption, pending interrupts and concurrent interleavings are not modelled. A handler run is one sequential step.
- The `quote!`/`syn` token construction, `#[cfg]`, attributes and doc strings are left out, and items are abstract values. Identifier mangling from `util` is left out too, so names appear unmangled.
- The generators `local_resources_struct`, `shared_resources_struct` and `module` are not part of this model. Their outputs are tagged by task, and the lifetime flags they set are inputs.
- The unsafe slot read, the `MaybeUninit` writes and the `get_unchecked` calls are left out. The model only requires the slot index to be in bounds.
- HardwareTasks.TrampolineCalls: a hardware task takes no inputs, so the call carries an empty input list.
- SHA3-256 and `Uuid::new_v4` are oracles. The digest is a function parameter, and successive UUIDs are a numbered stream.
- `modality_probe::ProbeId::MAX_ID` is defined in a crate that is not part of this model, so it is a parameter.
- Text.ToUpper: upper-casing is ASCII-only, while `to_uppercase` also maps non-ASCII letters.
- Manifest.MergeManifest: the id that `id_gen` would draw for application probe `k` is the parameter `ids[k]`, and `id_gen`'s panic is not propagated into the merge.
- The file reads and writes, `env`/`option_env!`, CSV and TOML parsing, and the external `modality-probe` tool runs are left out. Their contents are parameters, and `write_csv` is the returned list.
- Manifest.ManifestPaths: `Path::join` is modelled for a relative file name with `/` as the separator.
- How `defmt::trace!` encodes and sends events is not modelled. Only the format strings and their argument lists are.
- Dispatchers.Drain / Dispatchers.Handler.Run: the called tasks are assumed not to enqueue into this level's ready queue or its free queues during the run. A `Call` step does not touch the queues, so a run dispatches exactly the entries present on entry. In the source, `while let` re-reads the queue on every pass, so an entry spawned at the same level by a dispatched task would also run in that invocation.
- Dispatchers.Handler.constructor: the initial free queues, each holding every slot index `0..n-1`, are an assumption about initialisation. The code that fills them is not part of this model.
- Dispatchers.Handler.constructor: the capacity is a parameter and is not tied to the channel's `capacity`. That capacity is what the `ReadyQueue` item declares as `capacity + 1`.
- Dispatchers.Handler.Run: the drain runs on values in `Drain`, and the object's fields are assigned once from its results. In-place queue updates between entries are not observable in the model.
