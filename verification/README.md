# Verified models of the heph build system

Dafny models of the parts of heph whose correctness rests on an argument rather
than on reading one function: two concurrency protocols and a kernel-level
barrier, a pseudo-random sampler that has to terminate, a lint filter shared by
concurrent reporters, exact decimal parsing, configuration layering, and
relative package references. `dafny verify dfyconfig.toml` checks all of it.

Concurrent code is a state machine over its atomic steps (`Enabled`, `Apply`,
`IsRun`, `Run`), and its theorems range over every run. Beside it stands the
imperative code, as classes and methods whose postconditions say that each
execution is a run of that machine, or equals the specification function the
theorems are about.

| file | models |
|---|---|
| `ExecBarrier.dfy` | `close_ensure_ro_fd` and `write_executable` over processes, descriptors, open file descriptions and `flock` |
| `BlockingRunner.dfy` | the bounded blocking runner: permits, nested jobs, dropped callers, panics, a refused spawn |
| `PendingDrain.dfy` | the drain counter: an atomic count and a notifier updated in two steps |
| `SplitMix.dfy` | the SplitMix64 generator of the benchmark corpus and the loop that samples distinct indices with it |
| `RequiresClosure.dfy` | which lint analyzers can be wrapped without running twice |
| `Suppressor.dfy` | the lint suppressor: `//nolint` index, generated files, and two shared caches |
| `Capacity.dfy` | pool amounts as written text: CPUs, memory sizes, counts, shares |
| `ConfigLayers.dfy` | config layering: merge, checked merge, strict and lenient loaders |
| `HomeDir.dfy` | the home directory: lexical normalization and the refusal of a home at or above the root |
| `RelativePkg.dfy` | relative package references: rendering, resolving, address parsing |
| `Common.dfy` | `Option`, `Result` and a fact about finite sets |

## What is worth knowing before reading

- The exec barrier's two documented limits are theorems on both sides. In every
  interleaving the barrier drains every copy of the caller's description when
  the path still names the same file, and an `exec` then fails exactly when an
  independent writer has the file open; `RenameDefeatsBarrier` and
  `OtherWriterDefeatsBarrier` build, from any suitable start, a run that breaks
  each limit and defeats the barrier.
- The blocking runner's nesting rule is exact: with calls unfinished, the runner
  has no step of its own if and only if every permit is with a parked job and no
  answer is waiting. Below that bound it drains completely; at it, the deadlock
  lasts until some caller is dropped, and for every limit such a state is
  reachable.
- The lint suppressor's mutex is explicit: lookup, scan, store and unlock are
  separate steps of interleaved reporters, and at-most-once scanning, race
  freedom and correct verdicts are consequences of who holds it.
- The sampling loop of the corpus generator terminates because the generator is
  a permutation of the 64-bit words with a full cycle; both are proved, and the
  loop's bound of one cycle follows. Which permutation it is, is fixed by the
  mixing formula on plain numbers and by the published outputs.
- `below` is documented as uniform. Over a cycle it is so exactly when the bound
  divides 2^64 (`UniformIffDivides`); `CyclePicks` gives the exact counts and
  `ThreeIsUneven` an input where they differ.
- `ConfigYaml::merge` never copies `scratch`, although its comment says that
  optional fields override when present. The model follows the code;
  `ScratchIgnoresProfiles` says exactly when the two agree, and `ScratchIsLost`
  gives layers where they do not.
- The checked overlay `try_merge` is not associative (`CheckedGroupingDiffers`);
  `CheckedRightGrouping` says exactly when grouping to the right succeeds. The
  unchecked overlay is associative when the middle layer repeats no plugin
  identifier, and `RepeatBreaksAssociation` shows that no weaker condition on
  that layer will do.
- A completion candidate survives the parse-back probe exactly when its package
  name holds neither `:` nor a space; rendering itself always round-trips.

## Model

| member | source | states |
|---|---|---|
| ExecBarrier.RunKeepsInvariant | crates/core/src/fsutil.rs:57-76 | Every interleaving of the barrier with other processes keeps, for each point of the call, who holds the lock on the original description and through which descriptor. |
| ExecBarrier.NothingRevives | crates/core/src/fsutil.rs:31-33 | No system call of any process brings a description without descriptors back to life, so no later fork can create a copy. |
| ExecBarrier.BarrierSafe | crates/core/src/fsutil.rs:19-33 | In every run, once the shared lock is held on the caller's own file, and for as long as the run goes on after the return, no process holds the original description, and an exec of the file fails if and only if an independent writer has it open; never when the caller keeps the rule against independent writers. |
| ExecBarrier.DrainedForever | crates/core/src/fsutil.rs:31-33 | A drained description stays drained under any sequence of system calls, within the limits or not. |
| ExecBarrier.BlockedIffHeld | crates/core/src/fsutil.rs:67-73 | The shared acquire waits exactly while some process still holds the original description. |
| ExecBarrier.HoldersFall | crates/core/src/fsutil.rs:67-73 | While the caller waits, a step of a holder removes exactly that holder and no other step changes who holds. |
| ExecBarrier.QuietRunKeepsPolite | crates/core/src/fsutil.rs:67-73 | When racing children only exec or exit and nobody else locks the file exclusively, all copies stay close-on-exec and the caller keeps none after its close, over every run. |
| ExecBarrier.BarrierProgress | crates/core/src/fsutil.rs:67-73 | Over every such run the number of holders falls by one with each holder step, and the acquire becomes possible exactly when every holder has taken its step. |
| ExecBarrier.RenameDefeatsBarrier | crates/core/src/fsutil.rs:41-43 | From any start where another process holds a copy and the lock is free there is a run, with one rename over the path, in which the call returns, the copy is still held and an exec still fails. |
| ExecBarrier.OtherWriterDefeatsBarrier | crates/core/src/fsutil.rs:37-40 | Without the rule against independent writers there is, from any start where only the caller holds the description and its lock is free, a run in which the call returns on its own file and an exec still fails. |
| ExecBarrier.BlockingFlock | crates/core/src/fsutil.rs:62-73 | A blocking lock is granted only as a step of the protocol, at once if it is free, and gives up only when every burst of the other processes has been let in and the lock still cannot be granted. |
| ExecBarrier.Interfere | crates/core/src/fsutil.rs:67-73 | A burst of the other processes takes effect action by action, each that can happen then and is within the limits. |
| ExecBarrier.CloseEnsureRoFd | crates/core/src/fsutil.rs:57-76 | Under any schedule of the other processes its execution is a run of the protocol; a return on the same inode means drained; it fails only when the path names no file and waits only at a lock that is still busy after the whole schedule; with nobody else about it returns on its own file, and the one difference in any descriptor table is the closed descriptor. |
| ExecBarrier.RunKeepsFile | crates/core/src/fsutil.rs:37-40 | Under the rule against independent writers the file's bytes and mode are the same after every run as before it. |
| ExecBarrier.WriteExecutable | crates/core/src/fsutil.rs:86-101 | Create, write, chmod and drain, with other processes between any two calls: a return on the same inode means its own descriptors are drained and, without independent writers, that the file holds exactly the bytes, is executable and can be executed at once; it waits only at a busy lock; with nobody else about it returns, every descriptor table is as before, and only the file and its name have changed. |
| BlockingRunner.ConcurrencyLimit | crates/core/src/blocking.rs:88-102 | The limit is the larger of four and twice the cores, and sixteen when the host does not say. |
| BlockingRunner.InvariantKept | crates/core/src/blocking.rs:148-191 | Every step keeps permit accounting, the queue's contents and order, the per-thread marker and the parent links of nested calls. |
| BlockingRunner.PermitsConserved | crates/core/src/blocking.rs:48-63 | In every run from the start, free permits, granted callers and live jobs (awaited or detached) add up to the limit, so live jobs never exceed it, and a thread's marker is set exactly while a job runs on it. |
| BlockingRunner.SettledForever | crates/core/src/blocking.rs:148-191 | A call that is delivered, detached and ended, or cancelled never changes again in any run. |
| BlockingRunner.DroppedWhileQueuedNeverRuns | crates/core/src/blocking.rs:630-675 | A call dropped while it waits for a permit stays cancelled in every continuation: its job never runs. |
| BlockingRunner.SpawnedIsNeverCancelled | crates/core/src/blocking.rs:161-190 | A job once handed to the pool is never cancelled by any run, whatever happens to its caller. |
| BlockingRunner.FirstComeFirstServed | crates/core/src/blocking.rs:153-160 | Of two waiting calls the later one never gets a permit while the earlier one still waits, in any run. |
| BlockingRunner.AnswersAreTheJobs | crates/core/src/blocking.rs:171-190 | In every run a call that has an answer has the one its job ended with, and a job that ended has that answer waiting, delivered, or thrown away. |
| BlockingRunner.PanicIsDeliveredIffJobPanicked | crates/core/src/blocking.rs:171-190 | A caller gets a panic exactly when its job panicked, a value exactly when it returned, and the lost report exactly when the runtime refused it. |
| BlockingRunner.OnlyDropsLetGo | crates/core/src/blocking.rs:48-63 | An answer is thrown away, or a call cancelled or detached, only if that call was dropped. |
| BlockingRunner.Progress | crates/core/src/blocking.rs:559-577 | While fewer jobs than the limit are parked on a nested call, any unfinished call leaves the runner a step of its own to take. |
| BlockingRunner.DrainsCompletely | crates/core/src/blocking.rs:48-63 | Under that bound every schedule of the runner's own steps is finite with an explicit bound, and stops only when every call is settled. |
| BlockingRunner.StuckIffDeadlocked | crates/core/src/blocking.rs:84-87 | In every state the runner can be in with calls unfinished, it has no step of its own if and only if as many jobs are parked as there are permits and no answer is waiting to be picked up. |
| BlockingRunner.DeadlockIsPermanent | crates/core/src/blocking.rs:84-87 | From such a state, in every run without a dropped caller, new calls only join the queue and every existing call stays exactly as it is. |
| BlockingRunner.AllParkedIsStuck | crates/core/src/blocking.rs:48-63 | For every positive limit such a state is reachable, with an unfinished call and no step of the runner's own. |
| BlockingRunner.Runner.ReleasePermit | crates/core/src/blocking.rs:161-170 | A returned permit goes to the first queued call, or back to the free ones if nobody waits. |
| BlockingRunner.Runner.Acquire | crates/core/src/blocking.rs:153-160 | Taking a permit or joining the queue is the submit step of the machine and keeps the invariant. |
| BlockingRunner.Runner.SpawnBlocking | crates/core/src/blocking.rs:161-170 | The permit moves into the job, or is released at once and the call is lost when a dead runtime drops the closure. |
| BlockingRunner.Runner.BeginJob | crates/core/src/blocking.rs:126-141 | A pool thread starts the job and sets its marker. |
| BlockingRunner.Runner.EndJob | crates/core/src/blocking.rs:126-141 | By return or by unwinding, the marker is cleared, the permit released, and a caller still waiting has that value or that panic. |
| BlockingRunner.Runner.Await | crates/core/src/blocking.rs:171-190 | The caller gets the answer its call finished with, and the call is settled with it. |
| BlockingRunner.Runner.DropFuture | crates/core/src/blocking.rs:48-63 | Dropping the caller's future cancels a call without a job and detaches one with a job, returning the permit where it was held. |
| PendingDrain.InvariantKept | crates/core/src/pending.rs:36-73 | Every interleaved step keeps: a parked waiter that was not woken has a wake-up coming, and each extra turn of a waiter used up a wake-up. |
| PendingDrain.NoLostWakeUpEver | crates/core/src/pending.rs:63-73 | In every run a waiter parked without a wake-up means the count is positive or a retirer still owes the wake-up, and a waiter's turns are at most one more than the wake-ups sent since it began. |
| PendingDrain.CountIsBalance | crates/core/src/pending.rs:36-48 | In every run the count is what was added less what was retired. |
| PendingDrain.ReturnedSawZero | crates/core/src/pending.rs:63-73 | A call that returned did so at a check of its own at which the count was zero. |
| PendingDrain.PotentialFalls | crates/core/src/pending.rs:42-73 | Every step after registrations stop lowers one measure of the whole system. |
| PendingDrain.EveryWaiterReturns | crates/core/src/pending.rs:63-73 | Once registrations stop every schedule is bounded, waiters dropped on the way included, and where nothing but a drop is left the count is zero and every waiter not dropped has returned. |
| PendingDrain.Pending.FetchAdd | crates/core/src/pending.rs:36-38 | Returns the previous count and adds exactly `n`, waking nobody. |
| PendingDrain.Pending.FetchSub | crates/core/src/pending.rs:42-48 | Returns the previous count; with other tasks between its two steps, the call itself adds the decrement and, exactly when it reached zero, one wake-up, after which no registered waiter is unwoken. |
| PendingDrain.Pending.WaitDrained | crates/core/src/pending.rs:63-73 | A completed wait names the moment inside the call at which the count was zero; an unfinished one has let in every burst of the other tasks and is parked with a wake-up still coming; undisturbed it completes exactly when the count is zero; its turns are paid for by wake-ups. |
| SplitMix.XorShiftUndone | crates/bench-corpus/src/lib.rs:31-37 | Exclusive or with a right shift by at least a third of the word can be undone. |
| SplitMix.XorShiftRedone | crates/bench-corpus/src/lib.rs:31-37 | And the undoing is itself undone by it, so it permutes the words. |
| SplitMix.MulUndone | crates/bench-corpus/src/lib.rs:31-37 | A wrapping multiplication by a unit is undone by its inverse. |
| SplitMix.ShrIsDivision | crates/bench-corpus/src/lib.rs:31-37 | Shifting right by `n` is dividing by two to the `n`. |
| SplitMix.XorIsExact | crates/bench-corpus/src/lib.rs:31-37 | The exclusive or of two numbers is the one number whose every bit says whether theirs differ. |
| SplitMix.MixWrittenOut | crates/bench-corpus/src/lib.rs:31-37 | The output function is the three published xor-divide steps and two multiplications, with the literal constants. |
| SplitMix.StateAfterIs | crates/bench-corpus/src/lib.rs:31-37 | After `k` calls the state is `k` increments on, modulo 2^64. |
| SplitMix.PublishedOutputs | crates/bench-corpus/src/lib.rs:31-37 | From state 0 the first three words are SplitMix64's published ones. |
| SplitMix.MixIsPermutation | crates/bench-corpus/src/lib.rs:31-37 | The generator's output function is a bijection of the 64-bit words, with an explicit inverse on both sides. |
| SplitMix.OneCloser | crates/bench-corpus/src/lib.rs:31-37 | Each call brings the state exactly one call closer to any other state, or arrives. |
| SplitMix.EveryWordIsDrawn | crates/bench-corpus/src/lib.rs:31-37 | From any state every word is drawn within 2^64 calls. |
| SplitMix.NoWordIsDrawnTwice | crates/bench-corpus/src/lib.rs:31-37 | The 2^64 successive draws from any state are all different. |
| SplitMix.IndexIsRemainder | crates/bench-corpus/src/lib.rs:40-46 | The index picked is the drawn word's remainder by the bound. |
| SplitMix.EveryIndexIsHit | crates/bench-corpus/src/lib.rs:40-46 | From any state every index below the bound is picked within 2^64 draws. |
| SplitMix.CycleTouchesAll | crates/bench-corpus/src/lib.rs:381-386 | From any state one cycle of draws touches every index below the bound. |
| SplitMix.Rng.NextU64 | crates/bench-corpus/src/lib.rs:31-37 | One call advances the state by the literal increment and returns the word of the literal mixing formula on the new state; that is the cycle's next draw. |
| SplitMix.Rng.Below | crates/bench-corpus/src/lib.rs:40-46 | An index below the bound from one draw; a zero bound gives zero and draws nothing. |
| SplitMix.Sample | crates/bench-corpus/src/lib.rs:381-386 | The loop terminates within one cycle with exactly `n` distinct indices in range: those of the shortest run of draws that has as many. |
| SplitMix.CyclePicks | crates/bench-corpus/src/lib.rs:39-46 | Over one cycle, from any state, an index is picked 2^64 divided by the bound times, and once more when it is below the remainder. |
| SplitMix.UniformIffDivides | crates/bench-corpus/src/lib.rs:39-46 | All indices are picked equally often over a cycle if and only if the bound divides 2^64. |
| SplitMix.ThreeIsUneven | crates/bench-corpus/src/lib.rs:39-46 | With three packages the first is picked once more than the last, from any state. |
| SplitMix.TouchOne | crates/bench-corpus/src/lib.rs:431-436 | One turn adds exactly the next draw's index to the indices so far. |
| RequiresClosure.Search.Visit | tools/heph-govet/filter.go:389-404 | Adds only analyzers reachable from the one visited, and everything added, and it, has all its requirements in the set. |
| RequiresClosure.Search.RequiresClosure | tools/heph-govet/filter.go:389-404 | Terminates on every finite graph, cycles included, with exactly the analyzers some selected one requires through one or more edges. |
| RequiresClosure.WrapAnalyzers | tools/heph-govet/filter.go:368-387 | Emits each selected analyzer in its place, wrapped exactly when no selected analyzer requires it. |
| RequiresClosure.NothingRunsTwice | tools/heph-govet/filter.go:368-387 | No analyzer runs both wrapped and as its original, in the emission or through what it requires. |
| RequiresClosure.WrapsAllThatIsSafe | tools/heph-govet/filter.go:368-387 | Any emission of the same selection that runs nothing twice wraps only what this one wraps. |
| Suppressor.SplitIsAtCommas | tools/heph-govet/filter.go:329-345 | The pieces of a name list hold no comma and, joined with commas, are the list again. |
| Suppressor.SplitUndoesJoin | tools/heph-govet/filter.go:329-345 | Any comma-free pieces joined with commas are split back into exactly those pieces. |
| Suppressor.NameSetNames | tools/heph-govet/filter.go:310-355 | A name set silences a linter exactly when some listed piece names it or all. |
| Suppressor.DirectiveNames | tools/heph-govet/filter.go:310-355 | What a line's directive silences is what its text names. |
| Suppressor.IndexIsExact | tools/heph-govet/filter.go:310-366 | The line index covers a finding exactly when its own line's directive, or an own-line directive just above, names the linter or all. |
| Suppressor.ScanNolint | tools/heph-govet/filter.go:310-355 | The scanning loop builds exactly that index. |
| Suppressor.CollectNames | tools/heph-govet/filter.go:310-355 | The name loop builds exactly the set the directive names. |
| Suppressor.DetectGenerated | tools/heph-govet/filter.go:272-296 | The scan with its early exits decides whether a file is generated, in each of the three modes. |
| Suppressor.RuleLaws | tools/heph-govet/filter.go:193-207 | A blank exclusion rule hits everything, and each condition it has narrows it on its own. |
| Suppressor.FilterLaws | tools/heph-govet/filter.go:170-207 | No filters drop nothing; one more path or rule drops what it matches; `pathsExcept`, once there is any, drops what none of it matches. |
| Suppressor.InvariantKept | tools/heph-govet/filter.go:211-258 | Every step of every reporter keeps: inside a critical section is exactly who holds the mutex, stored entries are what a fresh scan gives, a missed entry stays missing until its finder stores it, and each scan is an entry or about to become one. |
| Suppressor.MapsAreNeverRaced | tools/heph-govet/filter.go:32-42 | In every interleaving no two reporters are in a critical section, or at a map access, at the same time. |
| Suppressor.CachesAreInvisible | tools/heph-govet/filter.go:170-227 | However the reporters' lookups, scans, stores, unlocks and reads interleave, each verdict is the one an uncached decision gives, and no file is scanned twice for the same cache. |
| Suppressor.EveryFindingIsDecided | tools/heph-govet/filter.go:170-227 | Once findings stop, every schedule is bounded, and where no reporter can move each has its verdict: nobody waits for the mutex for good. |
| Suppressor.Shared.IsGenerated | tools/heph-govet/filter.go:249-258 | The cached answer is the direct one, and the cache gains at most this file. |
| Suppressor.Shared.NolintCovers | tools/heph-govet/filter.go:211-227 | The cached answer is whether a directive of the file covers the finding, and the cache gains at most this file. |
| Suppressor.Shared.Suppressed | tools/heph-govet/filter.go:170-209 | The verdict through the caches equals the uncached decision over files, rules and directives. |
| Capacity.RoundShort | crates/core/src/capacity.rs:137-168 | A fraction of up to six digits is scaled without rounding. |
| Capacity.RoundLong | crates/core/src/capacity.rs:137-168 | A longer one rounds half up on its seventh digit alone, whatever the digits after it. |
| Capacity.ParseFraction | crates/core/src/capacity.rs:148-158 | The digit loop computes the fraction rounded half up to micro-CPUs. |
| Capacity.ParseCpu | crates/core/src/capacity.rs:137-168 | The parser with its error order equals the specification of `CpuExact`. |
| Capacity.CpuExact | crates/core/src/capacity.rs:137-168 | Text is accepted exactly when it is a decimal whose nearest number of micro-CPUs, computed over the reals, fits 64 bits and is not a zero made from something; the result is that number. |
| Capacity.CpuRefusals | crates/core/src/capacity.rs:137-168 | Which refusal a text gets: below the step, too large, or not a number, each exactly when. |
| Capacity.CpuRoundTrip | crates/core/src/capacity.rs:114-127 | Every 64-bit number of micro-CPUs prints to text that parses back to it. |
| Capacity.CanonicalRoundTrip | crates/core/src/capacity.rs:91-127 | In every unit the canonical text of any 64-bit amount parses back to that amount. |
| Capacity.CanonicalIsShortest | crates/core/src/capacity.rs:114-127 | Canonical CPU text has no leading zeros and, for fractional amounts only, a dot and at most six digits not ending in zero. |
| Capacity.SizeFactorIs | crates/core/src/units.rs:60-70 | The unit table is the documented rule: a letter K, M, G or T in any case, optionally followed by B or iB, is a power of 1024; nothing or B is bytes; anything else is no unit. |
| Capacity.MemorySizeIs | crates/core/src/units.rs:50-73 | A decimal followed at once by a unit is that many of the unit, refused when the unit is none or the bytes do not fit 64 bits. |
| Capacity.PoolsAreReadInTheirUnits | crates/core/src/capacity.rs:250-266 | Without a unit `cpu` is read in CPUs, `memory` in bytes and any other pool as a count, and only the two builtins may be a share. |
| Capacity.CapacityRoundTrip | crates/core/src/capacity.rs:195-214 | Canonical amounts and percentages parse back as capacities, and zero, shares of zero and shares of pools without a default are refused exactly where they should be. |
| ConfigLayers.LenientRefinesStrict | crates/config/src/config_yaml.rs:915-944 | Whatever layers the strict loader accepts, the lenient loader reads from them the version pin the strict result holds. |
| ConfigLayers.PoolsAreFixed | crates/config/src/config_yaml.rs:119-148 | Over any number of accepted layers each pool's unit is the first one given for it and its value the last one written. |
| ConfigLayers.StrictFailsIffUnitChanges | crates/config/src/config_yaml.rs:119-135 | Loading fails exactly when some profile gives a pool a unit other than the one fixed before it. |
| ConfigLayers.FirstUnitIs | crates/config/src/config_yaml.rs:119-135 | The first unit is what layer `j` gives when it names the pool and no earlier layer does, and none exactly when no layer names it. |
| ConfigLayers.ResolvesIffPoolsOk | crates/config/src/config_yaml.rs:152-162 | Resolving succeeds exactly when, for every pool some layer names, a builtin is given its own unit and the last value written parses in the first unit given. |
| ConfigLayers.ResolvedPools | crates/config/src/config_yaml.rs:152-162 | A resolved pool has the first unit any layer gave, a builtin its own, and the last value written, read in that unit. |
| ConfigLayers.LastPresentIs | crates/config/src/config_yaml.rs:456-465 | The value layering ends with is layer `j`'s when it sets the field and no later layer does, and the base's when none does. |
| ConfigLayers.ScalarsLastPresentWins | crates/config/src/config_yaml.rs:472-514 | Every optional field but `scratch` ends as the last layer that sets it says, over any number of layers. |
| ConfigLayers.CachesLastPresentWin | crates/config/src/config_yaml.rs:347-366 | A cache exists exactly when some layer names it, and each of its fields is the last one set for it. |
| ConfigLayers.ResolvedCaches | crates/config/src/config_yaml.rs:370-383 | A cache resolves exactly when some layer gave its `uri`, with each setting the last one given or its default. |
| ConfigLayers.ScratchIgnoresProfiles | crates/config/src/config_yaml.rs:456-514 | `scratch` stays the base's; it follows the documented rule exactly when no profile sets it or the last that does repeats the base. |
| ConfigLayers.ScratchIsLost | crates/config/src/config_yaml.rs:456-514 | Two layers, for any `scratch` block, where the profile sets it and the loaded config has none. |
| ConfigLayers.MergeLookup | crates/config/src/config_yaml.rs:520-527 | Looking a plugin up after a merge gives the overlay's last entry for it, else the base's. |
| ConfigLayers.MergeKeepsOrder | crates/config/src/config_yaml.rs:520-527 | Base plugins keep their places, new ones follow, and distinct identifiers stay distinct. |
| ConfigLayers.NewEntriesFollow | crates/config/src/config_yaml.rs:520-527 | The entries after the base's are named by the overlay, in the order it first names them. |
| ConfigLayers.PluginsAssociate | crates/config/src/config_yaml.rs:520-527 | Plugin merging is associative when the middle list repeats no identifier. |
| ConfigLayers.RepeatBreaksAssociation | crates/config/src/config_yaml.rs:520-527 | For every middle list that repeats one, some overlay makes the two groupings differ. |
| ConfigLayers.MergeAssociates | crates/config/src/config_yaml.rs:472-514 | Overlaying whole configs is associative under that same condition. |
| ConfigLayers.CheckedRightGrouping | crates/config/src/config_yaml.rs:466-470 | Merging the last two layers first succeeds exactly when merging left to right does and those two agree by themselves; then the results are equal. |
| ConfigLayers.CheckedGroupingDiffers | crates/config/src/config_yaml.rs:466-470 | Three layers that load in order while the last two do not merge by themselves. |
| ConfigLayers.OverlayPlugins | crates/config/src/config_yaml.rs:520-527 | The loop that replaces the first match or appends computes that merge. |
| ConfigLayers.FindClash | crates/config/src/config_yaml.rs:119-135 | The check passes exactly when no pool's unit would change, and otherwise names such a pool. |
| ConfigLayers.OverlayResources | crates/config/src/config_yaml.rs:140-148 | The loop over pools computes the field-by-field overlay. |
| ConfigLayers.OverlayCaches | crates/config/src/config_yaml.rs:347-366 | The loop over caches computes the patch overlay. |
| ConfigLayers.ConfigYaml.MergeFrom | crates/config/src/config_yaml.rs:472-514 | In-place merging gives the overlay of the old value, every field accounted for. |
| ConfigLayers.ConfigYaml.TryMergeFrom | crates/config/src/config_yaml.rs:466-470 | A refused overlay leaves the config as it was; an accepted one merges. |
| ConfigLayers.LoadWithProfiles | crates/config/src/config_yaml.rs:926-944 | Folding layers in place, stopping at the first refusal, is the strict loader. |
| HomeDir.NormalizeComponents | crates/config/src/home_dir.rs:98-113 | The stack loop computes the directory that following the components reaches, `..` at the root staying there. |
| HomeDir.NormalizeIdempotent | crates/config/src/home_dir.rs:98-113 | Normalizing a normalized path changes nothing. |
| HomeDir.NormalizeJoin | crates/config/src/home_dir.rs:98-113 | Normalizing a join continues from the normalized root. |
| HomeDir.WalkIsMove | crates/config/src/home_dir.rs:98-113 | Every relative path acts, from any directory, as a number of climbs followed by plain names. |
| HomeDir.WalkLaws | crates/config/src/home_dir.rs:98-113 | A name descends, `..` undoes a name and stays at the root, `.` does nothing, and paths are followed piece by piece. |
| HomeDir.NormalForm | crates/config/src/home_dir.rs:98-113 | An absolute path's normal form is its own, a relative one's continues from the working directory, and only the empty path has none. |
| HomeDir.RelativeHome | crates/config/src/home_dir.rs:60-74 | A configured relative home is refused exactly when its normal form climbs and then only walks back down the root's own chain; otherwise it is that directory. |
| HomeDir.AbsoluteHome | crates/config/src/home_dir.rs:60-74 | A configured absolute home is used as written, refused exactly when its normal form is the root or above it. |
| HomeDir.NoRootNoHome | crates/config/src/home_dir.rs:60-74 | An empty root gives no home, whatever is configured. |
| HomeDir.ResolvedHome | crates/config/src/home_dir.rs:60-74 | The configured path's target, or `.heph` under the root, is the answer exactly when it is strictly below the root or off its ancestor chain, and is refused otherwise. |
| HomeDir.DefaultHome | crates/config/src/home_dir.rs:60-74 | The default home always resolves, one level below the root. |
| RelativePkg.RenderRoundTrips | src/commands/completion.rs:145-162 | The resolver reads a rendered reference back as exactly the target, and there is no reference exactly when the two packages are the same. |
| RelativePkg.RenderUsesFewestUps | src/commands/completion.rs:145-162 | No reference that resolves to the target from the base has fewer `..` than the rendered one. |
| RelativePkg.ResolvesIffWalks | crates/model/src/htpkg/pkg.rs:76-123 | The resolver gives a package exactly when walking the reference component by component from the base reaches it. |
| RelativePkg.SplitIsAtSlashes | crates/model/src/htpkg/pkg.rs:76-91 | The pieces of a path hold no slash and, joined with slashes, are the path again. |
| RelativePkg.WalkLaws | crates/model/src/htpkg/pkg.rs:76-91 | A name descends, `..` undoes a name and fails at the root, an empty piece or `.` does nothing. |
| RelativePkg.EscapesIffAboveRoot | crates/model/src/htpkg/pkg.rs:76-91 | A reference is refused exactly when some prefix of it goes above the workspace root, even if the rest comes back. |
| RelativePkg.AddressForms | crates/model/src/htaddr/parse.rs:81-127 | `//pkg:name` is read whatever the base, `:name` in the base's own package, and a relative path in the package it leads to. |
| RelativePkg.ParsedPkgOk | crates/model/src/htaddr/parse.rs:129-149 | A parsed address never has a `:` or a space in its package. |
| RelativePkg.ParseAbsolute | crates/model/src/htaddr/parse.rs:129-149 | A canonical package parses back from its absolute form with any plain target name. |
| RelativePkg.ProbeIsExact | src/commands/completion.rs:166-170 | The parse-back probe keeps a rendered package if and only if its name holds neither `:` nor a space. |

## Left out

- ExecBarrier.WriteExecutable: assumes that the create succeeds and, for its content clause, that nobody had the file open for writing before it; write and chmod errors are not modelled.
- ExecBarrier.CloseEnsureRoFd: `flock` errors, `EINTR` and the NFS emulation of `flock` are not modelled; a wait that outlasts the given schedule is reported as an outcome of its own.
- Other processes are assumed not to change the lock on a description they inherited; the source relies on children that only exec.
- SplitMix.Sample: takes the sample size `n` up to the length; the floating-point `fraction_count` that clamps it, the seed salts and the rewriting of files afterwards are not modelled.
- SplitMix.TouchOne: is the turn both sampling loops share; the two differ only in the list they index.
- PendingDrain.Pending.FetchSub: `n` is at most the count, as its callers guarantee; counter wrap-around and memory orderings weaker than sequential consistency are not modelled.
- BlockingRunner: the pool's own thread limit, fairness beyond the semaphore's first-in-first-out handoff, and the text of reports are not modelled.
- Suppressor: an index is a value, where the source shares one map that it never writes after storing it; regular expressions, trimming and the generated-file markers are parameters; preset expansion, `matchText` and the report plumbing of `withFilter` are not modelled.
- RequiresClosure: an analyzer is its identity; facts and result types are not modelled.
- Capacity: resolving a percentage against the host, rendering for people, and pool-name validation are not modelled; error texts are constructors.
- ConfigLayers: YAML decoding, file reading, the choice of profiles from the environment and the pool name in the unit error are not modelled; layers start parsed.
- HomeDir: turning text into components, and symbolic links, are not modelled; `std::path::absolute` is prefixing the working directory.
- RelativePkg: the grammar of address arguments is a parameter; listing and sorting completion candidates is not modelled.
- Directory-tree helpers (`make_readwrite_tree`, `remove_dir_all`), signals, shell completion scripts, error rendering, the credential helper, benchmark comparison and the corpus generators would only add easy members.
- The build engine, the plugins and their ABI, remote caches, sandboxing and telemetry are not part of this model.
