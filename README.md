# dair_pll data management, modelled in Dafny

This project models the data-handling core of `dair_pll`. It covers three parts:

- **The trajectory store** (`dair_pll/file_utils.py`). Numbered trajectory files live in a storage directory. The model covers how they are counted, how the next free name is chosen, how an external data directory is imported, and how the sizes of a dataset-size sweep are listed.
- **The dataset manager** (`dair_pll/dataset_management.py`):
  - `TrajectorySliceDataset` cuts trajectories into (history window, future window) pairs, and `TrajectorySet` pairs a trajectory list with its slices.
  - `SystemDataManager` picks one data source: generation, import, or waiting for an outside writer. It loads trajectories by index and splits them into train, valid and test sets. In dynamic mode the sets grow as new files appear.
- **The Drake helpers** (`dair_pll/drake_utils.py`): the collision geometry set, the product state space of a plant, and the body lists with their identifiers.

Files:

| file | module | contents |
|---|---|---|
| `py_lists.dfy` | `PyLists` | Python list semantics: slices with negative and out-of-range bounds, negative indexing, `Option` for operations that raise |
| `file_utils.dfy` | `FileUtils` | `str(n)` and its inverse, POSIX `os.path.join`, the `[0-9]*<ext>` count, the dense-directory invariant, `append_by_extension`, sweeps, import |
| `slicing.dfy` | `DatasetSlices` | the slicing windows as functions; the two classes |
| `split.dfy` | `DatasetSplit` | `round` (ties to even) on exact numbers, the split sizes, cutting a shuffled selection into blocks, disjointness |
| `manager.dfy` | `DatasetManager` | noise and generation, the generation loop, loading, the first split and the split growth, the `SystemDataManager` constructor |
| `drake_utils.dfy` | `DrakeUtils` | collision geometry deduplication, state-space factors, body lists and identifiers |

### State and effects

- The data directory is a `Directory<Trajectory>` object. Its `files` map goes from base name to stored trajectory. `torch.save` is a map update and `torch.load` a map lookup.
- `SystemDataManager` and the two dataset classes are Dafny classes whose methods update their fields in place. `TrajectorySet.trajectories` is a real field, as in the source. Two ghost fields exist only for the proofs: `TrajectorySliceDataset.trajectories` records which trajectories a slice dataset was cut from, and `SystemDataManager.indices` records the file index of each trajectory of each of the three sets.
- The manager's invariant, `Valid`, says three things:
  - no file index is in two sets;
  - every index is below the count on disk;
  - each slice dataset holds exactly the slices of its set's trajectories.
- Inputs that depend on the world outside are parameters:
  - `torch.randperm` is a parameter `shuffle`, where `shuffle(m)` is a permutation of `0 .. m-1`;
  - the simulator and the noisers form the `SystemModel` record of functions;
  - trajectories written by other processes during generation arrive as the `external` batches;
  - the answers of Drake's `MultibodyPlant` and `SceneGraphInspector` are plain values and functions.
- An `assert` or exception in the source becomes a failure result: `None`, `false`, `null`, or a `Status`.

### Where the code and its description disagree

- **Generation can fail to terminate.** `generate` is described as terminating whenever the simulator returns trajectories, but the code does not always terminate. It names new files by the count of numeric files, so on some directories with a gap every round overwrites an existing file and the count never moves. For example, with only `1.pt` and `n_pop = 2`, each round saves over `1.pt` and the count stays 1 (`GenerateRoundStallsOnGap`). Other directories with gaps do terminate (see `Generate` under "Left out"). The model follows the code. `Generate` requires a dense directory, and its termination is proved under that condition.
- **The split growth can fail on a shrinking count.** The growth is described only for a count that rises. When the count falls, the code still records the new count and then fails in `torch.randperm` on a negative size. The model does the same (`GrowthOutcome` is false whenever the count did not grow).
- **The unclamped test share of the growth.** The growth does not clamp its test share the way the first split does. `IncrementalTestCapped` shows that slicing caps it all the same: test never receives more than what train and valid leave of the new indices. `ClampImmaterial` shows that the first split's clamp changes nothing for non-negative sizes.

### Body identifiers

`unique_body_identifier` joins the model name and the body name with `_`. It determines both names only when model names contain no underscore (`UniqueBodyIdentifierInjective`). `UniqueBodyIdentifierCollision` exhibits two bodies of different models with the same identifier.

## Model

| member | source | states |
|---|---|---|
| FileUtils.DigitsValueOfNatToString | dair_pll/file_utils.py:196-199 | parsing the decimal name of `n` gives back `n` |
| FileUtils.TrajectoryFile | dair_pll/file_utils.py:196-199 | defined as `<storage>/data/<k>.pt`; its property is `TrajectoryFileInjective` |
| FileUtils.GetTrajectoryCount | dair_pll/file_utils.py:185-187 | defined as the `[0-9]*.pt` count of the data directory; its properties are `NumericFileCount` and `DenseCount` |
| FileUtils.AppendByExtension | dair_pll/file_utils.py:202-231 | defined as `<directory>/<count><ext>`; its properties are `AppendByExtensionFresh`, `AppendByExtensionExample` and `AppendByExtensionCollidesOnGap` |
| FileUtils.DenseAboveIsFresh | dair_pll/file_utils.py:202-231 | on a dense directory of `n` files no name `<k><ext>` with `k >= n` is taken |
| FileUtils.SweepSummaryFile | dair_pll/file_utils.py:255-271 | defined as `<n_run>.pkl`, or the next numbered `.pkl`, in the sweep directory; its property is `SweepSummaryFileNext` |
| FileUtils.Reconciled | dair_pll/file_utils.py:86-102 | defined as the source when the two counts differ and the target otherwise; its properties are `ReconciledCounts` and `ReconciledIdempotent` |
| FileUtils.TrajectoryFileInjective | dair_pll/file_utils.py:196-199 | two trajectory indices have the same file path exactly when they are equal |
| FileUtils.TrajectoryFileNameInjective | dair_pll/file_utils.py:196-199 | two trajectory indices have the same file name exactly when they are equal |
| FileUtils.NumericFileCount | dair_pll/file_utils.py:166-182 | the count of `[0-9]*<ext>` names is a cardinality, never more than the number of entries |
| FileUtils.NumericFileCountExample | dair_pll/file_utils.py:170-172 | `{7.pt, 11.pt, 4.pt}` counts 3, as the docstring says |
| FileUtils.DenseCount | dair_pll/file_utils.py:166-187 | on a directory whose numeric files are exactly `0<ext> .. <n-1><ext>`, the count is `n` |
| FileUtils.DenseNextIsFresh | dair_pll/file_utils.py:202-231 | on such a directory the name `<n><ext>` is not taken |
| FileUtils.DenseAdd | dair_pll/file_utils.py:202-231 | adding `<n><ext>` to a dense directory of `n` files gives a dense one of `n + 1` |
| FileUtils.AppendByExtensionFresh | dair_pll/file_utils.py:202-231 | on a dense directory of `n` files the chosen path is `<directory>/<n><ext>` and names a new file |
| FileUtils.AppendByExtensionExample | dair_pll/file_utils.py:209-212 | `{0.pt, 1.pt, 2.pt}` in `/fldr` gives `/fldr/3.pt`, as the docstring says |
| FileUtils.AppendByExtensionCollidesOnGap | dair_pll/file_utils.py:221-223 | contiguity is not checked: on `{1.pt}` the chosen name `1.pt` already exists |
| FileUtils.SweepSummaryFileNext | dair_pll/file_utils.py:255-271 | without `n_run` the summary file on a dense sweep directory of `n` files is the one for `n_run = n`, and it does not exist yet |
| FileUtils.Filter | dair_pll/file_utils.py:249 | keeps exactly the entries that start with a digit |
| FileUtils.InsertSorted | dair_pll/file_utils.py:251 | inserting into a sorted list keeps it sorted and adds exactly that element |
| FileUtils.SortAscending | dair_pll/file_utils.py:251 | the result is sorted and a permutation of the input |
| FileUtils.SortedUnique | dair_pll/file_utils.py:247-252 | two sorted permutations of the same values are equal, so the sweep sizes do not depend on the listing order |
| FileUtils.ConvertedNames | dair_pll/file_utils.py:249-250 | the converted values are exactly the values of the digit-only entries |
| FileUtils.SweepDataSizes | dair_pll/file_utils.py:247-252 | succeeds exactly when every digit-led entry is a whole number; then the result is sorted, one value per such entry, holding exactly their values |
| FileUtils.ReconciledCounts | dair_pll/file_utils.py:86-102 | after an import both directories report the same trajectory count; the target is untouched when the counts already agree and otherwise becomes the source |
| FileUtils.ReconciledIdempotent | dair_pll/file_utils.py:86-102 | importing twice is importing once |
| FileUtils.ImportDataToStorage | dair_pll/file_utils.py:86-102 | the data directory becomes the reconciled one and reports the source's count |
| DatasetSlices.SliceCount | dair_pll/dataset_management.py:103-113 | a trajectory passing `first <= last` gives `len - t_prediction - t_skip` pairs, one failing it none; both lists have the same length |
| DatasetSlices.WindowBounds | dair_pll/dataset_management.py:94-113 | pair `k` is cut at anchor `t_skip + k`: history rows `[i+1-t_history, i+1)`, future rows `[i+1, i+1+t_prediction)`, both inside the trajectory and of full length |
| DatasetSlices.AllSlicesAppend | dair_pll/dataset_management.py:100-101 | slicing `a + b` gives the slices of `a` followed by those of `b` |
| DatasetSlices.AllSlicesSameLength | dair_pll/dataset_management.py:115-119 | the history and future lists are equally long |
| DatasetSlices.Locate | dair_pll/dataset_management.py:118-119 | input `k` and output `k` come from the same trajectory at the same anchor |
| DatasetSlices.TrajectorySliceDataset.New | dair_pll/dataset_management.py:84-101 | succeeds exactly when `t_skip + 1 >= t_history` and every trajectory is sliceable; then the dataset holds the slices of all trajectories in order |
| DatasetSlices.TrajectorySliceDataset.AddSlicedTrajectory | dair_pll/dataset_management.py:103-113 | appends exactly the pairs of the trajectory's anchors, or fails without change when `first > last` |
| DatasetSlices.TrajectorySliceDataset.AppendWindows | dair_pll/dataset_management.py:111-113 | the window loop appends one history and one future window per anchor, in anchor order |
| DatasetSlices.TrajectorySliceDataset.Length | dair_pll/dataset_management.py:115-116 | the number of pairs, equal to the output list's length |
| DatasetSlices.TrajectorySliceDataset.GetItem | dair_pll/dataset_management.py:118-119 | defined exactly for Python's valid indices `-len <= idx < len`; index `idx >= 0` gives the input and output at `idx`, a negative one those at `len + idx` |
| DatasetSlices.TrajectorySet.constructor | dair_pll/dataset_management.py:122-125 | a trajectory list paired with the slices cut from it |
| DatasetSlices.TrajectorySet.ExtendWith | dair_pll/dataset_management.py:289-292 | appends the trajectories; succeeds exactly when all are sliceable, and then the old slices are an unchanged prefix of the new |
| DatasetSplit.RoundHalfEven | dair_pll/dataset_management.py:251-253 | `round` gives an integer within one half, and on a tie the even one |
| DatasetSplit.PortionBounds | dair_pll/dataset_management.py:251-253 | a fraction in `[0, 1]` of `n` is between 0 and `n` |
| DatasetSplit.InitialSplitSizes | dair_pll/dataset_management.py:251-254 | train and valid are rounded fractions; test is the rounded fraction clamped to what train and valid leave |
| DatasetSplit.InitialSplitWithinPopulation | dair_pll/dataset_management.py:251-255 | the first split never asks for more than the `n` trajectories on disk |
| DatasetSplit.InitialSplitExample | dair_pll/dataset_management.py:251-255 | 100 trajectories at 0.5 / 0.25 / 0.25 give 50 / 25 / 25 |
| DatasetSplit.BlocksPartition | dair_pll/dataset_management.py:259-263 | train, valid and test blocks concatenated are the whole selection, for any sizes |
| DatasetSplit.BlockSizes | dair_pll/dataset_management.py:259-263 | each block's length for non-negative sizes |
| DatasetSplit.ClampImmaterial | dair_pll/dataset_management.py:254-257 | the clamp of the test size does not change the selected prefix |
| DatasetSplit.IncrementalTestCapped | dair_pll/dataset_management.py:274-284 | without a clamp the growth's test block still gets at most what train and valid leave of the new indices |
| DatasetSplit.SelectionProperties | dair_pll/dataset_management.py:221-222 | the first `N_requested` of a shuffled range are distinct, inside the range, and `min(N_requested, range size)` many |
| DatasetSplit.RangeSelection | dair_pll/dataset_management.py:221-222 | defined as the first `N_requested` of the shuffle of `[lo, hi)`; its property is `SelectionProperties` |
| DatasetSplit.IncrementalSplitSizes | dair_pll/dataset_management.py:274-277 | defined as the three rounded fractions of the new count, test unclamped; its property is `IncrementalTestCapped` |
| DatasetSplit.BlocksDisjoint | dair_pll/dataset_management.py:259-263 | the blocks of a repetition-free selection share no index |
| DatasetSplit.BlocksInRange | dair_pll/dataset_management.py:259-263 | the blocks of a selection drawn from a range are drawn from it |
| DatasetSplit.ExtendDisjoint | dair_pll/dataset_management.py:287-292 | appending new blocks drawn above the old count keeps the three lists disjoint |
| DatasetManager.SourceCount | dair_pll/dataset_management.py:141-144 | counts the set sources, zero exactly when none is set |
| DatasetManager.ExactlyOneSourceCases | dair_pll/dataset_management.py:140-144 | exactly one source means some source is set and no two are |
| DatasetManager.NoisedTrajectories | dair_pll/dataset_management.py:228-243 | each trajectory statically noised, then dynamically noised, then projected, order kept |
| DatasetManager.GenerateTrajectorySet | dair_pll/dataset_management.py:167-185 | fails exactly when `N < 0` or `T < 1`; otherwise `N` noised samples of length `T` in order, the round's `GeneratedBatch` |
| DatasetManager.WrittenDense | dair_pll/dataset_management.py:210-215 | saving at the next free indices keeps the directory dense, overwrites nothing, and stores each trajectory under its index |
| DatasetManager.GenerateRoundStallsOnGap | dair_pll/dataset_management.py:202-215 | on `{1.pt}` a round saves over `1.pt` and the count stays 1 |
| DatasetManager.SaveBatch | dair_pll/dataset_management.py:210-215 | saves the first `count` trajectories of the batch at `start ..`, keeping density and every old file |
| DatasetManager.Generate | dair_pll/dataset_management.py:197-215 | the run is `GenerateRun` of the old directory: the final directory, the outcome and the two index sets are those of the round-by-round definition, whose files `GenerateRunSourced` describes; the directory stays dense and keeps every existing file unchanged; every new file is either one of its own saves (`written`, new names at indices from the old count up to `n_pop`) or one of the outside writer's (`appended`); fails exactly when short of `n_pop` with `traj_len < 1`; on success the count reaches `n_pop`, and exactly `n_pop` without outside writers |
| DatasetManager.GenerateRoundStep | dair_pll/dataset_management.py:204-215 | one round on the directory: it becomes the directory of the state after `GenerateRound`, and the re-read count and `n_set` are the round's |
| DatasetManager.RecheckCount | dair_pll/dataset_management.py:206 | the outside writer's batch lands at the next free indices, the directory stays dense, and the re-read count is the old count plus that batch |
| DatasetManager.GenerateRound | dair_pll/dataset_management.py:205-215 | a round keeps `n_set >= 1` while short of `n_pop`, advances the round, and re-reads a count between the counts before and after it; a round that ends short of `n_pop` has saved at least one trajectory |
| DatasetManager.GenerateRoundAdded | dair_pll/dataset_management.py:205-215 | the directory gains the outside batch, then the first `min(n_set, n_pop - count)` of the round's batch, or none of it when the re-read count is exactly `n_pop`; the re-read count is the old count plus the outside batch |
| DatasetManager.GenerateRoundFields | dair_pll/dataset_management.py:206-215 | the outside batch's indices join `appended` and the indices of the saved part join `written` |
| DatasetManager.GenerateInvStart | dair_pll/dataset_management.py:202-203 | the run's invariant holds before the first round |
| DatasetManager.GenerateInvRound | dair_pll/dataset_management.py:204-215 | every round keeps it: `written` and `appended` split the indices added since the start, own saves stay below `n_pop`, `n_set` stays in `1 .. 30` while short, and without outside writers the count never passes `n_pop` |
| DatasetManager.GenerateTracked | dair_pll/dataset_management.py:197-215 | the directory of any state of the run counts exactly its files and keeps the run's bookkeeping (`Tracked`) |
| DatasetManager.RunStateWritten | dair_pll/dataset_management.py:210-215 | saving at the next free indices, split between `written` and `appended`, gives a dense directory that keeps every old file and adds names only at recorded indices |
| DatasetManager.WrittenStored | dair_pll/dataset_management.py:210-215 | each saved trajectory sits under its own index |
| DatasetManager.WrittenConcat | dair_pll/dataset_management.py:210-215 | saving `a + b` is saving `a`, then `b` at the indices after it |
| DatasetManager.WrittenRound | dair_pll/dataset_management.py:204-215 | a round's directory is the one before it with the outside batch and then the saved part of the round's batch appended |
| DatasetManager.WrittenCount | dair_pll/dataset_management.py:206 | after saving at the next free indices of a dense directory, the count is the old count plus the number saved |
| DatasetManager.GenerateRoundWrittenSourced | dair_pll/dataset_management.py:209-215 | after a round every saved index holds one of the noised samples `traj_i[i]` |
| DatasetManager.GenerateRoundAppendedSourced | dair_pll/dataset_management.py:206 | after a round every appended index holds a trajectory of the outside writer |
| DatasetManager.GenerateRoundSourced | dair_pll/dataset_management.py:204-215 | a round keeps both |
| DatasetManager.GenerateFromSourced | dair_pll/dataset_management.py:204-215 | the rest of the run keeps both |
| DatasetManager.SourcedWritten | dair_pll/dataset_management.py:210-215 | what the run's added trajectories hold carries over to the files saved from them |
| DatasetManager.GenerateRunSourced | dair_pll/dataset_management.py:197-215 | when `generate()` ends, every index it saved holds a noised sample of length `traj_len`, and every index the outside writer took holds one of that writer's trajectories |
| DatasetManager.WrittenKeys | dair_pll/dataset_management.py:210-215 | saving at `start ..` adds no name other than those of the indices `start .. start + len - 1` |
| DatasetManager.AddedOnlyWritten | dair_pll/dataset_management.py:210-215 | after a save, every file not there at the start of the run still belongs to a recorded index |
| DatasetManager.FreshFrom | dair_pll/dataset_management.py:210-215 | a dense directory of `n` files holds no trajectory file with an index of `n` or more |
| DatasetManager.KeepsTransitive | dair_pll/dataset_management.py:204-215 | keeping every file is preserved across successive rounds |
| DatasetManager.AppendExternal | dair_pll/dataset_management.py:204-208 | the outside writer saves its batch at the next free indices: density and every old file are kept |
| DatasetManager.LoadAll | dair_pll/dataset_management.py:224-225 | succeeds exactly when every selected file exists; then the stored trajectories in selection order |
| DatasetManager.LoadedSnoc | dair_pll/dataset_management.py:224-225 | loading one more present index appends its stored trajectory |
| DatasetManager.AllPresentSub | dair_pll/dataset_management.py:259-263 | a contiguous part of a loadable index list is loadable |
| DatasetManager.LoadedSub | dair_pll/dataset_management.py:259-263 | loading a contiguous part of the index list gives that part of the loaded list |
| DatasetManager.LoadedSlice | dair_pll/dataset_management.py:259-263 | loading commutes with slicing the index list |
| DatasetManager.LoadedBlocks | dair_pll/dataset_management.py:257-263 | loading the selection and cutting it is the same as loading each block of indices |
| DatasetManager.ExtendIndices | dair_pll/dataset_management.py:287-292 | appending lists drawn from `[mid, hi)` to disjoint lists drawn from `[lo, mid)` keeps them disjoint and in range |
| DatasetManager.BlocksFacts | dair_pll/dataset_management.py:257-267 | the blocks of a loadable shuffled selection are disjoint, in range, loaded as the blocks of the loaded selection, and sliceable exactly when the selection is |
| DatasetManager.ExtendSets | dair_pll/dataset_management.py:287-292 | appends each new list to its set; succeeds exactly when all new trajectories can be sliced |
| DatasetManager.SystemDataManager.constructor | dair_pll/dataset_management.py:136-138 | a manager with no split yet, satisfying its invariant |
| DatasetManager.SystemDataManager.GetTrajectories | dair_pll/dataset_management.py:217-226 | fails when `N_end > n_on_disk`, on a negative range, or on a missing file; otherwise loads the first `N_requested` of the shuffled range in order |
| DatasetManager.SystemDataManager.MakeTrajectorySet | dair_pll/dataset_management.py:187-195 | succeeds exactly when the window parameters are valid and every trajectory is sliceable; the new set holds the trajectories and their slices |
| DatasetManager.SystemDataManager.GetTrajectorySplit | dair_pll/dataset_management.py:245-293 | first call: the first split; with dynamic updates and a changed count: the growth; otherwise no change; on success no index is in two sets |
| DatasetManager.SystemDataManager.InitialSplit | dair_pll/dataset_management.py:250-267 | succeeds exactly when the shuffled selection can be loaded and sliced; then the three blocks, loaded, are the sets |
| DatasetManager.SystemDataManager.MakeSplitSets | dair_pll/dataset_management.py:259-267 | three new sets holding the three blocks, made exactly when every block can be sliced |
| DatasetManager.SystemDataManager.InstallSplit | dair_pll/dataset_management.py:265-267 | stores the new sets and their disjoint index lists, establishing the manager's invariant |
| DatasetManager.SystemDataManager.GrowSplit | dair_pll/dataset_management.py:268-292 | records the new count; succeeds exactly when the count grew and the new selection can be loaded and sliced; then each block is appended to its set |
| DatasetManager.SystemDataManager.GrowFrom | dair_pll/dataset_management.py:272-292 | the growth once the new count is recorded, with the same outcome |
| DatasetManager.SystemDataManager.GrowLoaded | dair_pll/dataset_management.py:280-292 | the growth once the new selection is loaded, with the same outcome |
| DatasetManager.SystemDataManager.ApplyGrowth | dair_pll/dataset_management.py:287-292 | appends each loaded block to its set and its indices to its index list; succeeds exactly when every block can be sliced, keeping the invariant |
| DatasetManager.SystemDataManager.Create | dair_pll/dataset_management.py:136-162 | rejects a configuration without exactly one source; generates, imports or checks the waiting threshold; then reads the count and makes the first split; when generating, the directory is the one `GenerateRun` leaves, with `Tracked` and `Sourced` for its saved and appended indices |
| DrakeUtils.FirstIndex | dair_pll/drake_utils.py:166-167 | `list.index`: a position holding the element, with no earlier one |
| DrakeUtils.FirstSeen | dair_pll/drake_utils.py:162-165 | deduplication keeps exactly the elements of the scanned list |
| DrakeUtils.FirstSeenDistinct | dair_pll/drake_utils.py:162-165 | the geometry list has no repetition |
| DrakeUtils.FirstSeenOrder | dair_pll/drake_utils.py:162-165 | geometries are listed in order of first appearance |
| DrakeUtils.FirstSeenOfDistinct | dair_pll/drake_utils.py:162-165 | deduplicating a repetition-free list leaves it unchanged |
| DrakeUtils.AddNewGeometries | dair_pll/drake_utils.py:163-165 | appends `a`, then `b`, unless present, extending the deduplicated scan |
| DrakeUtils.LookUpFrictions | dair_pll/drake_utils.py:170-174 | one friction per geometry, in the same order |
| DrakeUtils.GetCollisionGeometrySet | dair_pll/drake_utils.py:146-178 | the ids are the deduplicated candidate geometries; each candidate pair becomes the positions of its two geometries; each geometry gets its own friction |
| DrakeUtils.CollisionIdsProperties | dair_pll/drake_utils.py:146-178 | the ids have no repetition, hold exactly the geometries of some pair, and follow first appearance |
| DrakeUtils.CollisionSetExample | dair_pll/drake_utils.py:162-168 | pairs `(7, 4), (4, 9)` give the ids `[7, 4, 9]` |
| DrakeUtils.CollisionPairsExample | dair_pll/drake_utils.py:166-168 | with those ids the pairs become the positions `(0, 1)` and `(1, 2)` |
| DrakeUtils.PairsIndexExtend | dair_pll/drake_utils.py:162-168 | growing the id list keeps every earlier pair's positions, and the next pair is found at its geometries' first positions |
| DrakeUtils.GenerateStateSpace | dair_pll/drake_utils.py:289-315 | fails exactly when a free-base model lacks quaternion coordinates; otherwise one factor per model, floating with six velocities fewer or fixed with all of them |
| DrakeUtils.StateSpaceVelocities | dair_pll/drake_utils.py:301-313 | the velocity counts the model assigns to the factors (the joints, plus six for a floating base) add up to the sum of the models' `num_velocities`; this checks only the model's own bookkeeping of the subtraction in `generate_state_space`, since the `state_space` classes' own velocity counts are not modelled |
| DrakeUtils.UniqueBodyIdentifier | dair_pll/drake_utils.py:107-110 | defined as `<model name>_<body name>`; its properties are `UniqueBodyIdentifierInjective` and `UniqueBodyIdentifierCollision` |
| DrakeUtils.UniqueBodyIdentifierInjective | dair_pll/drake_utils.py:107-110 | without underscores in model names, the identifier determines model name and body name |
| DrakeUtils.UniqueBodyIdentifierCollision | dair_pll/drake_utils.py:107-110 | with an underscore in a model name, bodies of two models can share an identifier |
| DrakeUtils.AllBodies | dair_pll/drake_utils.py:113-120 | defined as the models' body lists concatenated in order; its property is `AllBodiesMembers` |
| DrakeUtils.AllBodiesMembers | dair_pll/drake_utils.py:113-120 | a body is listed exactly when one of the models lists it |
| DrakeUtils.GetAllBodies | dair_pll/drake_utils.py:113-120 | the models' bodies concatenated in order, each with its identifier |
| DrakeUtils.WithoutWorld | dair_pll/drake_utils.py:127-130 | keeps exactly the model indices other than the world's |
| DrakeUtils.GetAllInertialBodies | dair_pll/drake_utils.py:123-130 | the bodies of every requested model but the world's, each with its identifier |
| DrakeUtils.InertialBodiesExcludeWorld | dair_pll/drake_utils.py:123-130 | in a consistent plant, exactly the listed bodies of requested non-world models |

## Left out

- Floating point: fractions and `round` work on exact reals. Rounding of `n * fraction` in binary floating point is not modelled.
- `torch.randperm` is the `shuffle` parameter, required to give a permutation of the right size. Uniform randomness is not modelled.
- Tensors are sequences of rows of reals. `torch.save` and `torch.load` are map update and lookup, with no serialisation.
- The simulator, the state samplers and the noisers are the deterministic functions of a `SystemModel` record. `set_state_sampler` and its effect on the system are not modelled.
- `print`, `time.sleep`, `os.system` shelling out to `rm` and `cp`, `assure_created` and absolute paths are not modelled. Paths are built with a model of POSIX `os.path.join`.
- Concurrent writers appear only as dense batches appended between generation rounds (`external`). Interleavings inside a round, and the race that `append_by_extension` warns about, are not modelled.
- The glob `[0-9]*<ext>` is matched on base names. Directories with such names and hidden files are not distinguished.
- `get_body_names_in_model_instance`, `add_plant_from_urdfs`, the construction of the Drake diagram and the `state_space` classes are not part of this model. `FactorVelocities` gives each factor the velocity count the subtraction in `generate_state_space` assumes (the joints, plus six for a floating base).
- `TrajectorySliceDataset.__getitem__` is modelled for integer indices only, not for slices or tensor indices.
- DatasetManager.Generate: requires a dense data directory, because on some directories with a gap the loop in `generate` does not terminate (`GenerateRoundStallsOnGap`). This also excludes non-dense directories on which `generate` does terminate. One such case is a directory that already counts `n_pop` files or more, where the loop never runs. Another is a directory whose gaps get filled, such as `{0.pt, 5.pt}` with `n_pop = 4`, which saves `2.pt` and `3.pt` and stops.
- DatasetManager.Generate: `n_pop` is declared a Python `float` in the configuration and is an integer in the model. With a float `n_pop`, even a whole one such as `100.0`, `n_pop - n_generated` is a float. Once fewer than 30 trajectories remain, `n_set` becomes a float and `range(n_set)` raises. The model covers only an integer `n_pop`, such as the default 16384, and does not model that failure.
- DatasetManager.SystemDataManager.Create: requires a dense data directory when generating, for the same reason as `Generate`, and so excludes the same terminating non-dense cases. The busy wait for `dynamic_updates_from` trajectories is the `WouldBlock` status, not a loop.
- DatasetManager.SystemDataManager.GetTrajectorySplit: after a failure, which is an exception in Python, only the footprint is specified, not the partly updated sets.
- FileUtils.SweepDataSizes: `int` is taken to accept exactly the all-digit names. Python's `int` also accepts surrounding whitespace and digit-separating underscores, which the model reports as a failure.
- FileUtils.SortAscending: `list.sort` is written as an insertion sort. Only its result, sorted and a permutation, is claimed.
