/** `SystemDataManager` (`dair_pll/dataset_management.py`): where the
    trajectories come from (generation, import, or waiting for an outside
    writer), how they are loaded from the storage's data directory, and how
    they are split into train, valid and test sets that grow when new files
    appear. The data directory is a `Directory` whose keys are base names;
    simulation, noise and `torch.randperm` are parameters. */
module DatasetManager {
  import opened PyLists
  import opened FileUtils
  import opened DatasetSlices
  import opened DatasetSplit

  datatype GenerationConfig = GenerationConfig(nPop: int, trajLen: int)

  /** The fields of `DataConfig` the core reads. */
  datatype DataConfig = DataConfig(
    storage: string,
    fractions: Fractions,
    tSkip: int,
    tHistory: int,
    tPrediction: int,
    generationConfig: Option<GenerationConfig>,
    importDirectory: Option<string>,
    dynamicUpdatesFrom: Option<int>)
  {
    function Params(): WindowParams { WindowParams(tSkip, tHistory, tPrediction) }
  }

  /** How many of the three data sources are set. */
  function SourceCount(c: DataConfig): (n: nat)
    ensures n <= 3
    ensures n == 0 <==> c.generationConfig.None? && c.importDirectory.None? && c.dynamicUpdatesFrom.None?
  {
    (if c.generationConfig.Some? then 1 else 0)
    + (if c.importDirectory.Some? then 1 else 0)
    + (if c.dynamicUpdatesFrom.Some? then 1 else 0)
  }

  predicate ExactlyOneSource(c: DataConfig) { SourceCount(c) == 1 }

  /** Exactly one source holds when some source is set and no two are. */
  lemma ExactlyOneSourceCases(c: DataConfig)
    ensures ExactlyOneSource(c) <==>
              (c.generationConfig.Some? || c.importDirectory.Some? || c.dynamicUpdatesFrom.Some?)
              && !(c.generationConfig.Some? && c.importDirectory.Some?)
              && !(c.generationConfig.Some? && c.dynamicUpdatesFrom.Some?)
              && !(c.importDirectory.Some? && c.dynamicUpdatesFrom.Some?)
  {
  }

  /** The truth value of `config.dynamic_updates_from`: set and not zero. */
  predicate DynamicUpdates(c: DataConfig) {
    c.dynamicUpdatesFrom.Some? && c.dynamicUpdatesFrom.value != 0
  }

  /** The simulation and noise the manager calls; `sample(round, i, T)` is the
      `i`-th trajectory of length `T` drawn in generation round `round`. */
  datatype SystemModel = SystemModel(
    sample: (nat, nat, nat) -> Trajectory,
    staticNoise: Trajectory -> Trajectory,
    dynamicNoise: Trajectory -> Trajectory,
    projectDerivative: Trajectory -> Trajectory)

  /** Static noise, then dynamic noise, then the derivative projection. */
  function Noised(system: SystemModel, t: Trajectory): Trajectory {
    system.projectDerivative(system.dynamicNoise(system.staticNoise(t)))
  }

  /** `noised_trajectories(traj_set)`: each trajectory noised, order kept. */
  method NoisedTrajectories(system: SystemModel, ts: seq<Trajectory>) returns (r: seq<Trajectory>)
    ensures |r| == |ts|
    ensures forall i :: 0 <= i < |ts| ==> r[i] == Noised(system, ts[i])
  {
    r := [];
    for i := 0 to |ts|
      invariant |r| == i
      invariant forall j :: 0 <= j < i ==> r[j] == Noised(system, ts[j])
    {
      var staticDisturbed := system.staticNoise(ts[i]);
      var dynamicDisturbed := system.dynamicNoise(staticDisturbed);
      dynamicDisturbed := system.projectDerivative(dynamicDisturbed);
      r := r + [dynamicDisturbed];
    }
  }

  /** The `n` noised samples of length `trajLen` drawn in round `round`. */
  function GeneratedBatch(system: SystemModel, round: nat, n: nat, trajLen: nat): seq<Trajectory> {
    seq(n, i requires 0 <= i < n => Noised(system, system.sample(round, i, trajLen)))
  }

  /** `generate_trajectory_set(N, T)`: `N` noised samples of length `T`;
      `None` is the AssertionError for `N < 0` or `T < 1`. */
  method GenerateTrajectorySet(system: SystemModel, round: nat, n: int, trajLen: int)
    returns (r: Option<seq<Trajectory>>)
    ensures r.Some? <==> n >= 0 && trajLen >= 1
    ensures r.Some? ==> |r.value| == n
    ensures r.Some? ==> forall i :: 0 <= i < n ==> r.value[i] == Noised(system, system.sample(round, i, trajLen))
    ensures r.Some? ==> r.value == GeneratedBatch(system, round, n, trajLen)
  {
    if !(n >= 0) || !(trajLen >= 1) {
      return None;
    }
    var trajectories: seq<Trajectory> := [];
    for i := 0 to n
      invariant |trajectories| == i
      invariant forall j :: 0 <= j < i ==> trajectories[j] == system.sample(round, j, trajLen)
    {
      trajectories := trajectories + [system.sample(round, i, trajLen)];
    }
    var noised := NoisedTrajectories(system, trajectories);
    return Some(noised);
  }

  // ---------------------------------------------------------------------
  // Writing numbered trajectory files.

  /** The data directory after `ts[j]` is saved as `<start + j>.pt`, in order. */
  function Written(files: map<string, Trajectory>, start: int, ts: seq<Trajectory>): map<string, Trajectory>
    decreases |ts|
  {
    if ts == [] then files
    else Written(files, start, ts[..|ts| - 1])[TrajectoryFileName(start + |ts| - 1) := ts[|ts| - 1]]
  }

  lemma TrajectoryFileNameNumbered(k: nat)
    ensures TrajectoryFileName(k) == NumberedName(k, TrajExtension)
  {
  }

  /** Saving leaves each trajectory under its own index. */
  lemma {:induction false} WrittenStored(files: map<string, Trajectory>, n: nat, ts: seq<Trajectory>)
    ensures forall k :: n <= k < n + |ts| ==>
              TrajectoryFileName(k) in Written(files, n, ts) && Written(files, n, ts)[TrajectoryFileName(k)] == ts[k - n]
    decreases |ts|
  {
    if ts != [] {
      var prev := ts[..|ts| - 1];
      var last := n + |ts| - 1;
      WrittenStored(files, n, prev);
      WrittenLast(files, n, ts);
      forall i | n <= i < n + |ts|
        ensures TrajectoryFileName(i) in Written(files, n, ts) && Written(files, n, ts)[TrajectoryFileName(i)] == ts[i - n]
      {
        if i < last {
          TrajectoryFileNameInjective(i, last);
          assert prev[i - n] == ts[i - n];
        }
      }
    }
  }

  /** Saving at the next free indices of a dense directory keeps it dense,
      overwrites nothing, and leaves each trajectory under its own index. */
  lemma {:induction false} WrittenDense(files: map<string, Trajectory>, n: nat, ts: seq<Trajectory>)
    requires Dense(files.Keys, TrajExtension, n)
    ensures Dense(Written(files, n, ts).Keys, TrajExtension, n + |ts|)
    ensures forall name :: name in files ==> name in Written(files, n, ts) && Written(files, n, ts)[name] == files[name]
    ensures forall k :: n <= k < n + |ts| ==>
              TrajectoryFileName(k) in Written(files, n, ts) && Written(files, n, ts)[TrajectoryFileName(k)] == ts[k - n]
    decreases |ts|
  {
    if ts != [] {
      var prev := ts[..|ts| - 1];
      var k := n + |ts| - 1;
      WrittenDense(files, n, prev);
      var w := Written(files, n, prev);
      WrittenLast(files, n, ts);
      TrajectoryFileNameNumbered(k);
      DenseNextIsFresh(w.Keys, TrajExtension, k);
      DenseAdd(w.Keys, TrajExtension, k);
      assert Written(files, n, ts).Keys == w.Keys + {NumberedName(k, TrajExtension)};
      WrittenStored(files, n, ts);
    }
  }

  /** Saving at the next free indices of a dense directory moves its count
      on by the number of trajectories saved. */
  lemma WrittenCount(files: map<string, Trajectory>, n: nat, ts: seq<Trajectory>)
    requires Dense(files.Keys, TrajExtension, n)
    ensures Dense(Written(files, n, ts).Keys, TrajExtension, n + |ts|)
    ensures GetTrajectoryCount(Written(files, n, ts).Keys) == n + |ts|
  {
    WrittenDense(files, n, ts);
    DenseCount(Written(files, n, ts).Keys, TrajExtension, n + |ts|);
  }

  /** `generate` assumes the indices in use are `0 .. n-1`. On a directory
      holding only `1.pt` the count is 1, so the next round saves to `1.pt`
      again: the file is overwritten and the count does not move, which with
      `n_pop = 2` repeats for ever. */
  lemma GenerateRoundStallsOnGap(t: Trajectory, u: Trajectory)
    ensures var files := map["1.pt" := t];
            && GetTrajectoryCount(files.Keys) == 1
            && Written(files, 1, [u]).Keys == files.Keys
            && Written(files, 1, [u])["1.pt"] == u
  {
    var files := map["1.pt" := t];
    assert IsNumericName("1.pt", TrajExtension);
    assert NumericNames(files.Keys, TrajExtension) == {"1.pt"};
    assert NatToString(1) == "1";
    assert TrajectoryFileName(1) == "1.pt";
  }

  /** The integers `lo .. hi-1`. */
  ghost function Range(lo: int, hi: int): set<int> {
    set k: int | lo <= k < hi && Between(lo, k, hi)
  }

  /** `lo <= k < hi`, named so that `Range`'s comprehension has a trigger. */
  predicate Between(lo: int, k: int, hi: int) {
    lo <= k < hi
  }

  /** Saving adds no name other than `<start>.pt` .. `<start + |ts| - 1>.pt`. */
  lemma {:induction false} WrittenKeys(files: map<string, Trajectory>, start: int, ts: seq<Trajectory>)
    ensures forall name :: name in Written(files, start, ts) ==>
              name in files || exists k :: start <= k < start + |ts| && name == TrajectoryFileName(k)
    decreases |ts|
  {
    if ts != [] {
      var prev := ts[..|ts| - 1];
      var last := start + |ts| - 1;
      WrittenKeys(files, start, prev);
      assert Written(files, start, ts).Keys == Written(files, start, prev).Keys + {TrajectoryFileName(last)};
    }
  }

  /** Every file of `after` that `before` lacks is `<k>.pt` for a `k` of `idx`. */
  ghost predicate AddedOnly(before: map<string, Trajectory>, after: map<string, Trajectory>, idx: set<int>) {
    forall name :: name in after && name !in before ==> exists k :: k in idx && name == TrajectoryFileName(k)
  }

  /** Saving at `start ..` adds only the names of those indices. */
  lemma AddedOnlyWritten(before: map<string, Trajectory>, files: map<string, Trajectory>, idx: set<int>,
                         start: int, ts: seq<Trajectory>)
    requires AddedOnly(before, files, idx)
    ensures AddedOnly(before, Written(files, start, ts), idx + Range(start, start + |ts|))
  {
    WrittenKeys(files, start, ts);
  }

  /** What a run of `generate` has done so far, from `before` (dense, `n0`
      files) to `files` (dense, `n` files): every old file is kept, `written`
      are its own saves and `appended` the outside writer's, all of them in
      `n0 .. n-1`, and nothing else was added. */
  ghost predicate RunState(before: map<string, Trajectory>, files: map<string, Trajectory>,
                           written: set<int>, appended: set<int>, n0: nat, n: nat) {
    && Dense(before.Keys, TrajExtension, n0)
    && Dense(files.Keys, TrajExtension, n)
    && n0 <= n
    && Keeps(before, files)
    && (forall k :: k in written + appended ==> n0 <= k < n)
    && (forall k :: k in written ==> TrajectoryFileName(k) in files && TrajectoryFileName(k) !in before)
    && AddedOnly(before, files, written + appended)
    && written !! appended
  }

  /** `RunState` with the counts read from the two directories. */
  ghost predicate Tracked(before: map<string, Trajectory>, files: map<string, Trajectory>,
                          written: set<int>, appended: set<int>) {
    RunState(before, files, written, appended, GetTrajectoryCount(before.Keys), GetTrajectoryCount(files.Keys))
  }

  /** A dense directory of `n` files holds no `<k>.pt` with `k >= lo >= n`. */
  lemma FreshFrom(files: map<string, Trajectory>, n: nat, lo: nat)
    requires Dense(files.Keys, TrajExtension, n)
    requires n <= lo
    ensures forall k :: lo <= k ==> TrajectoryFileName(k) !in files
  {
    forall k | lo <= k
      ensures TrajectoryFileName(k) !in files
    {
      TrajectoryFileNameNumbered(k);
      DenseAboveIsFresh(files.Keys, TrajExtension, n, k);
    }
  }

  /** `after` still holds every file of `before`, unchanged. */
  predicate Keeps(before: map<string, Trajectory>, after: map<string, Trajectory>) {
    forall name :: name in before ==> name in after && after[name] == before[name]
  }

  /** Keeping files is transitive. */
  lemma KeepsTransitive(a: map<string, Trajectory>, b: map<string, Trajectory>, c: map<string, Trajectory>)
    requires Keeps(a, b) && Keeps(b, c)
    ensures Keeps(a, c)
  {
  }

  /** The saving loop of one generation round: `batch[i]` is saved as
      `<start + i>.pt` for each `i < count`, in order. From a dense directory
      of `start` files this gives a dense one of `start + count` files. */
  method SaveBatch(data: Directory<Trajectory>, start: nat, batch: seq<Trajectory>, count: nat)
    requires count <= |batch|
    requires Dense(data.files.Keys, TrajExtension, start)
    modifies data
    ensures data.files == Written(old(data.files), start, batch[..count])
    ensures Dense(data.files.Keys, TrajExtension, start + count)
    ensures Keeps(old(data.files), data.files)
    ensures forall k :: start <= k < start + count ==> TrajectoryFileName(k) in data.files
  {
    WrittenDense(data.files, start, batch[..count]);
    for i := 0 to count
      invariant data.files == Written(old(data.files), start, batch[..i])
    {
      assert batch[..i + 1][..i] == batch[..i];
      data.files := data.files[TrajectoryFileName(start + i) := batch[i]];
    }
  }

  /** An outside writer saving `ts` at the next free indices, as another
      generating process does. */
  method AppendExternal(data: Directory<Trajectory>, ts: seq<Trajectory>, ghost n: nat)
    requires Dense(data.files.Keys, TrajExtension, n)
    modifies data
    ensures data.files == Written(old(data.files), n, ts)
    ensures Dense(data.files.Keys, TrajExtension, n + |ts|)
    ensures Keeps(old(data.files), data.files)
  {
    var next := GetTrajectoryCount(data.files.Keys);
    DenseCount(data.files.Keys, TrajExtension, n);
    WrittenDense(data.files, n, ts);
    data.files := Written(data.files, next, ts);
  }

  /** Re-reading the count in `generate`, after the outside writer has
      appended `ts` (possibly none) at the next free indices of a dense
      directory of `n` files. */
  method RecheckCount(data: Directory<Trajectory>, ts: seq<Trajectory>, ghost n: nat) returns (count: nat)
    requires Dense(data.files.Keys, TrajExtension, n)
    modifies data
    ensures data.files == Written(old(data.files), n, ts)
    ensures Dense(data.files.Keys, TrajExtension, n + |ts|)
    ensures count == n + |ts| == GetTrajectoryCount(data.files.Keys)
  {
    AppendExternal(data, ts, n);
    count := GetTrajectoryCount(data.files.Keys);
    DenseCount(data.files.Keys, TrajExtension, n + |ts|);
  }

  /** Saving a non-empty `ts` saves all but its last trajectory, then the last. */
  lemma WrittenLast(files: map<string, Trajectory>, start: int, ts: seq<Trajectory>)
    requires ts != []
    ensures Written(files, start, ts)
            == Written(files, start, ts[..|ts| - 1])[TrajectoryFileName(start + |ts| - 1) := ts[|ts| - 1]]
  {
  }

  /** Equal maps stay equal under the same update. */
  lemma UpdateBoth(m: map<string, Trajectory>, m': map<string, Trajectory>, key: string, t: Trajectory)
    requires m == m'
    ensures m[key := t] == m'[key := t]
  {
  }

  /** `WrittenLast` for `a + b` with `b` non-empty: the last trajectory of
      `b` goes to index `start + |a| + |b| - 1`. */
  lemma WrittenLastConcat(files: map<string, Trajectory>, start: int, a: seq<Trajectory>, b: seq<Trajectory>)
    requires b != []
    ensures Written(files, start, a + b)
            == Written(files, start, a + b[..|b| - 1])[TrajectoryFileName(start + |a| + |b| - 1) := b[|b| - 1]]
  {
    var ab := a + b;
    assert ab[..|ab| - 1] == a + b[..|b| - 1];
    assert ab[|ab| - 1] == b[|b| - 1];
    WrittenLast(files, start, ab);
  }

  /** Saving `a + b` from `start` on is saving `a`, then `b` after it. */
  lemma {:induction false} WrittenConcat(files: map<string, Trajectory>, start: int, a: seq<Trajectory>, b: seq<Trajectory>)
    ensures Written(files, start, a + b) == Written(Written(files, start, a), start + |a|, b)
    decreases |b|
  {
    if b == [] {
      assert a + b == a;
    } else {
      var prev := b[..|b| - 1];
      var w := Written(files, start, a);
      WrittenLastConcat(files, start, a, b);
      WrittenLast(w, start + |a|, b);
      WrittenConcat(files, start, a, prev);
      UpdateBoth(Written(files, start, a + prev), Written(w, start + |a|, prev),
                 TrajectoryFileName(start + |a| + |b| - 1), b[|b| - 1]);
    }
  }

  /** `WrittenConcat` with the index after `a` given as `mid`. */
  lemma WrittenConcatAt(files: map<string, Trajectory>, start: int, a: seq<Trajectory>, b: seq<Trajectory>, mid: int)
    requires mid == start + |a|
    ensures Written(files, start, a + b) == Written(Written(files, start, a), mid, b)
  {
    WrittenConcat(files, start, a, b);
  }

  /** `lo .. mid-1` and `mid .. hi-1` split `lo .. hi-1`. */
  lemma RangeSplit(lo: int, mid: int, hi: int)
    requires lo <= mid <= hi
    ensures Range(lo, mid) + Range(mid, hi) == Range(lo, hi)
    ensures Range(lo, mid) !! Range(mid, hi)
  {
    assert forall k :: k in Range(lo, mid) + Range(mid, hi) <==> k in Range(lo, hi);
  }

  /** A run that saved `added` at the next free indices of the dense
      directory `before` of `n0` files, with `written` and `appended`
      splitting those indices between its own saves and the outside
      writer's, is the `RunState` of those sets. */
  lemma RunStateWritten(before: map<string, Trajectory>, n0: nat, added: seq<Trajectory>,
                        written: set<int>, appended: set<int>)
    requires Dense(before.Keys, TrajExtension, n0)
    requires written + appended == Range(n0, n0 + |added|) && written !! appended
    ensures RunState(before, Written(before, n0, added), written, appended, n0, n0 + |added|)
  {
    var files := Written(before, n0, added);
    WrittenDense(before, n0, added);
    FreshFrom(before, n0, n0);
    WrittenKeys(before, n0, added);
    forall name | name in files && name !in before
      ensures exists k :: k in written + appended && name == TrajectoryFileName(k)
    {
      var k :| n0 <= k < n0 + |added| && name == TrajectoryFileName(k);
      assert k in Range(n0, n0 + |added|);
    }
  }

  /** How a run of `generate()` ends: whether it returned normally (`false` is
      the AssertionError of `generate_trajectory_set`), the data directory,
      the indices it saved itself, and the indices the outside writer took. */
  datatype GenerateOutcome = GenerateOutcome(ok: bool, files: map<string, Trajectory>,
                                             written: set<int>, appended: set<int>)

  /** The variables of `generate()`'s loop at the top of round `round`, on a
      run that began with `start` files. Every file the run adds lands at the
      next free index, so the directory is the old one with `added` saved
      from index `start` on. Then `n_set` and `n_generated`, and which indices
      the run saved itself (`written`) or the outside writer took
      (`appended`). */
  datatype GenerateState = GenerateState(start: nat, added: seq<Trajectory>, round: nat, nSet: int,
                                         nGenerated: int, written: set<int>, appended: set<int>)

  /** The number of trajectories in the directory in state `st`. */
  function StateCount(st: GenerateState): nat {
    st.start + |st.added|
  }

  /** While the loop runs, `n_set` is at least 1. */
  predicate GenerateStateOk(st: GenerateState, gen: GenerationConfig) {
    st.nGenerated < gen.nPop ==> 1 <= st.nSet
  }

  /** The batch the outside writer appends during round `round`, if any. */
  function Arrival(external: seq<seq<Trajectory>>, round: nat): seq<Trajectory> {
    if round < |external| then external[round] else []
  }

  /** One round of `generate()`'s loop as the source runs it, with the drawn
      batch `batch`: the outside writer appends `arriving` at the next free
      indices and the count is re-read into `n_generated`; the loop breaks on
      exactly `n_pop`, and otherwise `n_set` becomes
      `min(n_set, n_pop - n_generated)` and that many of the batch (none if
      negative) are saved from index `n_generated` on. */
  ghost function GenerateRound(st: GenerateState, gen: GenerationConfig, batch: seq<Trajectory>,
                               arriving: seq<Trajectory>): (r: GenerateState)
    requires GenerateStateOk(st, gen) && st.nGenerated < gen.nPop && |batch| == st.nSet
    ensures GenerateStateOk(r, gen)
    ensures r.start == st.start && r.round == st.round + 1
    ensures StateCount(st) <= r.nGenerated <= StateCount(r)
    ensures r.nGenerated < gen.nPop ==> r.nGenerated < StateCount(r)
  {
    var n := StateCount(st);
    var counted := n + |arriving|;
    var appended := st.appended + Range(n, counted);
    if counted == gen.nPop then
      GenerateState(st.start, st.added + arriving, st.round + 1, st.nSet, counted, st.written, appended)
    else
      var nSet' := Min(st.nSet, gen.nPop - counted);
      var saved := Max(nSet', 0);
      GenerateState(st.start, st.added + arriving + batch[..saved], st.round + 1, nSet', counted,
                    st.written + Range(counted, counted + saved), appended)
  }

  /** How many of the drawn batch a round saves: none when the count it
      re-reads is exactly `n_pop`, otherwise `min(n_set, n_pop - count)`, or
      none if that is negative. */
  function RoundSaved(st: GenerateState, gen: GenerationConfig, arriving: seq<Trajectory>): nat {
    var counted := StateCount(st) + |arriving|;
    if counted == gen.nPop then 0 else Max(Min(st.nSet, gen.nPop - counted), 0)
  }

  /** A round appends the outside writer's batch and then the saved part of
      its own batch, and counts the directory after the first. */
  lemma GenerateRoundAdded(st: GenerateState, gen: GenerationConfig, batch: seq<Trajectory>, arriving: seq<Trajectory>)
    requires GenerateStateOk(st, gen) && st.nGenerated < gen.nPop && |batch| == st.nSet
    ensures RoundSaved(st, gen, arriving) <= |batch|
    ensures GenerateRound(st, gen, batch, arriving).added == st.added + arriving + batch[..RoundSaved(st, gen, arriving)]
    ensures GenerateRound(st, gen, batch, arriving).nGenerated == StateCount(st) + |arriving|
  {
    if StateCount(st) + |arriving| == gen.nPop {
      assert batch[..0] == [] && st.added + arriving + [] == st.added + arriving;
    }
  }

  /** The outside writer's batch lands on the indices a round adds to
      `appended`, the saved part of its own batch on those it adds to
      `written`. */
  lemma GenerateRoundFields(st: GenerateState, gen: GenerationConfig, batch: seq<Trajectory>, arriving: seq<Trajectory>)
    requires GenerateStateOk(st, gen) && st.nGenerated < gen.nPop && |batch| == st.nSet
    ensures GenerateRound(st, gen, batch, arriving).written
            == st.written + Range(StateCount(st) + |arriving|, StateCount(st) + |arriving| + RoundSaved(st, gen, arriving))
    ensures GenerateRound(st, gen, batch, arriving).appended
            == st.appended + Range(StateCount(st), StateCount(st) + |arriving|)
  {
    var counted := StateCount(st) + |arriving|;
    if counted == gen.nPop {
      assert Range(counted, counted) == {};
      assert st.written + {} == st.written;
    }
  }

  /** `generate()`'s loop run from the state `st` to its end, and whether it
      ends normally; round `r` draws `GeneratedBatch(system, r, n_set, T)`
      and sees `Arrival(external, r)`. */
  ghost function GenerateFrom(st: GenerateState, gen: GenerationConfig, system: SystemModel,
                              external: seq<seq<Trajectory>>): (bool, GenerateState)
    requires GenerateStateOk(st, gen)
    decreases Max(0, gen.nPop - StateCount(st)), if st.nGenerated < gen.nPop then 1 else 0
  {
    if st.nGenerated >= gen.nPop then (true, st)
    else if gen.trajLen < 1 then (false, st)
    else
      var batch := GeneratedBatch(system, st.round, st.nSet, gen.trajLen);
      GenerateFrom(GenerateRound(st, gen, batch, Arrival(external, st.round)), gen, system, external)
  }

  /** A run that goes on past the state `st` is the run from the state the
      round leaves behind. */
  lemma GenerateFromRound(st: GenerateState, gen: GenerationConfig, system: SystemModel,
                          external: seq<seq<Trajectory>>, batch: seq<Trajectory>)
    requires GenerateStateOk(st, gen) && st.nGenerated < gen.nPop && 1 <= gen.trajLen
    requires batch == GeneratedBatch(system, st.round, st.nSet, gen.trajLen)
    ensures GenerateFrom(st, gen, system, external)
            == GenerateFrom(GenerateRound(st, gen, batch, Arrival(external, st.round)), gen, system, external)
  {
  }

  /** The state `generate()` enters its loop with, on `n` files. */
  function GenerateStart(n: nat): GenerateState {
    GenerateState(n, [], 0, 30, n, {}, {})
  }

  /** A whole run of `generate()` on the dense directory `files`. */
  ghost function GenerateRun(files: map<string, Trajectory>, gen: GenerationConfig, system: SystemModel,
                             external: seq<seq<Trajectory>>): GenerateOutcome
    requires Dense(files.Keys, TrajExtension, GetTrajectoryCount(files.Keys))
  {
    var n := GetTrajectoryCount(files.Keys);
    var end := GenerateFrom(GenerateStart(n), gen, system, external);
    GenerateOutcome(end.0, Written(files, n, end.1.added), end.1.written, end.1.appended)
  }

  /** What holds of `generate()`'s loop state `st` on a run that started with
      `n0` files: the indices the run added are split between `written` and
      `appended`, its own saves stay below `n_pop`, `n_generated` lags the
      count only when the count is at most `n_pop`, and `n_set` stays in
      `1 .. 30` while the loop runs. */
  ghost predicate GenerateInv(n0: nat, st: GenerateState, gen: GenerationConfig, external: seq<seq<Trajectory>>) {
    && st.start == n0
    && st.written + st.appended == Range(n0, StateCount(st))
    && st.written !! st.appended
    && (forall k :: k in st.written ==> k < gen.nPop)
    && n0 <= st.nGenerated <= StateCount(st)
    && (st.nGenerated < StateCount(st) ==> StateCount(st) <= gen.nPop)
    && (st.nGenerated < gen.nPop ==> 1 <= st.nSet <= 30)
    && (external == [] && n0 <= gen.nPop ==> StateCount(st) <= gen.nPop)
    && (st.round == 0 ==> st.nGenerated == n0)
    && (st.round > 0 ==> 1 <= gen.trajLen)
  }

  /** A run starts in a state satisfying `GenerateInv`. */
  lemma GenerateInvStart(n0: nat, gen: GenerationConfig, external: seq<seq<Trajectory>>)
    ensures GenerateInv(n0, GenerateStart(n0), gen, external)
  {
    assert Range(n0, n0) == {};
  }

  /** Every round of `generate()` keeps `GenerateInv`. */
  lemma GenerateInvRound(n0: nat, st: GenerateState, gen: GenerationConfig, external: seq<seq<Trajectory>>,
                         batch: seq<Trajectory>)
    requires GenerateInv(n0, st, gen, external)
    requires st.nGenerated < gen.nPop && 1 <= gen.trajLen && |batch| == st.nSet
    ensures GenerateInv(n0, GenerateRound(st, gen, batch, Arrival(external, st.round)), gen, external)
  {
    var arriving := Arrival(external, st.round);
    var n := StateCount(st);
    var counted := n + |arriving|;
    GenerateRoundAdded(st, gen, batch, arriving);
    GenerateRoundFields(st, gen, batch, arriving);
    RangeSplit(n0, n, counted);
    RangeSplit(n0, counted, counted + RoundSaved(st, gen, arriving));
  }

  /** At any point of a run, the directory is `Tracked` from the one it
      started with, and the count reads `StateCount`. */
  lemma GenerateTracked(before: map<string, Trajectory>, st: GenerateState, gen: GenerationConfig,
                        external: seq<seq<Trajectory>>)
    requires Dense(before.Keys, TrajExtension, GetTrajectoryCount(before.Keys))
    requires GenerateInv(GetTrajectoryCount(before.Keys), st, gen, external)
    ensures GetTrajectoryCount(Written(before, st.start, st.added).Keys) == StateCount(st)
    ensures Tracked(before, Written(before, st.start, st.added), st.written, st.appended)
  {
    WrittenCount(before, st.start, st.added);
    RunStateWritten(before, st.start, st.added, st.written, st.appended);
  }

  /** `t` is one of the noised samples of length `trajLen` that
      `generate_trajectory_set` draws. */
  ghost predicate IsGeneratedSample(system: SystemModel, trajLen: int, t: Trajectory) {
    exists round: nat, i: nat :: 0 <= trajLen && t == Noised(system, system.sample(round, i, trajLen))
  }

  /** `t` is one of the trajectories of the outside writer's batches. */
  ghost predicate IsExternal(external: seq<seq<Trajectory>>, t: Trajectory) {
    exists r :: 0 <= r < |external| && t in external[r]
  }

  /** Every index of `written` holds a generated sample, and every index of
      `appended` a trajectory of the outside writer. */
  ghost predicate Sourced(files: map<string, Trajectory>, written: set<int>, appended: set<int>,
                          system: SystemModel, trajLen: int, external: seq<seq<Trajectory>>) {
    && (forall k :: k in written ==>
          TrajectoryFileName(k) in files && IsGeneratedSample(system, trajLen, files[TrajectoryFileName(k)]))
    && (forall k :: k in appended ==>
          TrajectoryFileName(k) in files && IsExternal(external, files[TrajectoryFileName(k)]))
  }

  /** Every index `generate()` saved holds, in `added`, a generated sample. */
  ghost predicate WrittenSourced(st: GenerateState, system: SystemModel, trajLen: int) {
    forall k :: k in st.written ==>
      st.start <= k < StateCount(st) && IsGeneratedSample(system, trajLen, st.added[k - st.start])
  }

  /** Every index the outside writer took holds, in `added`, one of its trajectories. */
  ghost predicate AppendedSourced(st: GenerateState, external: seq<seq<Trajectory>>) {
    forall k :: k in st.appended ==>
      st.start <= k < StateCount(st) && IsExternal(external, st.added[k - st.start])
  }

  /** `Sourced` for the trajectories `added` from index `st.start` on. */
  ghost predicate AddedSourced(st: GenerateState, system: SystemModel, trajLen: int, external: seq<seq<Trajectory>>) {
    WrittenSourced(st, system, trajLen) && AppendedSourced(st, external)
  }

  /** A round keeps every saved index holding a generated sample. */
  lemma GenerateRoundWrittenSourced(st: GenerateState, gen: GenerationConfig, system: SystemModel,
                                    arriving: seq<Trajectory>)
    requires GenerateStateOk(st, gen) && st.nGenerated < gen.nPop && 1 <= gen.trajLen
    requires WrittenSourced(st, system, gen.trajLen)
    ensures WrittenSourced(GenerateRound(st, gen, GeneratedBatch(system, st.round, st.nSet, gen.trajLen), arriving),
                           system, gen.trajLen)
  {
    var batch := GeneratedBatch(system, st.round, st.nSet, gen.trajLen);
    var r := GenerateRound(st, gen, batch, arriving);
    var counted := StateCount(st) + |arriving|;
    GenerateRoundAdded(st, gen, batch, arriving);
    GenerateRoundFields(st, gen, batch, arriving);
    forall k | k in r.written
      ensures st.start <= k < StateCount(r) && IsGeneratedSample(system, gen.trajLen, r.added[k - st.start])
    {
      if k !in st.written {
        assert r.added[k - st.start] == batch[k - counted];
      }
    }
  }

  /** A round keeps every appended index holding a trajectory of the outside writer. */
  lemma GenerateRoundAppendedSourced(st: GenerateState, gen: GenerationConfig, batch: seq<Trajectory>,
                                     external: seq<seq<Trajectory>>)
    requires GenerateStateOk(st, gen) && st.nGenerated < gen.nPop && |batch| == st.nSet
    requires AppendedSourced(st, external)
    ensures AppendedSourced(GenerateRound(st, gen, batch, Arrival(external, st.round)), external)
  {
    var arriving := Arrival(external, st.round);
    var r := GenerateRound(st, gen, batch, arriving);
    var n := StateCount(st);
    GenerateRoundAdded(st, gen, batch, arriving);
    GenerateRoundFields(st, gen, batch, arriving);
    forall k | k in r.appended
      ensures st.start <= k < StateCount(r) && IsExternal(external, r.added[k - st.start])
    {
      if k !in st.appended {
        assert r.added[k - st.start] == arriving[k - n];
        assert st.round < |external| && arriving[k - n] in external[st.round];
      }
    }
  }

  /** A round of `generate()` keeps every saved index holding a generated
      sample and every appended index a trajectory of the outside writer. */
  lemma GenerateRoundSourced(st: GenerateState, gen: GenerationConfig, system: SystemModel,
                             external: seq<seq<Trajectory>>)
    requires GenerateStateOk(st, gen) && st.nGenerated < gen.nPop && 1 <= gen.trajLen
    requires AddedSourced(st, system, gen.trajLen, external)
    ensures AddedSourced(GenerateRound(st, gen, GeneratedBatch(system, st.round, st.nSet, gen.trajLen),
                                       Arrival(external, st.round)), system, gen.trajLen, external)
  {
    GenerateRoundWrittenSourced(st, gen, system, Arrival(external, st.round));
    GenerateRoundAppendedSourced(st, gen, GeneratedBatch(system, st.round, st.nSet, gen.trajLen), external);
  }

  /** The rest of a run keeps what the recorded indices hold. */
  lemma {:induction false} GenerateFromSourced(st: GenerateState, gen: GenerationConfig, system: SystemModel,
                                               external: seq<seq<Trajectory>>)
    requires GenerateStateOk(st, gen)
    requires AddedSourced(st, system, gen.trajLen, external)
    ensures AddedSourced(GenerateFrom(st, gen, system, external).1, system, gen.trajLen, external)
    ensures GenerateFrom(st, gen, system, external).1.start == st.start
    decreases Max(0, gen.nPop - StateCount(st)), if st.nGenerated < gen.nPop then 1 else 0
  {
    if st.nGenerated < gen.nPop && gen.trajLen >= 1 {
      GenerateRoundSourced(st, gen, system, external);
      var batch := GeneratedBatch(system, st.round, st.nSet, gen.trajLen);
      GenerateFromSourced(GenerateRound(st, gen, batch, Arrival(external, st.round)), gen, system, external);
    }
  }

  /** Saving `st.added` from index `st.start` on moves what `AddedSourced`
      says about the sequence onto the directory. */
  lemma SourcedWritten(files: map<string, Trajectory>, st: GenerateState, system: SystemModel, trajLen: int,
                       external: seq<seq<Trajectory>>)
    requires AddedSourced(st, system, trajLen, external)
    ensures Sourced(Written(files, st.start, st.added), st.written, st.appended, system, trajLen, external)
  {
    var w := Written(files, st.start, st.added);
    WrittenStored(files, st.start, st.added);
    forall k | k in st.written
      ensures TrajectoryFileName(k) in w && IsGeneratedSample(system, trajLen, w[TrajectoryFileName(k)])
    {
      assert w[TrajectoryFileName(k)] == st.added[k - st.start];
    }
    forall k | k in st.appended
      ensures TrajectoryFileName(k) in w && IsExternal(external, w[TrajectoryFileName(k)])
    {
      assert w[TrajectoryFileName(k)] == st.added[k - st.start];
    }
  }

  /** What `generate()` leaves behind: each index it saved holds one of its
      noised samples, and each index the outside writer took holds one of
      that writer's trajectories. */
  lemma GenerateRunSourced(files: map<string, Trajectory>, gen: GenerationConfig, system: SystemModel,
                           external: seq<seq<Trajectory>>)
    requires Dense(files.Keys, TrajExtension, GetTrajectoryCount(files.Keys))
    ensures var r := GenerateRun(files, gen, system, external);
            Sourced(r.files, r.written, r.appended, system, gen.trajLen, external)
  {
    var n := GetTrajectoryCount(files.Keys);
    var last := GenerateFrom(GenerateStart(n), gen, system, external).1;
    GenerateFromSourced(GenerateStart(n), gen, system, external);
    SourcedWritten(files, last, system, gen.trajLen, external);
  }

  /** The directory after a round is the one before it, with the outside
      writer's batch and then the saved part of the round's own batch
      appended at the next free indices. */
  lemma WrittenRound(before: map<string, Trajectory>, st: GenerateState, gen: GenerationConfig,
                     batch: seq<Trajectory>, arriving: seq<Trajectory>,
                     prior: map<string, Trajectory>, landed: map<string, Trajectory>, after: map<string, Trajectory>,
                     count: int, n: nat)
    requires GenerateStateOk(st, gen) && st.nGenerated < gen.nPop && |batch| == st.nSet
    requires count == StateCount(st) + |arriving| && n == RoundSaved(st, gen, arriving) && n <= |batch|
    requires prior == Written(before, st.start, st.added)
    requires landed == Written(prior, StateCount(st), arriving)
    requires after == Written(landed, count, batch[..n])
    ensures after == Written(before, st.start, GenerateRound(st, gen, batch, arriving).added)
  {
    var saved := batch[..n];
    var sofar := st.added + arriving;
    assert StateCount(st) == st.start + |st.added| && count == st.start + |sofar|;
    assert landed == Written(before, st.start, sofar) by {
      WrittenConcatAt(before, st.start, st.added, arriving, StateCount(st));
    }
    assert after == Written(before, st.start, sofar + saved) by {
      WrittenConcatAt(before, st.start, sofar, saved, count);
    }
    GenerateRoundAdded(st, gen, batch, arriving);
  }

  /** One round of `generate()`'s loop after the batch `batch` is drawn: the
      outside writer appends its batch of the round, the count is re-read,
      and unless it is exactly `n_pop` the first `min(n_set, n_pop - count)`
      trajectories of the batch are saved from the count on. */
  method GenerateRoundStep(data: Directory<Trajectory>, gen: GenerationConfig, external: seq<seq<Trajectory>>,
                           round: nat, nSet: int, batch: seq<Trajectory>,
                           ghost before: map<string, Trajectory>, ghost st: GenerateState)
    returns (nGenerated: int, nSet': int, ghost st': GenerateState)
    requires Dense(before.Keys, TrajExtension, st.start) && data.files == Written(before, st.start, st.added)
    requires GenerateStateOk(st, gen) && st.nGenerated < gen.nPop
    requires round == st.round && nSet == st.nSet && |batch| == nSet
    modifies data
    ensures st' == GenerateRound(st, gen, batch, Arrival(external, round))
    ensures data.files == Written(before, st'.start, st'.added)
    ensures nGenerated == st'.nGenerated && nSet' == st'.nSet
  {
    var arriving := Arrival(external, round);
    st' := GenerateRound(st, gen, batch, arriving);
    GenerateRoundAdded(st, gen, batch, arriving);
    WrittenCount(before, st.start, st.added);
    ghost var prior := data.files;
    nGenerated := RecheckCount(data, arriving, StateCount(st));
    ghost var saved := RoundSaved(st, gen, arriving);
    ghost var landed := data.files;
    nSet' := nSet;
    if nGenerated != gen.nPop {
      nSet' := Min(nSet, gen.nPop - nGenerated);
      assert Max(nSet', 0) == saved;
      SaveBatch(data, nGenerated, batch, Max(nSet', 0));
      assert data.files == Written(landed, nGenerated, batch[..saved]);
    } else {
      assert saved == 0 && |batch[..saved]| == 0;
      assert data.files == Written(landed, nGenerated, batch[..saved]);
    }
    WrittenRound(before, st, gen, batch, arriving, prior, landed, data.files, nGenerated, saved);
  }

  /** `generate()`: fill the data directory up to `n_pop` trajectories in
      rounds of at most 30. Each round simulates a batch first, then re-reads
      the count (an outside writer may have added `external[round]` at the next
      free indices meanwhile), stops if the count is exactly `n_pop`, and
      otherwise saves `min(n_set, n_pop - count)` of the batch at the next
      indices. `written` holds the indices this method saved, `appended` those
      the outside writer took. `Tracked` states the rest: the directory stays
      dense, every old file is kept unchanged, the count never falls, and no
      file appears other than those of `written` and `appended`. */
  method Generate(data: Directory<Trajectory>, gen: GenerationConfig, system: SystemModel,
                  external: seq<seq<Trajectory>>)
    returns (ok: bool, ghost written: set<int>, ghost appended: set<int>)
    requires Dense(data.files.Keys, TrajExtension, GetTrajectoryCount(data.files.Keys))
    modifies data
    ensures GenerateRun(old(data.files), gen, system, external) == GenerateOutcome(ok, data.files, written, appended)
    ensures forall k :: k in written ==> GetTrajectoryCount(old(data.files).Keys) <= k < gen.nPop
    ensures Tracked(old(data.files), data.files, written, appended)
    ensures ok <==> GetTrajectoryCount(old(data.files).Keys) >= gen.nPop || gen.trajLen >= 1
    ensures ok ==> GetTrajectoryCount(data.files.Keys) >= gen.nPop
    ensures ok && external == [] && GetTrajectoryCount(old(data.files).Keys) <= gen.nPop
            ==> GetTrajectoryCount(data.files.Keys) == gen.nPop
  {
    var trajLen := gen.trajLen;
    var nPop := gen.nPop;
    var nGenerated := GetTrajectoryCount(data.files.Keys);
    ghost var n0 := nGenerated;
    ghost var before := data.files;
    var nSet := 30;
    var round: nat := 0;
    ghost var st := GenerateStart(n0);
    GenerateInvStart(n0, gen, external);
    while nGenerated < nPop
      invariant before == old(data.files)
      invariant data.files == Written(before, st.start, st.added)
      invariant nGenerated == st.nGenerated && nSet == st.nSet && round == st.round
      invariant GenerateInv(n0, st, gen, external)
      invariant GenerateFrom(st, gen, system, external) == GenerateFrom(GenerateStart(n0), gen, system, external)
      decreases nPop - StateCount(st)
    {
      var batch := GenerateTrajectorySet(system, round, nSet, trajLen);
      if batch.None? {
        GenerateTracked(before, st, gen, external);
        return false, st.written, st.appended;
      }
      GenerateInvRound(n0, st, gen, external, batch.value);
      GenerateFromRound(st, gen, system, external, batch.value);
      nGenerated, nSet, st := GenerateRoundStep(data, gen, external, round, nSet, batch.value, before, st);
      round := round + 1;
      if nGenerated == nPop {
        break;
      }
    }
    GenerateTracked(before, st, gen, external);
    return true, st.written, st.appended;
  }

  // ---------------------------------------------------------------------
  // Loading.

  /** Every index of `idx` has its file in the data directory. */
  predicate AllPresent(files: map<string, Trajectory>, idx: seq<int>) {
    forall k :: 0 <= k < |idx| ==> TrajectoryFileName(idx[k]) in files
  }

  /** The trajectories stored under the indices `idx`, in that order. */
  function Loaded(files: map<string, Trajectory>, idx: seq<int>): (r: seq<Trajectory>)
    requires AllPresent(files, idx)
    ensures |r| == |idx|
  {
    seq(|idx|, k requires 0 <= k < |idx| && TrajectoryFileName(idx[k]) in files => files[TrajectoryFileName(idx[k])])
  }

  /** Loading one more index extends the loaded list by its file. */
  lemma LoadedSnoc(files: map<string, Trajectory>, idx: seq<int>, k: nat)
    requires k < |idx|
    requires AllPresent(files, idx[..k])
    requires TrajectoryFileName(idx[k]) in files
    ensures AllPresent(files, idx[..k + 1])
    ensures Loaded(files, idx[..k + 1]) == Loaded(files, idx[..k]) + [files[TrajectoryFileName(idx[k])]]
  {
    assert idx[..k + 1] == idx[..k] + [idx[k]];
  }

  /** The loading loop of `get_trajectories`: read the file of each index in
      order; `None` is the error on the first missing file. */
  method LoadAll(files: map<string, Trajectory>, idx: seq<int>) returns (r: Option<seq<Trajectory>>)
    ensures r.Some? <==> AllPresent(files, idx)
    ensures r.Some? ==> r.value == Loaded(files, idx)
  {
    var loaded: seq<Trajectory> := [];
    for k := 0 to |idx|
      invariant AllPresent(files, idx[..k])
      invariant loaded == Loaded(files, idx[..k])
    {
      var name := TrajectoryFileName(idx[k]);
      if name !in files {
        assert !AllPresent(files, idx) by { assert TrajectoryFileName(idx[k]) !in files; }
        return None;
      }
      LoadedSnoc(files, idx, k);
      loaded := loaded + [files[name]];
    }
    assert idx[..|idx|] == idx;
    return Some(loaded);
  }

  /** A contiguous part of a fully present index list is fully present. */
  lemma AllPresentSub(files: map<string, Trajectory>, idx: seq<int>, a: nat, b: nat)
    requires a <= b <= |idx|
    requires AllPresent(files, idx)
    ensures AllPresent(files, idx[a..b])
  {
    forall k | 0 <= k < b - a ensures TrajectoryFileName(idx[a..b][k]) in files {
      assert idx[a..b][k] == idx[a + k];
    }
  }

  /** Loading a contiguous part of the index list loads that part. */
  lemma LoadedSub(files: map<string, Trajectory>, idx: seq<int>, a: nat, b: nat)
    requires a <= b <= |idx|
    requires AllPresent(files, idx)
    ensures AllPresent(files, idx[a..b])
    ensures Loaded(files, idx[a..b]) == Loaded(files, idx)[a..b]
  {
    AllPresentSub(files, idx, a, b);
    var sub := Loaded(files, idx[a..b]);
    var l := Loaded(files, idx);
    forall k | 0 <= k < b - a ensures sub[k] == l[a + k] {
      assert idx[a..b][k] == idx[a + k];
    }
    assert |sub| == |l[a..b]|;
  }

  /** Loading commutes with slicing the index list. */
  lemma LoadedSlice(files: map<string, Trajectory>, idx: seq<int>, lo: int, hi: int)
    requires AllPresent(files, idx)
    ensures AllPresent(files, Slice(idx, lo, hi))
    ensures Slice(Loaded(files, idx), lo, hi) == Loaded(files, Slice(idx, lo, hi))
  {
    var a := SliceBound(lo, |idx|);
    var b := SliceBound(hi, |idx|);
    if a < b {
      LoadedSub(files, idx, a, b);
    }
  }

  /** Loading commutes with cutting the selection into the three blocks. */
  lemma LoadedBlocks(files: map<string, Trajectory>, sel: seq<int>, s: SplitSizes)
    requires AllPresent(files, sel)
    ensures AllPresent(files, TrainBlock(sel, s)) && AllPresent(files, ValidBlock(sel, s))
            && AllPresent(files, TestBlock(sel, s))
    ensures TrainBlock(Loaded(files, sel), s) == Loaded(files, TrainBlock(sel, s))
    ensures ValidBlock(Loaded(files, sel), s) == Loaded(files, ValidBlock(sel, s))
    ensures TestBlock(Loaded(files, sel), s) == Loaded(files, TestBlock(sel, s))
  {
    var loaded := Loaded(files, sel);
    LoadedSlice(files, sel, 0, s.nTrain);
    LoadedSlice(files, sel, s.nTrain, |sel|);
    var rest := Slice(sel, s.nTrain, |sel|);
    LoadedSlice(files, rest, 0, s.nValid);
    LoadedSlice(files, rest, s.nValid, |rest|);
  }

  /** A trajectory is in one of the three blocks exactly when it is in the
      selection. */
  lemma BlockMembers<T>(sel: seq<T>, s: SplitSizes, t: T)
    ensures t in sel <==> t in TrainBlock(sel, s) || t in ValidBlock(sel, s) || t in TestBlock(sel, s)
  {
    BlocksPartition(sel, s);
  }

  /** The trajectories of a selection can all be loaded and sliced. */
  predicate Realizable(files: map<string, Trajectory>, sel: seq<int>, p: WindowParams) {
    AllPresent(files, sel) && ParamsOk(p) && AllSliceable(Loaded(files, sel), p)
  }

  /** The file indices of the train, valid and test trajectories. */
  datatype IndexLists = IndexLists(train: seq<int>, valid: seq<int>, test: seq<int>)

  /** Three index lists without an index in common, all drawn from
      `[lo, hi)`. */
  predicate IndicesOk(idx: IndexLists, lo: int, hi: int) {
    && DisjointIndexLists(idx.train, idx.valid, idx.test)
    && InRange(idx.train, lo, hi) && InRange(idx.valid, lo, hi) && InRange(idx.test, lo, hi)
  }

  /** Appending lists drawn from `[mid, hi)` to lists drawn from `[lo, mid)`
      keeps them apart. */
  lemma ExtendIndices(prior: IndexLists, added: IndexLists, lo: int, mid: int, hi: int)
    requires lo <= mid <= hi && IndicesOk(prior, lo, mid) && IndicesOk(added, mid, hi)
    ensures IndicesOk(IndexLists(prior.train + added.train, prior.valid + added.valid, prior.test + added.test), lo, hi)
  {
    ExtendDisjoint(prior.train, prior.valid, prior.test, added.train, added.valid, added.test, lo, mid, hi);
  }

  /** The three blocks of a selection. */
  function Blocks(sel: seq<int>, sizes: SplitSizes): IndexLists {
    IndexLists(TrainBlock(sel, sizes), ValidBlock(sel, sizes), TestBlock(sel, sizes))
  }

  predicate ListsPresent(files: map<string, Trajectory>, lists: IndexLists) {
    AllPresent(files, lists.train) && AllPresent(files, lists.valid) && AllPresent(files, lists.test)
  }

  /** Splitting a loadable selection drawn from a shuffle of `[lo, hi)`
      gives three disjoint index lists in that range whose trajectories are
      the blocks of the loaded selection; the selection can be sliced exactly
      when each block can. */
  lemma BlocksFacts(files: map<string, Trajectory>, shuffle: nat -> seq<nat>, sel: seq<int>, lo: int, hi: int,
                    sizes: SplitSizes, p: WindowParams)
    requires lo <= hi && PermutesRange(shuffle, hi - lo) && sel == RangeSelection(shuffle, lo, hi, sizes.Total())
    requires AllPresent(files, sel)
    ensures var b := Blocks(sel, sizes);
            && ListsPresent(files, b)
            && IndicesOk(b, lo, hi)
            && TrainBlock(Loaded(files, sel), sizes) == Loaded(files, b.train)
            && ValidBlock(Loaded(files, sel), sizes) == Loaded(files, b.valid)
            && TestBlock(Loaded(files, sel), sizes) == Loaded(files, b.test)
            && (Realizable(files, sel, p) <==>
                  && ParamsOk(p)
                  && AllSliceable(Loaded(files, b.train), p)
                  && AllSliceable(Loaded(files, b.valid), p)
                  && AllSliceable(Loaded(files, b.test), p))
            && (AllSliceable(Loaded(files, sel), p) <==>
                  && AllSliceable(Loaded(files, b.train), p)
                  && AllSliceable(Loaded(files, b.valid), p)
                  && AllSliceable(Loaded(files, b.test), p))
  {
    SelectionProperties(shuffle(hi - lo), hi - lo, lo, sizes.Total());
    LoadedBlocks(files, sel, sizes);
    BlocksDisjoint(sel, sizes);
    BlocksInRange(sel, sizes, lo, hi);
    var loaded := Loaded(files, sel);
    forall t
      ensures t in loaded <==> t in TrainBlock(loaded, sizes) || t in ValidBlock(loaded, sizes) || t in TestBlock(loaded, sizes)
    {
      BlockMembers(loaded, sizes, t);
    }
  }

  /** Three separate sets with separate slice datasets, each consistent and
      cut with the windows `p`. */
  ghost predicate SetsOk(train: TrajectorySet, valid: TrajectorySet, test: TrajectorySet, p: WindowParams)
    reads train, valid, test, train.slices, valid.slices, test.slices
  {
    && train != valid && train != test && valid != test
    && train.slices != valid.slices && train.slices != test.slices && valid.slices != test.slices
    && train.Valid() && valid.Valid() && test.Valid()
    && train.slices.Params() == p && valid.slices.Params() == p && test.slices.Params() == p
  }

  /** The objects a split adds to the manager's footprint. */
  function SplitObjects(train: TrajectorySet, valid: TrajectorySet, test: TrajectorySet): set<object>
    reads train, valid, test
  {
    {train, valid, test} + {train.slices, valid.slices, test.slices}
  }

  /** The loop of the split growth over the three sets and their new
      trajectory lists: each list is appended to its set and sliced. It
      succeeds exactly when every new trajectory can be sliced. */
  method ExtendSets(train: TrajectorySet, valid: TrajectorySet, test: TrajectorySet,
                    trainNew: seq<Trajectory>, validNew: seq<Trajectory>, testNew: seq<Trajectory>,
                    ghost p: WindowParams)
      returns (ok: bool)
    requires SetsOk(train, valid, test, p)
    modifies train, valid, test, train.slices, valid.slices, test.slices
    ensures ok == (AllSliceable(trainNew, p) && AllSliceable(validNew, p) && AllSliceable(testNew, p))
    ensures ok ==> && SetsOk(train, valid, test, p)
                   && train.trajectories == old(train.trajectories) + trainNew
                   && valid.trajectories == old(valid.trajectories) + validNew
                   && test.trajectories == old(test.trajectories) + testNew
  {
    ok := train.ExtendWith(trainNew);
    if !ok {
      return;
    }
    ok := valid.ExtendWith(validNew);
    if !ok {
      return;
    }
    ok := test.ExtendWith(testNew);
  }

  /** The indices the first split of `n` trajectories picks. */
  function InitialSelection(shuffle: nat -> seq<nat>, f: Fractions, n: nat): seq<int> {
    RangeSelection(shuffle, 0, n, InitialSplitSizes(n, f).Total())
  }

  /** The indices the split growth from `nOld` to `nNew` trajectories picks. */
  function GrowthSelection(shuffle: nat -> seq<nat>, f: Fractions, nOld: int, nNew: int): seq<int>
    requires nOld <= nNew
  {
    RangeSelection(shuffle, nOld, nNew, IncrementalSplitSizes(nNew - nOld, f).Total())
  }

  datatype Status = ConfigError | WouldBlock | Failed | Ready

  class SystemDataManager {
    const config: DataConfig
    /** The storage's data directory. */
    const data: Directory<Trajectory>
    var nOnDisk: int
    var trainSet: TrajectorySet?
    var validSet: TrajectorySet?
    var testSet: TrajectorySet?
    /** The file index of each trajectory of each set. */
    ghost var indices: IndexLists
    ghost var Repr: set<object>

    predicate HasSplit()
      reads this
    {
      trainSet != null && validSet != null && testSet != null
    }

    ghost predicate Valid()
      reads this, Repr
    {
      && this in Repr
      && data !in Repr
      && nOnDisk >= 0
      && (!HasSplit() ==>
            && trainSet == null && validSet == null && testSet == null
            && indices == IndexLists([], [], []))
      && (HasSplit() ==> SetsValid())
      && IndicesOk(indices, 0, nOnDisk)
    }

    /** The three sets are in the footprint, consistent, cut with the
        configured windows and as long as their index lists. */
    ghost predicate SetsValid()
      reads this, Repr
      requires HasSplit()
    {
      && trainSet in Repr && validSet in Repr && testSet in Repr
      && trainSet.slices in Repr && validSet.slices in Repr && testSet.slices in Repr
      && SetsOk(trainSet, validSet, testSet, config.Params())
      && |indices.train| == |trainSet.trajectories|
      && |indices.valid| == |validSet.trajectories|
      && |indices.test| == |testSet.trajectories|
    }

    /** The sets hold the index lists `idx` and the trajectories `trajs`. */
    ghost predicate SetsHold(idx: IndexLists, trajs: (seq<Trajectory>, seq<Trajectory>, seq<Trajectory>))
      reads this, trainSet, validSet, testSet
    {
      && HasSplit()
      && indices == idx
      && trainSet.trajectories == trajs.0
      && validSet.trajectories == trajs.1
      && testSet.trajectories == trajs.2
    }

    /** The manager before its first split, knowing `nOnDisk` trajectories. */
    constructor (config: DataConfig, data: Directory<Trajectory>, nOnDisk: nat)
      ensures Valid() && !HasSplit() && fresh(Repr)
      ensures this.config == config && this.data == data && this.nOnDisk == nOnDisk
    {
      this.config := config;
      this.data := data;
      this.nOnDisk := nOnDisk;
      trainSet, validSet, testSet := null, null, null;
      indices := IndexLists([], [], []);
      Repr := {this};
    }

    /** `get_trajectories(N_begin, N_end, N_requested)`: shuffle the indices
        `[N_begin, N_end)`, keep the first `N_requested` and load them in that
        order. `None` is the AssertionError for `N_end > n_on_disk`, the
        error of `randperm` on a negative range, or a missing file. */
    method GetTrajectories(nBegin: int, nEnd: int, nRequested: int, shuffle: nat -> seq<nat>)
      returns (r: Option<seq<Trajectory>>, selection: seq<int>)
      ensures nEnd <= nOnDisk && nBegin <= nEnd ==>
                selection == RangeSelection(shuffle, nBegin, nEnd, nRequested)
      ensures r.Some? <==> nEnd <= nOnDisk && nBegin <= nEnd && AllPresent(data.files, selection)
      ensures r.Some? ==> r.value == Loaded(data.files, selection)
    {
      if !(nOnDisk >= nEnd) || nEnd - nBegin < 0 {
        return None, [];
      }
      selection := RangeSelection(shuffle, nBegin, nEnd, nRequested);
      r := LoadAll(data.files, selection);
    }

    /** `make_trajectory_set(trajectories)`; `null` is the AssertionError the
        slice dataset raises. */
    method MakeTrajectorySet(trajectories: seq<Trajectory>) returns (s: TrajectorySet?)
      ensures (s != null) == (ParamsOk(config.Params()) && AllSliceable(trajectories, config.Params()))
      ensures s != null ==> fresh(s) && fresh(s.slices) && s.Valid()
                            && s.trajectories == trajectories && s.slices.Params() == config.Params()
    {
      var ds, ok := TrajectorySliceDataset.New(trajectories, config.tSkip, config.tHistory, config.tPrediction);
      if !ok {
        return null;
      }
      s := new TrajectorySet(ds, trajectories);
    }

    /** What the first split leaves: success exactly when the selection can be
        loaded and sliced, and then its three blocks, loaded, as the sets. */
    ghost predicate InitialOutcome(ok: bool, shuffle: nat -> seq<nat>)
      reads this, data, trainSet, validSet, testSet
    {
      && nOnDisk >= 0
      && (ok <==> Realizable(data.files, InitialSelection(shuffle, config.fractions, nOnDisk), config.Params()))
      && (ok ==>
            var b := Blocks(InitialSelection(shuffle, config.fractions, nOnDisk), InitialSplitSizes(nOnDisk, config.fractions));
            && ListsPresent(data.files, b)
            && SetsHold(b, (Loaded(data.files, b.train), Loaded(data.files, b.valid), Loaded(data.files, b.test))))
    }

    /** What the split growth from `nOld` trajectories leaves, given the index
        lists and trajectories before: success exactly when the count grew and
        the new selection can be loaded and sliced, and then each block
        appended to its set. */
    ghost predicate GrowthOutcome(ok: bool, shuffle: nat -> seq<nat>, nOld: int,
                                  before: IndexLists, trajs: (seq<Trajectory>, seq<Trajectory>, seq<Trajectory>))
      reads this, data, trainSet, validSet, testSet
    {
      && nOnDisk == GetTrajectoryCount(data.files.Keys)
      && (ok <==> nOld < nOnDisk && Realizable(data.files, GrowthSelection(shuffle, config.fractions, nOld, nOnDisk), config.Params()))
      && (ok ==>
            && nOld < nOnDisk
            && var b := Blocks(GrowthSelection(shuffle, config.fractions, nOld, nOnDisk), IncrementalSplitSizes(nOnDisk - nOld, config.fractions));
               && ListsPresent(data.files, b)
               && SetsHold(IndexLists(before.train + b.train, before.valid + b.valid, before.test + b.test),
                           (trajs.0 + Loaded(data.files, b.train),
                            trajs.1 + Loaded(data.files, b.valid),
                            trajs.2 + Loaded(data.files, b.test))))
    }

    /** `get_trajectory_split()`. The first call loads a shuffled
        `N_train + N_valid + N_test` of the `n_on_disk` trajectories and cuts
        them into the three sets. A later call with dynamic updates on and a
        changed count shares the new indices `[old count, new count)` out
        the same way and appends each share to its set. Otherwise nothing
        changes. Whenever it succeeds, no index is in two sets (`Valid`).
        `false` is an exception raised on the way. */
    method GetTrajectorySplit(shuffle: nat -> seq<nat>) returns (ok: bool)
      requires Valid() && IsShuffle(shuffle)
      modifies Repr
      ensures ok ==> Valid() && HasSplit()
      ensures fresh(Repr - old(Repr))
      ensures !old(HasSplit()) ==> nOnDisk == old(nOnDisk) && InitialOutcome(ok, shuffle)
      ensures old(HasSplit()) && DynamicUpdates(config) && GetTrajectoryCount(data.files.Keys) != old(nOnDisk) ==>
                && trainSet == old(trainSet) && validSet == old(validSet) && testSet == old(testSet)
                && GrowthOutcome(ok, shuffle, old(nOnDisk),
                                 old(indices),
                                 (old(trainSet.trajectories), old(validSet.trajectories), old(testSet.trajectories)))
      ensures old(HasSplit()) && !(DynamicUpdates(config) && GetTrajectoryCount(data.files.Keys) != old(nOnDisk)) ==>
                && ok && nOnDisk == old(nOnDisk)
                && trainSet == old(trainSet) && validSet == old(validSet) && testSet == old(testSet)
                && SetsHold(old(indices),
                            (old(trainSet.trajectories), old(validSet.trajectories), old(testSet.trajectories)))
    {
      if !HasSplit() {
        ok := InitialSplit(shuffle);
      } else if DynamicUpdates(config) {
        var nOnDiskNew := GetTrajectoryCount(data.files.Keys);
        if nOnDiskNew != nOnDisk {
          ok := GrowSplit(nOnDiskNew, shuffle);
        } else {
          ok := true;
        }
      } else {
        ok := true;
      }
    }

    /** The first-call branch of `get_trajectory_split`. */
    method InitialSplit(shuffle: nat -> seq<nat>) returns (ok: bool)
      requires Valid() && !HasSplit() && PermutesRange(shuffle, nOnDisk)
      modifies this
      ensures ok ==> Valid() && HasSplit()
      ensures fresh(Repr - old(Repr))
      ensures nOnDisk == old(nOnDisk)
      ensures InitialOutcome(ok, shuffle)
    {
      ghost var files := data.files;
      ghost var p := config.Params();
      var sizes := InitialSplitSizes(nOnDisk, config.fractions);
      var trajSet, selection := GetTrajectories(0, nOnDisk, sizes.Total(), shuffle);
      assert selection == InitialSelection(shuffle, config.fractions, nOnDisk);
      if trajSet.None? {
        assert !Realizable(files, selection, p);
        return false;
      }
      BlocksFacts(files, shuffle, selection, 0, nOnDisk, sizes, p);
      ghost var b := Blocks(selection, sizes);
      var train, valid, test := MakeSplitSets(trajSet.value, sizes);
      if train == null {
        assert !Realizable(files, selection, p);
        return false;
      }
      assert Realizable(files, selection, p);
      InstallSplit(train, valid, test, b);
      assert SetsHold(b, (Loaded(files, b.train), Loaded(files, b.valid), Loaded(files, b.test)));
      ok := true;
    }

    /** The three `make_trajectory_set` calls of the first split, on the
        blocks of `trajs`; `null` when one of them raises. */
    method MakeSplitSets(trajs: seq<Trajectory>, sizes: SplitSizes)
      returns (train: TrajectorySet?, valid: TrajectorySet?, test: TrajectorySet?)
      ensures (train != null) == (&& ParamsOk(config.Params())
                                  && AllSliceable(TrainBlock(trajs, sizes), config.Params())
                                  && AllSliceable(ValidBlock(trajs, sizes), config.Params())
                                  && AllSliceable(TestBlock(trajs, sizes), config.Params()))
      ensures train != null ==>
                && valid != null && test != null
                && fresh(SplitObjects(train, valid, test))
                && SetsOk(train, valid, test, config.Params())
                && train.trajectories == TrainBlock(trajs, sizes)
                && valid.trajectories == ValidBlock(trajs, sizes)
                && test.trajectories == TestBlock(trajs, sizes)
    {
      train := MakeTrajectorySet(TrainBlock(trajs, sizes));
      if train == null {
        return null, null, null;
      }
      valid := MakeTrajectorySet(ValidBlock(trajs, sizes));
      if valid == null {
        return null, null, null;
      }
      test := MakeTrajectorySet(TestBlock(trajs, sizes));
      if test == null {
        return null, null, null;
      }
    }

    /** Stores new sets and their index lists as the split. */
    method InstallSplit(train: TrajectorySet, valid: TrajectorySet, test: TrajectorySet, ghost idx: IndexLists)
      requires this in Repr && data !in Repr && nOnDisk >= 0
      requires train !in Repr && valid !in Repr && test !in Repr
      requires train.slices !in Repr && valid.slices !in Repr && test.slices !in Repr
      requires SetsOk(train, valid, test, config.Params())
      requires |idx.train| == |train.trajectories| && |idx.valid| == |valid.trajectories|
      requires |idx.test| == |test.trajectories|
      requires IndicesOk(idx, 0, nOnDisk)
      modifies this
      ensures Valid() && HasSplit() && nOnDisk == old(nOnDisk)
      ensures trainSet == train && validSet == valid && testSet == test
      ensures indices == idx
      ensures Repr == old(Repr) + SplitObjects(train, valid, test)
    {
      trainSet, validSet, testSet := train, valid, test;
      Repr := Repr + SplitObjects(train, valid, test);
      indices := idx;
    }

    /** The growth branch of `get_trajectory_split`, once the count has
        changed to `nOnDiskNew`. */
    method GrowSplit(nOnDiskNew: nat, shuffle: nat -> seq<nat>) returns (ok: bool)
      requires Valid() && HasSplit()
      requires nOnDiskNew == GetTrajectoryCount(data.files.Keys) && nOnDiskNew != nOnDisk
      requires nOnDisk <= nOnDiskNew ==> PermutesRange(shuffle, nOnDiskNew - nOnDisk)
      modifies Repr
      ensures ok ==> Valid() && HasSplit()
      ensures Repr == old(Repr)
      ensures trainSet == old(trainSet) && validSet == old(validSet) && testSet == old(testSet)
      ensures GrowthOutcome(ok, shuffle, old(nOnDisk), old(indices),
                            (old(trainSet.trajectories), old(validSet.trajectories), old(testSet.trajectories)))
    {
      ghost var trajs := (trainSet.trajectories, validSet.trajectories, testSet.trajectories);
      ghost var before := indices;
      var nOld := nOnDisk;
      nOnDisk := nOnDiskNew;
      ok := GrowFrom(nOld, shuffle, before, trajs);
    }

    /** The split growth from `nOld` trajectories once `nOnDisk` holds the
        new count: load the new selection, then share it out. */
    method GrowFrom(nOld: int, shuffle: nat -> seq<nat>, ghost before: IndexLists,
                    ghost trajs: (seq<Trajectory>, seq<Trajectory>, seq<Trajectory>))
      returns (ok: bool)
      requires this in Repr && data !in Repr && HasSplit() && SetsValid() && 0 <= nOld && nOld != nOnDisk
      requires IndicesOk(indices, 0, nOld)
      requires before == indices
      requires trajs == (trainSet.trajectories, validSet.trajectories, testSet.trajectories)
      requires nOnDisk == GetTrajectoryCount(data.files.Keys)
      requires nOld <= nOnDisk ==> PermutesRange(shuffle, nOnDisk - nOld)
      modifies Repr
      ensures ok ==> Valid() && HasSplit()
      ensures Repr == old(Repr)
      ensures trainSet == old(trainSet) && validSet == old(validSet) && testSet == old(testSet)
      ensures GrowthOutcome(ok, shuffle, nOld, before, trajs)
    {
      var nNew := nOnDisk;
      var sizes := IncrementalSplitSizes(nNew - nOld, config.fractions);
      var newTrajSet, selection := GetTrajectories(nOld, nNew, sizes.Total(), shuffle);
      if newTrajSet.None? {
        GrowthFailed(shuffle, nOld, before, trajs);
        return false;
      }
      assert selection == GrowthSelection(shuffle, config.fractions, nOld, nNew);
      BlocksFacts(data.files, shuffle, selection, nOld, nNew, sizes, config.Params());
      ok := GrowLoaded(nOld, nNew, sizes, newTrajSet.value, selection, Blocks(selection, sizes), shuffle, before, trajs);
    }

    /** The split growth from `nOld` trajectories once the count is updated
        and the new selection `selection`, with blocks `b`, is loaded as
        `loaded`. */
    method GrowLoaded(nOld: int, nNew: int, sizes: SplitSizes, loaded: seq<Trajectory>, selection: seq<int>,
                      ghost b: IndexLists, shuffle: nat -> seq<nat>, ghost before: IndexLists,
                      ghost trajs: (seq<Trajectory>, seq<Trajectory>, seq<Trajectory>))
      returns (ok: bool)
      requires this in Repr && data !in Repr && HasSplit() && SetsValid() && 0 <= nOld < nNew == nOnDisk
      requires IndicesOk(indices, 0, nOld)
      requires before == indices
      requires trajs == (trainSet.trajectories, validSet.trajectories, testSet.trajectories)
      requires nOnDisk == GetTrajectoryCount(data.files.Keys)
      requires sizes == IncrementalSplitSizes(nNew - nOld, config.fractions)
      requires selection == GrowthSelection(shuffle, config.fractions, nOld, nNew)
      requires b == Blocks(selection, sizes) && ListsPresent(data.files, b)
      requires IndicesOk(b, nOld, nNew)
      requires TrainBlock(loaded, sizes) == Loaded(data.files, b.train)
      requires ValidBlock(loaded, sizes) == Loaded(data.files, b.valid)
      requires TestBlock(loaded, sizes) == Loaded(data.files, b.test)
      requires Realizable(data.files, selection, config.Params()) <==>
                 && ParamsOk(config.Params())
                 && AllSliceable(Loaded(data.files, b.train), config.Params())
                 && AllSliceable(Loaded(data.files, b.valid), config.Params())
                 && AllSliceable(Loaded(data.files, b.test), config.Params())
      modifies Repr
      ensures ok ==> Valid() && HasSplit()
      ensures Repr == old(Repr)
      ensures trainSet == old(trainSet) && validSet == old(validSet) && testSet == old(testSet)
      ensures GrowthOutcome(ok, shuffle, nOld, before, trajs)
    {
      ghost var files := data.files;
      ok := ApplyGrowth(nOld, sizes, loaded, b, files);
      GrowthResult(ok, shuffle, nOld, nNew, before, trajs, selection, sizes, b, files);
    }

    /** The per-set loop of the split growth on the loaded selection
        `loaded`, whose blocks are the trajectories of the index lists `b`. */
    method ApplyGrowth(nOld: int, sizes: SplitSizes, loaded: seq<Trajectory>, ghost b: IndexLists,
                       ghost files: map<string, Trajectory>)
      returns (ok: bool)
      requires this in Repr && data !in Repr && HasSplit() && 0 <= nOld <= nOnDisk
      requires trainSet in Repr && validSet in Repr && testSet in Repr
      requires trainSet.slices in Repr && validSet.slices in Repr && testSet.slices in Repr
      requires SetsOk(trainSet, validSet, testSet, config.Params())
      requires |indices.train| == |trainSet.trajectories| && |indices.valid| == |validSet.trajectories|
      requires |indices.test| == |testSet.trajectories|
      requires IndicesOk(indices, 0, nOld)
      requires IndicesOk(b, nOld, nOnDisk)
      requires files == data.files && ListsPresent(files, b)
      requires TrainBlock(loaded, sizes) == Loaded(files, b.train)
      requires ValidBlock(loaded, sizes) == Loaded(files, b.valid)
      requires TestBlock(loaded, sizes) == Loaded(files, b.test)
      modifies Repr
      ensures ok == (&& AllSliceable(Loaded(files, b.train), config.Params())
                     && AllSliceable(Loaded(files, b.valid), config.Params())
                     && AllSliceable(Loaded(files, b.test), config.Params()))
      ensures Repr == old(Repr) && nOnDisk == old(nOnDisk) && data.files == files
      ensures trainSet == old(trainSet) && validSet == old(validSet) && testSet == old(testSet)
      ensures ok ==> && Valid() && HasSplit() && ParamsOk(config.Params())
                     && indices.train == old(indices.train) + b.train && indices.valid == old(indices.valid) + b.valid
                     && indices.test == old(indices.test) + b.test
                     && trainSet.trajectories == old(trainSet.trajectories) + Loaded(files, b.train)
                     && validSet.trajectories == old(validSet.trajectories) + Loaded(files, b.valid)
                     && testSet.trajectories == old(testSet.trajectories) + Loaded(files, b.test)
    {
      ok := ExtendSets(trainSet, validSet, testSet, TrainBlock(loaded, sizes),
                       ValidBlock(loaded, sizes), TestBlock(loaded, sizes), config.Params());
      if ok {
        CommitGrowth(b, nOld);
      }
    }

    /** The index-list update of a successful split growth: the new
        blocks' indices, all at or above the old count `nOld`, are appended. */
    ghost method CommitGrowth(b: IndexLists, nOld: int)
      requires this in Repr && data !in Repr && HasSplit() && 0 <= nOld <= nOnDisk
      requires trainSet in Repr && validSet in Repr && testSet in Repr
      requires trainSet.slices in Repr && validSet.slices in Repr && testSet.slices in Repr
      requires SetsOk(trainSet, validSet, testSet, config.Params())
      requires |indices.train| + |b.train| == |trainSet.trajectories|
      requires |indices.valid| + |b.valid| == |validSet.trajectories|
      requires |indices.test| + |b.test| == |testSet.trajectories|
      requires IndicesOk(indices, 0, nOld) && IndicesOk(b, nOld, nOnDisk)
      modifies this
      ensures Valid() && HasSplit()
      ensures indices.train == old(indices.train) + b.train && indices.valid == old(indices.valid) + b.valid
      ensures indices.test == old(indices.test) + b.test
      ensures nOnDisk == old(nOnDisk) && Repr == old(Repr)
      ensures trainSet == old(trainSet) && validSet == old(validSet) && testSet == old(testSet)
    {
      ExtendIndices(indices, b, 0, nOld, nOnDisk);
      indices := IndexLists(indices.train + b.train, indices.valid + b.valid, indices.test + b.test);
    }

    /** A split growth whose selection cannot be realised fails. */
    lemma GrowthFailed(shuffle: nat -> seq<nat>, nOld: int, before: IndexLists,
                       trajs: (seq<Trajectory>, seq<Trajectory>, seq<Trajectory>))
      requires nOnDisk == GetTrajectoryCount(data.files.Keys)
      requires !(nOld < nOnDisk && Realizable(data.files, GrowthSelection(shuffle, config.fractions, nOld, nOnDisk), config.Params()))
      ensures GrowthOutcome(false, shuffle, nOld, before, trajs)
    {
    }

    /** The facts the split growth establishes add up to its outcome. */
    lemma GrowthResult(ok: bool, shuffle: nat -> seq<nat>, nOld: int, nNew: int, before: IndexLists,
                       trajs: (seq<Trajectory>, seq<Trajectory>, seq<Trajectory>),
                       sel: seq<int>, sizes: SplitSizes, b: IndexLists,
                       files: map<string, Trajectory>)
      requires files == data.files
      requires nOnDisk == GetTrajectoryCount(files.Keys) && nOld < nNew == nOnDisk
      requires sel == GrowthSelection(shuffle, config.fractions, nOld, nNew)
      requires sizes == IncrementalSplitSizes(nNew - nOld, config.fractions)
      requires b == Blocks(sel, sizes) && ListsPresent(files, b)
      requires ok <==> Realizable(files, sel, config.Params())
      requires ok ==> SetsHold(IndexLists(before.train + b.train, before.valid + b.valid, before.test + b.test),
                               (trajs.0 + Loaded(files, b.train),
                                trajs.1 + Loaded(files, b.valid),
                                trajs.2 + Loaded(files, b.test)))
      ensures GrowthOutcome(ok, shuffle, nOld, before, trajs)
    {
      assert sel == GrowthSelection(shuffle, config.fractions, nOld, nOnDisk);
      assert b == Blocks(sel, IncrementalSplitSizes(nOnDisk - nOld, config.fractions));
    }

    /** `SystemDataManager(system, config)`: check that exactly one data
        source is set, generate or import or wait for the outside writer, read
        the trajectory count and make the first split. `WouldBlock` stands
        for the busy wait on fewer than `dynamic_updates_from` trajectories;
        `importData` is the directory `import_directory` names. */
    static method Create(config: DataConfig, data: Directory<Trajectory>, importData: Directory<Trajectory>,
                         system: SystemModel, external: seq<seq<Trajectory>>, shuffle: nat -> seq<nat>)
      returns (m: SystemDataManager?, status: Status)
      requires IsShuffle(shuffle)
      requires ExactlyOneSource(config) && config.generationConfig.Some? ==>
                 Dense(data.files.Keys, TrajExtension, GetTrajectoryCount(data.files.Keys))
      modifies data
      ensures status == ConfigError <==> !ExactlyOneSource(config)
      ensures status == ConfigError ==> data.files == old(data.files)
      ensures status == WouldBlock <==>
                && ExactlyOneSource(config) && config.dynamicUpdatesFrom.Some?
                && GetTrajectoryCount(old(data.files).Keys) < config.dynamicUpdatesFrom.value
      ensures ExactlyOneSource(config) && config.dynamicUpdatesFrom.Some? ==> data.files == old(data.files)
      ensures ExactlyOneSource(config) && config.importDirectory.Some? ==>
                data.files == Reconciled(old(data.files), old(importData.files))
      ensures ExactlyOneSource(config) && config.generationConfig.Some? ==>
                var run := GenerateRun(old(data.files), config.generationConfig.value, system, external);
                && data.files == run.files
                && Tracked(old(data.files), data.files, run.written, run.appended)
                && Sourced(data.files, run.written, run.appended, system, config.generationConfig.value.trajLen, external)
      ensures ExactlyOneSource(config) && config.generationConfig.Some? && status != Failed ==>
                GetTrajectoryCount(data.files.Keys) >= config.generationConfig.value.nPop
      ensures ExactlyOneSource(config) && status != WouldBlock ==>
                (status == Failed <==>
                   || (&& config.generationConfig.Some?
                       && GetTrajectoryCount(old(data.files).Keys) < config.generationConfig.value.nPop
                       && config.generationConfig.value.trajLen < 1)
                   || !Realizable(data.files, InitialSelection(shuffle, config.fractions, GetTrajectoryCount(data.files.Keys)),
                                  config.Params()))
      ensures (m != null) == (status == Ready)
      ensures m != null ==> && fresh(m) && m.Valid() && m.HasSplit()
                            && m.config == config && m.data == data
                            && m.nOnDisk == GetTrajectoryCount(data.files.Keys)
                            && m.InitialOutcome(true, shuffle)
    {
      var doGenerate := config.generationConfig.Some?;
      var doImport := config.importDirectory.Some?;
      var doDynamics := config.dynamicUpdatesFrom.Some?;
      if SourceCount(config) != 1 {
        return null, ConfigError;
      }
      if doGenerate {
        var generated;
        ghost var written, appended;
        generated, written, appended := Generate(data, config.generationConfig.value, system, external);
        GenerateRunSourced(old(data.files), config.generationConfig.value, system, external);
        if !generated {
          return null, Failed;
        }
      } else if doImport {
        ImportDataToStorage(data, importData);
      } else {
        var nOnDisk := GetTrajectoryCount(data.files.Keys);
        if nOnDisk < config.dynamicUpdatesFrom.value {
          return null, WouldBlock;
        }
      }
      var nOnDisk := GetTrajectoryCount(data.files.Keys);
      m := new SystemDataManager(config, data, nOnDisk);
      var split := m.GetTrajectorySplit(shuffle);
      if !split {
        return null, Failed;
      }
      status := Ready;
    }
  }
}
