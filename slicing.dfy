/** Trajectory slicing of `dair_pll/dataset_management.py`: the
    `TrajectorySliceDataset` that cuts trajectories into (history window,
    future window) pairs, and the `TrajectorySet` that pairs a trajectory list
    with its slices. Both only ever grow. */
module DatasetSlices {
  import opened PyLists

  /** One state vector. */
  type State = seq<real>
  /** A trajectory: its rows are the states over time. */
  type Trajectory = seq<State>
  /** A window of consecutive rows of one trajectory. */
  type Window = seq<State>

  datatype WindowParams = WindowParams(tSkip: int, tHistory: int, tPrediction: int)

  /** The requirement `t_skip + 1 >= t_history` of the slicer's constructor. */
  predicate ParamsOk(p: WindowParams) { p.tSkip + 1 >= p.tHistory }

  /** The check `first <= last` that `add_sliced_trajectory` asserts. */
  predicate Sliceable(traj: Trajectory, p: WindowParams) {
    p.tSkip <= |traj| - p.tPrediction
  }

  /** Every trajectory of `ts` passes that check. */
  predicate AllSliceable(ts: seq<Trajectory>, p: WindowParams) {
    forall t :: t in ts ==> Sliceable(t, p)
  }

  /** Number of anchors in `range(t_skip, len(traj) - t_prediction)`. */
  function AnchorCount(traj: Trajectory, p: WindowParams): nat {
    Max(0, |traj| - p.tPrediction - p.tSkip)
  }

  /** `traj[(i + 1 - t_history):(i + 1), :]` */
  function HistoryWindow(traj: Trajectory, i: int, p: WindowParams): Window {
    Slice(traj, i + 1 - p.tHistory, i + 1)
  }

  /** `traj[(i + 1):(i + 1 + t_prediction), :]` */
  function FutureWindow(traj: Trajectory, i: int, p: WindowParams): Window {
    Slice(traj, i + 1, i + 1 + p.tPrediction)
  }

  /** The history windows of one trajectory, by increasing anchor. */
  function Histories(traj: Trajectory, p: WindowParams): seq<Window> {
    seq(AnchorCount(traj, p), k => HistoryWindow(traj, p.tSkip + k, p))
  }

  /** The future windows of one trajectory, by increasing anchor. */
  function Futures(traj: Trajectory, p: WindowParams): seq<Window> {
    seq(AnchorCount(traj, p), k => FutureWindow(traj, p.tSkip + k, p))
  }

  /** The history windows of a list of trajectories, in list order. */
  function AllHistories(trajs: seq<Trajectory>, p: WindowParams): seq<Window>
    decreases |trajs|
  {
    if trajs == [] then []
    else AllHistories(trajs[..|trajs| - 1], p) + Histories(trajs[|trajs| - 1], p)
  }

  /** The future windows of a list of trajectories, in list order. */
  function AllFutures(trajs: seq<Trajectory>, p: WindowParams): seq<Window>
    decreases |trajs|
  {
    if trajs == [] then []
    else AllFutures(trajs[..|trajs| - 1], p) + Futures(trajs[|trajs| - 1], p)
  }

  /** A trajectory that passes the check yields `L - t_prediction - t_skip`
      pairs; one that fails it yields none. */
  lemma SliceCount(traj: Trajectory, p: WindowParams)
    ensures Sliceable(traj, p) ==> |Histories(traj, p)| == |traj| - p.tPrediction - p.tSkip
    ensures |Futures(traj, p)| == |Histories(traj, p)|
    ensures !Sliceable(traj, p) ==> Histories(traj, p) == [] && Futures(traj, p) == []
  {
  }

  /** The pair at anchor `i = t_skip + k`: the history is rows
      `[i + 1 - t_history, i + 1)`, starting at a non-negative row, and the
      future is rows `[i + 1, i + 1 + t_prediction)`, inside the trajectory. */
  lemma WindowBounds(traj: Trajectory, p: WindowParams, k: int)
    requires ParamsOk(p) && p.tHistory >= 0 && p.tPrediction >= 0
    requires 0 <= k < |Histories(traj, p)|
    ensures var i := p.tSkip + k;
            && 0 <= i + 1 - p.tHistory
            && i + 1 + p.tPrediction <= |traj|
            && Histories(traj, p)[k] == traj[i + 1 - p.tHistory..i + 1]
            && Futures(traj, p)[k] == traj[i + 1..i + 1 + p.tPrediction]
            && |Histories(traj, p)[k]| == p.tHistory
            && |Futures(traj, p)[k]| == p.tPrediction
  {
    var i := p.tSkip + k;
    assert Histories(traj, p)[k] == HistoryWindow(traj, i, p);
    assert Futures(traj, p)[k] == FutureWindow(traj, i, p);
  }

  /** Slicing `a + b` gives the slices of `a` followed by those of `b`. */
  lemma {:induction false} AllSlicesAppend(a: seq<Trajectory>, b: seq<Trajectory>, p: WindowParams)
    ensures AllHistories(a + b, p) == AllHistories(a, p) + AllHistories(b, p)
    ensures AllFutures(a + b, p) == AllFutures(a, p) + AllFutures(b, p)
    decreases |b|
  {
    if b == [] {
      assert a + b == a;
    } else {
      var b' := b[..|b| - 1];
      assert (a + b)[..|a + b| - 1] == a + b';
      assert (a + b)[|a + b| - 1] == b[|b| - 1];
      AllSlicesAppend(a, b', p);
    }
  }

  /** The two lists always have the same length. */
  lemma {:induction false} AllSlicesSameLength(trajs: seq<Trajectory>, p: WindowParams)
    ensures |AllHistories(trajs, p)| == |AllFutures(trajs, p)|
    decreases |trajs|
  {
    if trajs != [] {
      AllSlicesSameLength(trajs[..|trajs| - 1], p);
    }
  }

  /** Where pair `k` comes from: input `k` and output `k` are cut from the same
      trajectory `j` at the same anchor `t_skip + a`. */
  function Locate(trajs: seq<Trajectory>, p: WindowParams, k: int): (loc: (nat, nat))
    requires 0 <= k < |AllHistories(trajs, p)|
    ensures loc.0 < |trajs| && loc.1 < AnchorCount(trajs[loc.0], p)
    ensures AllHistories(trajs, p)[k] == HistoryWindow(trajs[loc.0], p.tSkip + loc.1, p)
    ensures k < |AllFutures(trajs, p)|
    ensures AllFutures(trajs, p)[k] == FutureWindow(trajs[loc.0], p.tSkip + loc.1, p)
    decreases |trajs|
  {
    var init := trajs[..|trajs| - 1];
    AllSlicesSameLength(init, p);
    var n := |AllHistories(init, p)|;
    if k < n then
      var loc := Locate(init, p, k);
      assert trajs[loc.0] == init[loc.0];
      loc
    else
      (|trajs| - 1, k - n)
  }

  /** `TrajectorySliceDataset`. */
  class TrajectorySliceDataset {
    const tSkip: int
    const tHistory: int
    const tPrediction: int
    var inSlices: seq<Window>
    var outSlices: seq<Window>
    /** The trajectories sliced so far, in the order they were added. */
    ghost var trajectories: seq<Trajectory>

    function Params(): WindowParams {
      WindowParams(tSkip, tHistory, tPrediction)
    }

    ghost predicate Valid()
      reads this
    {
      && ParamsOk(Params())
      && AllSliceable(trajectories, Params())
      && inSlices == AllHistories(trajectories, Params())
      && outSlices == AllFutures(trajectories, Params())
    }

    /** The constructor before any trajectory is added. */
    constructor Empty(tSkip: int, tHistory: int, tPrediction: int)
      requires tSkip + 1 >= tHistory
      ensures Valid()
      ensures this.tSkip == tSkip && this.tHistory == tHistory && this.tPrediction == tPrediction
      ensures trajectories == [] && inSlices == [] && outSlices == []
    {
      this.tSkip := tSkip;
      this.tHistory := tHistory;
      this.tPrediction := tPrediction;
      inSlices := [];
      outSlices := [];
      trajectories := [];
    }

    /** `TrajectorySliceDataset(trajectories, t_skip, t_history, t_prediction)`:
        start empty and add each trajectory in list order. A failing assertion
        (`null`, `false`) stands for the AssertionError the constructor raises. */
    static method New(trajectories: seq<Trajectory>, tSkip: int, tHistory: int, tPrediction: int)
      returns (ds: TrajectorySliceDataset?, ok: bool)
      ensures ok <==> tSkip + 1 >= tHistory && AllSliceable(trajectories, WindowParams(tSkip, tHistory, tPrediction))
      ensures ok ==> ds != null && fresh(ds) && ds.Valid() && ds.trajectories == trajectories
      ensures ok ==> ds.Params() == WindowParams(tSkip, tHistory, tPrediction)
      ensures !ok ==> ds == null
    {
      if !(tSkip + 1 >= tHistory) {
        return null, false;
      }
      var d := new TrajectorySliceDataset.Empty(tSkip, tHistory, tPrediction);
      for k := 0 to |trajectories|
        invariant d.Valid() && fresh(d) && d.trajectories == trajectories[..k]
        invariant d.Params() == WindowParams(tSkip, tHistory, tPrediction)
      {
        var added := d.AddSlicedTrajectory(trajectories[k]);
        if !added {
          return null, false;
        }
        assert trajectories[..k + 1] == trajectories[..k] + [trajectories[k]];
      }
      assert trajectories[..|trajectories|] == trajectories;
      return d, true;
    }

    /** `add_sliced_trajectory(traj)`: append the pair of every anchor in
        `[t_skip, len(traj) - t_prediction)`; fail without changing anything
        when `t_skip > len(traj) - t_prediction`. */
    method AddSlicedTrajectory(traj: Trajectory) returns (ok: bool)
      requires Valid()
      modifies this
      ensures Valid()
      ensures ok == Sliceable(traj, Params())
      ensures trajectories == if ok then old(trajectories) + [traj] else old(trajectories)
      ensures inSlices == old(inSlices) + (if ok then Histories(traj, Params()) else [])
      ensures outSlices == old(outSlices) + (if ok then Futures(traj, Params()) else [])
    {
      if !(tSkip <= |traj| - tPrediction) {
        return false;
      }
      AppendWindows(traj);
      trajectories := trajectories + [traj];
      assert trajectories[..|trajectories| - 1] == old(trajectories);
      ok := true;
    }

    /** The window loop of `add_sliced_trajectory`: one history and one
        future window per anchor `t_skip <= i < len(traj) - t_prediction`,
        appended in anchor order. */
    method AppendWindows(traj: Trajectory)
      requires Sliceable(traj, Params())
      modifies this
      ensures trajectories == old(trajectories)
      ensures inSlices == old(inSlices) + Histories(traj, Params())
      ensures outSlices == old(outSlices) + Futures(traj, Params())
    {
      var first := tSkip;
      var last := |traj| - tPrediction;
      var i := first;
      while i < last
        invariant first <= i <= last
        invariant trajectories == old(trajectories)
        invariant inSlices == old(inSlices) + Histories(traj, Params())[..i - first]
        invariant outSlices == old(outSlices) + Futures(traj, Params())[..i - first]
      {
        assert Histories(traj, Params())[..i + 1 - first]
            == Histories(traj, Params())[..i - first] + [HistoryWindow(traj, i, Params())];
        assert Futures(traj, Params())[..i + 1 - first]
            == Futures(traj, Params())[..i - first] + [FutureWindow(traj, i, Params())];
        inSlices := inSlices + [Slice(traj, i + 1 - tHistory, i + 1)];
        outSlices := outSlices + [Slice(traj, i + 1, i + 1 + tPrediction)];
        i := i + 1;
      }
      assert Histories(traj, Params())[..last - first] == Histories(traj, Params());
      assert Futures(traj, Params())[..last - first] == Futures(traj, Params());
    }

    /** `__len__`: the number of pairs, which is also the length of the output
        list and the number of pairs of the trajectories added so far. */
    function Length(): (n: nat)
      reads this
      requires Valid()
      ensures n == |outSlices|
      ensures n == |AllHistories(trajectories, Params())|
    {
      AllSlicesSameLength(trajectories, Params());
      |inSlices|
    }

    /** `__getitem__(idx)`, with Python's negative indices; `None` stands for
        an IndexError. */
    function GetItem(idx: int): (r: Option<(Window, Window)>)
      reads this
      requires Valid()
      ensures r.Some? <==> -(Length() as int) <= idx < Length()
      ensures 0 <= idx < Length() ==> r == Some((inSlices[idx], outSlices[idx]))
      ensures -(Length() as int) <= idx < 0 ==> r == Some((inSlices[Length() + idx], outSlices[Length() + idx]))
    {
      AllSlicesSameLength(trajectories, Params());
      match (Index(inSlices, idx), Index(outSlices, idx))
      case (Some(input), Some(output)) => Some((input, output))
      case _ => None
    }
  }

  /** `TrajectorySet`: a trajectory list and the slices cut from it. */
  class TrajectorySet {
    const slices: TrajectorySliceDataset
    var trajectories: seq<Trajectory>

    ghost predicate Valid()
      reads this, slices
    {
      slices.Valid() && slices.trajectories == trajectories
    }

    constructor (slices: TrajectorySliceDataset, trajectories: seq<Trajectory>)
      requires slices.Valid() && slices.trajectories == trajectories
      ensures Valid() && this.slices == slices && this.trajectories == trajectories
    {
      this.slices := slices;
      this.trajectories := trajectories;
    }

    /** The per-set step of the split growth: `trajectories.extend(ts)`, then
        `add_sliced_trajectory` on each new trajectory. On success the old
        trajectories and slices are an unchanged prefix of the new ones. */
    method ExtendWith(ts: seq<Trajectory>) returns (ok: bool)
      requires Valid()
      modifies this, slices
      ensures ok == AllSliceable(ts, slices.Params())
      ensures trajectories == old(trajectories) + ts
      ensures ok ==> Valid()
      ensures ok ==> slices.inSlices == old(slices.inSlices) + AllHistories(ts, slices.Params())
      ensures ok ==> slices.outSlices == old(slices.outSlices) + AllFutures(ts, slices.Params())
    {
      trajectories := trajectories + ts;
      ghost var before := slices.trajectories;
      for k := 0 to |ts|
        invariant slices.Valid()
        invariant trajectories == old(trajectories) + ts
        invariant slices.trajectories == before + ts[..k]
        invariant forall j :: 0 <= j < k ==> Sliceable(ts[j], slices.Params())
      {
        var added := slices.AddSlicedTrajectory(ts[k]);
        if !added {
          return false;
        }
        assert ts[..k + 1] == ts[..k] + [ts[k]];
      }
      assert ts[..|ts|] == ts;
      AllSlicesAppend(before, ts, slices.Params());
      ok := true;
    }
  }
}
