/** `_get_single_subject_data` of both datasets: read the subject's
    recorded array, scale it to volts, append a stimulus channel carrying
    each trial's class label at its onset, put the axes in the order
    (channel, ., ., time), and turn every block into one run whose rows
    are the channels and whose columns are the block's trials one after
    the other in class order.

    Wang2016 records (channel, time, class, block); BETA records (channel,
    time, block, class). The file reader is the parameter `load`, giving
    the recorded array held by a `.mat` file. */
module Loader {
  import opened Base
  import opened Decimal
  import opened Seqs
  import opened Tables
  import opened Layout
  import opened Tensors
  import opened Resolve

  /** The stimulus onset within a trial: 0.5 s at 250 Hz. */
  const StimOffset: nat := 125

  const SamplingRate: nat := 250

  /** The factor from the recorded microvolts to volts. */
  const MicroVolt: real := 0.000001

  const SessionName: string := "session_0"

  /** A continuous recording as MNE's `RawArray` holds it: channel names and
      types, the sampling rate, and one row of samples per channel. */
  datatype Run = Run(names: seq<string>, types: seq<ChannelType>, rate: nat, data: seq<seq<real>>)

  /** `'run_{:d}'.format(i)`. */
  function RunName(i: nat): string {
    "run_" + Dec(i)
  }

  /** The length of the class axis of a recorded array. */
  function ClassCount(ds: Dataset, s: Shape): nat {
    match ds
    case Wang2016 => s.d2
    case Beta => s.d3
  }

  /** The length of the block axis of a recorded array. */
  function BlockCount(ds: Dataset, s: Shape): nat {
    match ds
    case Wang2016 => s.d3
    case Beta => s.d2
  }

  /** The recorded sample of channel `ch` at time `t` of the trial of class
      `c` in block `i`. */
  function Sample(ds: Dataset, raw: Tensor, ch: nat, t: nat, c: nat, i: nat): real {
    match ds
    case Wang2016 => Get(raw, ch, t, c, i)
    case Beta => Get(raw, ch, t, i, c)
  }

  /** The class label of the trial at `(x, y)` of a recorded array's last
      two axes: one more than the index on the class axis. */
  function Label(ds: Dataset, x: nat, y: nat): real {
    match ds
    case Wang2016 => (x + 1) as real
    case Beta => (y + 1) as real
  }

  /** `np.arange(1, 41)`. */
  function Labels(): (x: seq<real>)
    ensures |x| == Targets
  {
    var a := Arange(1, Targets, 1);
    seq(Targets, i requires 0 <= i < Targets => a[i] as real)
  }

  /** The right-hand side of `stim[0, 125] = ...`. Wang2016 tiles the
      labels as a column once per block; BETA tiles them as a row once
      per block. */
  function LabelGrid(ds: Dataset, s: Shape): (g: Matrix)
    ensures Proper(g)
  {
    match ds
    case Wang2016 => Tile(ColumnVector(Labels()), 1, s.d3)
    case Beta => Tile(RowVector(Labels()), s.d2, 1)
  }

  /** The label grid fits the (class, block) plane of the stimulus array
      exactly when the class axis has forty entries, and then every trial
      gets its own class label. */
  lemma LabelGridFits(ds: Dataset, s: Shape)
    ensures Broadcasts(LabelGrid(ds, s), s.d2, s.d3) <==> ClassCount(ds, s) == Targets
    ensures ClassCount(ds, s) == Targets ==>
      forall x: nat, y: nat :: x < s.d2 && y < s.d3 ==> Broadcast(LabelGrid(ds, s), x, y) == Label(ds, x, y)
  {
    var g := LabelGrid(ds, s);
    var labels := Labels();
    if ClassCount(ds, s) == Targets {
      forall x: nat, y: nat | x < s.d2 && y < s.d3
        ensures Broadcast(g, x, y) == Label(ds, x, y)
      {
        match ds
        case Wang2016 =>
          var v := ColumnVector(labels);
          assert Column(0, x, Targets) == x && Column(y, 0, 1) == y;
          assert At(g, x, y) == At(v, x, 0);
        case Beta =>
          var v := RowVector(labels);
          assert Column(x, 0, 1) == x && Column(0, y, Targets) == y;
          assert At(g, x, y) == At(v, 0, y);
      }
    }
  }

  /** `stim = np.zeros((1, T, n2, n3)); stim[0, 125] = grid`: zero
      everywhere except sample 125, where every trial holds its class
      label. A time axis too short for sample 125 is an `IndexError`; a
      class axis that is not forty long fails to broadcast. */
  function Stimulus(ds: Dataset, s: Shape): (r: Result<Tensor, LoadError>)
    ensures r.Err? <==> s.d1 <= StimOffset || ClassCount(ds, s) != Targets
    ensures r.Err? ==> r.error == if s.d1 <= StimOffset then IndexOutOfRange else BroadcastMismatch
    ensures r.Ok? ==> r.value.shape == Shape(1, s.d1, s.d2, s.d3)
    ensures r.Ok? ==> forall t: nat, x: nat, y: nat :: t < s.d1 && x < s.d2 && y < s.d3 ==>
      Get(r.value, 0, t, x, y) == if t == StimOffset then Label(ds, x, y) else 0.0
  {
    LabelGridFits(ds, s);
    SetPlane(Zeros(Shape(1, s.d1, s.d2, s.d3)), 0, StimOffset, LabelGrid(ds, s))
  }

  /** The array the runs are cut from: the recording scaled to volts, the
      stimulus row appended as the last channel, and axes 1 and 3 swapped.
      Entry `(ch, y, x, t)` is the recording's `(ch, t, x, y)`. */
  function Prepared(ds: Dataset, raw: Tensor): (r: Result<Tensor, LoadError>)
    ensures r.Err? <==> raw.shape.d1 <= StimOffset || ClassCount(ds, raw.shape) != Targets
    ensures r.Err? ==> r.error == if raw.shape.d1 <= StimOffset then IndexOutOfRange else BroadcastMismatch
    ensures r.Ok? ==> r.value.shape == Shape(raw.shape.d0 + 1, raw.shape.d3, raw.shape.d2, raw.shape.d1)
  {
    match Stimulus(ds, raw.shape)
    case Err(e) => Err(e)
    case Ok(stim) => Ok(Transpose0321(Concat0(Scale(raw, MicroVolt), stim)))
  }

  /** Entry `(ch, y, x, t)` of the prepared array is the recording's `(ch,
      t, x, y)` in volts for a recorded channel, and for the appended
      channel the label of trial `(x, y)` at onset and 0 elsewhere. */
  lemma PreparedValues(ds: Dataset, raw: Tensor)
    requires Prepared(ds, raw).Ok?
    ensures var data := Prepared(ds, raw).value;
      forall ch: nat, y: nat, x: nat, t: nat :: InShape(data.shape, ch, y, x, t) ==>
        Get(data, ch, y, x, t) ==
          if ch < raw.shape.d0 then Get(raw, ch, t, x, y) * MicroVolt
          else if t == StimOffset then Label(ds, x, y) else 0.0
  {
  }

  /** `data.shape[1]` in Wang2016 and `data.shape[-2]` in BETA: the number
      of blocks. */
  function RunCount(ds: Dataset, data: Tensor): nat {
    match ds
    case Wang2016 => data.shape.d1
    case Beta => data.shape.d2
  }

  /** `np.reshape(data[:, i, ...], (n, -1))` in Wang2016 and
      `np.reshape(data[..., i, :], (n, -1))` in BETA. */
  function RunData(ds: Dataset, data: Tensor, i: nat): seq<seq<real>>
    requires i < RunCount(ds, data)
  {
    match ds
    case Wang2016 => Rows(Slice1(data, i))
    case Beta => Rows(Slice2(data, i))
  }

  /** The run of block `i`. */
  function RunOf(ds: Dataset, data: Tensor, i: nat): Run
    requires i < RunCount(ds, data)
  {
    Run(ChannelNames(), ChannelTypes(), SamplingRate, RunData(ds, data, i))
  }

  /** `run_0`, `run_1`, ...: one distinct name per block. */
  function RunNames(n: nat): (names: seq<string>)
    ensures |names| == n && Distinct(names)
    ensures forall i :: 0 <= i < n ==> names[i] == RunName(i)
  {
    var names := seq(n, i requires 0 <= i < n => RunName(i));
    forall i, j | 0 <= i < j < n
      ensures names[i] != names[j]
    {
      FramedDecInjective("run_", i, j, "");
      assert RunName(i) == "run_" + Dec(i) + "";
      assert RunName(j) == "run_" + Dec(j) + "";
    }
    names
  }

  function RunsOf(ds: Dataset, data: Tensor): (runs: seq<Run>)
    ensures |runs| == RunCount(ds, data)
    ensures forall i :: 0 <= i < |runs| ==> runs[i] == RunOf(ds, data, i)
  {
    seq(RunCount(ds, data), i requires 0 <= i < RunCount(ds, data) => RunOf(ds, data, i))
  }

  /** The first check a valid subject's recording fails, in the order
      the loader meets them. */
  function LoadFailure(ds: Dataset, raw: Tensor): LoadError {
    if raw.shape.d1 <= StimOffset then IndexOutOfRange
    else if ClassCount(ds, raw.shape) != Targets then BroadcastMismatch
    else ChannelCountMismatch
  }

  /** The session built from a recording: its runs under the single key
      `session_0`. Building it fails with the stimulus errors of
      `Stimulus`, and, when there is at least one block, with MNE's error
      if the data rows do not match the 65 channel names. */
  function Session(ds: Dataset, raw: Tensor): (r: Result<map<string, map<string, Run>>, LoadError>)
    ensures r.Err? <==>
      || raw.shape.d1 <= StimOffset
      || ClassCount(ds, raw.shape) != Targets
      || (BlockCount(ds, raw.shape) > 0 && raw.shape.d0 + 1 != |ChannelNames()|)
    ensures r.Err? ==> r.error == LoadFailure(ds, raw)
    ensures r.Ok? ==> r.value.Keys == {SessionName}
  {
    match Prepared(ds, raw)
    case Err(e) => Err(e)
    case Ok(data) =>
      var n := RunCount(ds, data);
      if n > 0 && data.shape.d0 != |ChannelNames()| then Err(ChannelCountMismatch)
      else Ok(Single(SessionName, RunMap(ds, data)))
  }

  /** `runs['run_{:d}'.format(i)] = raw` for every block `i`: one entry per
      block, keyed by the block's run name. */
  function RunMap(ds: Dataset, data: Tensor): (runs: map<string, Run>)
    ensures forall name :: name in runs <==> exists i: nat :: i < RunCount(ds, data) && name == RunName(i)
    ensures forall i: nat :: i < RunCount(ds, data) ==> RunName(i) in runs && runs[RunName(i)] == RunOf(ds, data, i)
  {
    var n := RunCount(ds, data);
    var names := RunNames(n);
    var runs := Tabulate(names, RunsOf(ds, data));
    RunMapKeys(n, names, runs);
    RunMapValues(ds, data, names, runs);
    runs
  }

  /** A map keyed by `run_0` .. `run_{n-1}` has exactly the run names of
      the first `n` blocks as keys. */
  lemma RunMapKeys<V>(n: nat, names: seq<string>, runs: map<string, V>)
    requires |names| == n
    requires forall i :: 0 <= i < n ==> names[i] == RunName(i)
    requires forall k :: k in runs <==> k in names
    ensures forall name :: name in runs <==> exists i: nat :: i < n && name == RunName(i)
  {
    forall name
      ensures name in runs <==> exists i: nat :: i < n && name == RunName(i)
    {
      if name in runs {
        var i :| 0 <= i < n && names[i] == name;
      }
      if exists i: nat :: i < n && name == RunName(i) {
        var i: nat :| i < n && name == RunName(i);
        assert names[i] == name;
      }
    }
  }

  lemma RunMapValues(ds: Dataset, data: Tensor, names: seq<string>, runs: map<string, Run>)
    requires |names| == RunCount(ds, data)
    requires forall i :: 0 <= i < |names| ==> names[i] == RunName(i) && names[i] in runs
    requires forall i :: 0 <= i < |names| ==> runs[names[i]] == RunsOf(ds, data)[i]
    ensures forall i: nat :: i < RunCount(ds, data) ==> RunName(i) in runs && runs[RunName(i)] == RunOf(ds, data, i)
  {
    forall i: nat | i < |names|
      ensures RunName(i) in runs && runs[RunName(i)] == RunOf(ds, data, i)
    {
      assert names[i] == RunName(i);
    }
  }

  /** `_get_single_subject_data(subject)`: `data_path`'s `ValueError` for
      an invalid subject, and otherwise the session built from the
      recording the subject's file holds. */
  function LoadSubject(ds: Dataset, id: SubjectId, resolve: string -> string, present: string -> bool,
                       load: string -> Tensor): (r: Result<map<string, map<string, Run>>, LoadError>)
    ensures r == Err(InvalidSubject) <==> !IsSubject(ds, id)
    ensures IsSubject(ds, id) ==> r == Session(ds, Recording(ds, id, resolve, present, load))
  {
    match DataPath(ds, id, resolve, present)
    case Err(e) => Err(e)
    case Ok(dests) => Session(ds, load(dests.Target()))
  }

  /** The recorded array a valid subject's runs are built from. */
  function Recording(ds: Dataset, id: SubjectId, resolve: string -> string, present: string -> bool,
                     load: string -> Tensor): Tensor
    requires IsSubject(ds, id)
  {
    load(DataPath(ds, id, resolve, present).value.Target())
  }

  /** Entry `(ch, c * T + t)` of block `i`'s run is sample `t` of the
      trial of class `c` in block `i`: the recorded sample in volts for
      the 64 recorded channels, and the stimulus channel's value (the class
      label at onset, 0 elsewhere) for the last one. */
  lemma RunEntry(ds: Dataset, raw: Tensor, data: Tensor, i: nat, ch: nat, c: nat, t: nat)
    requires Prepared(ds, raw) == Ok(data)
    requires i < BlockCount(ds, raw.shape) && ch <= raw.shape.d0 && c < Targets && t < raw.shape.d1
    ensures i < RunCount(ds, data)
    ensures |RunData(ds, data, i)| == raw.shape.d0 + 1
    ensures Column(c, t, raw.shape.d1) < |RunData(ds, data, i)[ch]|
    ensures RunData(ds, data, i)[ch][Column(c, t, raw.shape.d1)] ==
      if ch < raw.shape.d0 then Sample(ds, raw, ch, t, c, i) * MicroVolt
      else if t == StimOffset then (c + 1) as real else 0.0
  {
    var T := raw.shape.d1;
    var n := raw.shape.d0 + 1;
    var shape := data.shape;
    assert shape == Shape(n, raw.shape.d3, raw.shape.d2, T);
    var g := if ds == Wang2016 then Slice1(data, i) else Slice2(data, i);
    var v := if ds == Wang2016 then Get(data, ch, i, c, t) else Get(data, ch, c, i, t);
    assert Is3(g, n, Targets, T) && g[ch][c][t] == v by {
      if ds == Wang2016 {
        assert InShape(shape, ch, i, c, t);
      } else {
        assert InShape(shape, ch, c, i, t);
      }
    }
    RowElement(g, n, Targets, T, ch, c, t);
    PreparedAt(ds, raw, data, i, ch, c, t);
  }

  /** One entry of `Prepared`, addressed by block and class. */
  lemma PreparedAt(ds: Dataset, raw: Tensor, data: Tensor, i: nat, ch: nat, c: nat, t: nat)
    requires Prepared(ds, raw) == Ok(data)
    requires i < BlockCount(ds, raw.shape) && ch <= raw.shape.d0 && c < Targets && t < raw.shape.d1
    ensures (if ds == Wang2016 then Get(data, ch, i, c, t) else Get(data, ch, c, i, t)) ==
      if ch < raw.shape.d0 then Sample(ds, raw, ch, t, c, i) * MicroVolt
      else if t == StimOffset then (c + 1) as real else 0.0
  {
    PreparedValues(ds, raw);
    if ds == Wang2016 {
      assert InShape(data.shape, ch, i, c, t);
    } else {
      assert InShape(data.shape, ch, c, i, t);
    }
  }

  /** Every run has one row per channel, each `40 * T` samples long. */
  lemma RunShape(ds: Dataset, raw: Tensor, data: Tensor, i: nat)
    requires Prepared(ds, raw) == Ok(data)
    requires i < BlockCount(ds, raw.shape)
    ensures i < RunCount(ds, data)
    ensures Rectangular(RunData(ds, data, i), raw.shape.d0 + 1, Targets * raw.shape.d1)
  {
    var n := raw.shape.d0 + 1;
    match ds
    case Wang2016 =>
      RowsShape(Slice1(data, i), n, Targets, raw.shape.d1);
    case Beta =>
      RowsShape(Slice2(data, i), n, Targets, raw.shape.d1);
  }

  /** The last row of every run, the stimulus channel, is nonzero exactly
      at the onset sample of each trial, where it holds that trial's class
      label: column `k` is sample `k mod T` of the trial of class `k div
      T`. */
  lemma StimulusRow(ds: Dataset, raw: Tensor, data: Tensor, i: nat, k: nat)
    requires Prepared(ds, raw) == Ok(data)
    requires i < BlockCount(ds, raw.shape)
    requires k < Targets * raw.shape.d1
    ensures i < RunCount(ds, data)
    ensures var row := RunData(ds, data, i)[raw.shape.d0];
      && k < |row|
      && (row[k] != 0.0 <==> k % raw.shape.d1 == StimOffset)
      && (k % raw.shape.d1 == StimOffset ==> row[k] == (k / raw.shape.d1 + 1) as real)
  {
    var T := raw.shape.d1;
    ColumnSplit(k, Targets, T);
    RunEntry(ds, raw, data, i, raw.shape.d0, k / T, k % T);
  }

  /** A session's runs are the run map of the prepared array, which has
      one block per recorded block and one row per channel name. */
  lemma SessionMap(ds: Dataset, raw: Tensor)
    requires Session(ds, raw).Ok?
    ensures Prepared(ds, raw).Ok?
    ensures RunCount(ds, Prepared(ds, raw).value) == BlockCount(ds, raw.shape)
    ensures BlockCount(ds, raw.shape) > 0 ==> raw.shape.d0 + 1 == |ChannelNames()|
    ensures Session(ds, raw).value[SessionName] == RunMap(ds, Prepared(ds, raw).value)
  {
    var data := Prepared(ds, raw).value;
    assert Session(ds, raw) == Ok(Single(SessionName, RunMap(ds, data)));
  }

  /** Run `run_i` of a session is the run of block `i` of the prepared
      array. */
  lemma SessionRun(ds: Dataset, raw: Tensor, i: nat)
    requires Session(ds, raw).Ok?
    requires i < BlockCount(ds, raw.shape)
    ensures Prepared(ds, raw).Ok?
    ensures raw.shape.d0 + 1 == |ChannelNames()|
    ensures i < RunCount(ds, Prepared(ds, raw).value)
    ensures RunName(i) in Session(ds, raw).value[SessionName]
    ensures Session(ds, raw).value[SessionName][RunName(i)] == RunOf(ds, Prepared(ds, raw).value, i)
  {
    SessionMap(ds, raw);
  }

  /** A session holds one run per block, named `run_0` .. `run_{B-1}`;
      every run carries the 65 channel names and types and the datasets'
      sampling rate, and has one row of samples per channel name. */
  lemma SessionRuns(ds: Dataset, raw: Tensor)
    requires Session(ds, raw).Ok?
    ensures var runs := Session(ds, raw).value[SessionName];
      && (forall name :: name in runs <==> exists i: nat :: i < BlockCount(ds, raw.shape) && name == RunName(i))
      && (forall i: nat :: i < BlockCount(ds, raw.shape) ==>
            && RunName(i) in runs
            && runs[RunName(i)].names == ChannelNames()
            && runs[RunName(i)].types == ChannelTypes()
            && runs[RunName(i)].rate == SamplingRate
            && |runs[RunName(i)].data| == |ChannelNames()|)
  {
    SessionMap(ds, raw);
    var data := Prepared(ds, raw).value;
    forall i: nat | i < BlockCount(ds, raw.shape)
      ensures |RunData(ds, data, i)| == |ChannelNames()|
    {
      RunShape(ds, raw, data, i);
    }
  }

  /** The samples of a session: sample `t` of the trial of class `c` in
      block `i` sits in run `run_i` at column `c * T + t`; the first 64
      rows hold the recording in volts and the last row holds the class
      label at onset and 0 elsewhere. */
  lemma SessionSamples(ds: Dataset, raw: Tensor, i: nat, ch: nat, c: nat, t: nat)
    requires Session(ds, raw).Ok?
    requires i < BlockCount(ds, raw.shape) && ch < |ChannelNames()| && c < Targets && t < raw.shape.d1
    ensures var run := Session(ds, raw).value[SessionName][RunName(i)];
      && raw.shape.d0 == |Channels| + 4
      && |run.data| == |ChannelNames()|
      && Column(c, t, raw.shape.d1) < |run.data[ch]|
      && run.data[ch][Column(c, t, raw.shape.d1)] ==
           if ch < raw.shape.d0 then Sample(ds, raw, ch, t, c, i) * MicroVolt
           else if t == StimOffset then (c + 1) as real else 0.0
  {
    SessionRun(ds, raw, i);
    RunEntry(ds, raw, Prepared(ds, raw).value, i, ch, c, t);
  }

  /** The layout is self-consistent: the 60 listed names and the 5 added
      ones give 65 names and 65 types, matching 64 recorded channels plus
      the stimulus channel, the only row count a load with blocks accepts. */
  lemma LayoutMatchesData(ds: Dataset, raw: Tensor)
    requires raw.shape.d1 > StimOffset && ClassCount(ds, raw.shape) == Targets
    ensures |ChannelNames()| == |ChannelTypes()| == |Channels| + |Added| == 65
    ensures Prepared(ds, raw).Ok?
    ensures Prepared(ds, raw).value.shape.d0 == |ChannelNames()| <==> raw.shape.d0 == 64
  {
    LayoutSize();
  }
}
