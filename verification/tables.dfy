/** The per-dataset constant tables: the 40 events, and the stimulus
    frequency and initial phase of each of the 40 targets.

    Frequencies are integers in tenths of a hertz (80 is 8.0 Hz); phases
    are integers in halves of the unit the tables use (3 is 1.5). In these
    units numpy's float `arange` grids are exact. */
module Tables {
  import opened Seqs
  import opened Decimal

  datatype Dataset = Wang2016 | Beta

  const Targets: nat := 40

  /** An event entry `(code, (start, stop))`: the numeric label and the
      trial window in seconds. */
  datatype Event = Event(code: int, window: (int, int))

  /** The end of the trial window: 5 s of flicker in Wang2016, 2 s in
      BETA. */
  function WindowEnd(ds: Dataset): int {
    match ds
    case Wang2016 => 5
    case Beta => 2
  }

  /** The keys `'1'` .. `'40'` in order. */
  function EventKeys(): (keys: seq<string>)
    ensures |keys| == Targets
    ensures Distinct(keys)
    ensures forall i :: 0 <= i < Targets ==> keys[i] == Dec(i + 1)
  {
    DecInjectiveAll();
    seq(Targets, i requires 0 <= i < Targets => Dec(i + 1))
  }

  function EventValues(ds: Dataset): (vals: seq<Event>)
    ensures |vals| == Targets
    ensures forall i :: 0 <= i < Targets ==> vals[i] == Event(i + 1, (0, WindowEnd(ds)))
  {
    seq(Targets, i requires 0 <= i < Targets => Event(i + 1, (0, WindowEnd(ds))))
  }

  /** `{str(i): (i, (0, w)) for i in range(1, 41)}`: forty entries, each
      keyed by the decimal text of its own code. */
  function Events(ds: Dataset): (m: map<string, Event>)
    ensures |m| == Targets
    ensures forall i :: 1 <= i <= Targets ==> Dec(i) in m && m[Dec(i)] == Event(i, (0, WindowEnd(ds)))
    ensures forall k :: k in m ==> AllDigits(k) && Value(k) == m[k].code && 1 <= m[k].code <= Targets
  {
    var keys := EventKeys();
    var vals := EventValues(ds);
    var m := Tabulate(keys, vals);
    EventEntries(ds, keys, vals, m);
    m
  }

  lemma EventEntries(ds: Dataset, keys: seq<string>, vals: seq<Event>, m: map<string, Event>)
    requires keys == EventKeys() && vals == EventValues(ds)
    requires forall k :: k in m <==> k in keys
    requires forall i :: 0 <= i < |keys| ==> m[keys[i]] == vals[i]
    ensures forall i :: 1 <= i <= Targets ==> Dec(i) in m && m[Dec(i)] == Event(i, (0, WindowEnd(ds)))
    ensures forall k :: k in m ==> AllDigits(k) && Value(k) == m[k].code && 1 <= m[k].code <= Targets
  {
    forall i | 1 <= i <= Targets
      ensures Dec(i) in m && m[Dec(i)] == Event(i, (0, WindowEnd(ds)))
    {
      assert keys[i - 1] == Dec(i);
    }
    forall k | k in m
      ensures AllDigits(k) && Value(k) == m[k].code && 1 <= m[k].code <= Targets
    {
      var i :| 0 <= i < Targets && keys[i] == k;
      ValueOfDec(i + 1);
    }
  }

  /** `np.arange(8, 16, 0.2)` in tenths of a hertz: 8.0, 8.2, ..., 15.8. */
  function FrequencyGrid(): (r: seq<int>)
    ensures |r| == Targets
  {
    Arange(80, Targets, 2)
  }

  /** `np.arange(0, 20, 0.5)` in half units: 0, 0.5, ..., 19.5. */
  function PhaseGrid(): (r: seq<int>)
    ensures |r| == Targets
  {
    Arange(0, Targets, 1)
  }

  /** `x.reshape((8, 5)).T.reshape(-1)`: reading a grid of 8 rows and 5
      columns column by column. */
  function ColumnOrder(x: seq<int>): (r: seq<int>)
    requires |x| == Targets
    ensures |r| == Targets
    ensures forall k :: 0 <= k < Targets ==> r[k] == x[5 * (k % 8) + k / 8]
  {
    var m := Reshape(x, 8, 5);
    var t := Transpose(m, 8, 5);
    FlattenLength(t, 5, 8);
    forall k | 0 <= k < Targets
      ensures Flatten(t)[k] == x[5 * (k % 8) + k / 8]
    {
      ColumnOrderAt(x, m, t, k);
    }
    Flatten(t)
  }

  /** Entry `k` of the column-by-column reading is row `k mod 8`, column
      `k div 8` of the grid. */
  lemma ColumnOrderAt(x: seq<int>, m: seq<seq<int>>, t: seq<seq<int>>, k: nat)
    requires |x| == Targets && m == Reshape(x, 8, 5) && t == Transpose(m, 8, 5)
    requires k < Targets
    ensures Column(k / 8, k % 8, 8) < |Flatten(t)|
    ensures Flatten(t)[k] == x[5 * (k % 8) + k / 8]
  {
    ColumnSplit(k, 5, 8);
    FlattenElement(t, 5, 8, k / 8, k % 8);
    FlattenElement(m, 8, 5, k % 8, k / 8);
    assert Column(k % 8, k / 8, 5) == 5 * (k % 8) + k / 8;
  }

  /** `% 2` on a phase, in half units. */
  function PhaseMod(h: int): int {
    h % 4
  }

  function PhaseModAll(x: seq<int>): (r: seq<int>)
    ensures |r| == |x|
    ensures forall k :: 0 <= k < |x| ==> r[k] == PhaseMod(x[k])
  {
    seq(|x|, k requires 0 <= k < |x| => PhaseMod(x[k]))
  }

  /** `get_freqs()`. Wang2016 reads the docstring's frequency table row by
      row: entry `8j + i` is `8 + i + 0.2 j` Hz. BETA rolls the grid three
      places left: entry `k` is `8 + 0.2 ((k + 3) mod 40)` Hz. */
  function Freqs(ds: Dataset): (r: seq<int>)
    ensures |r| == Targets
    ensures ds == Wang2016 ==> forall k :: 0 <= k < Targets ==> r[k] == 80 + 10 * (k % 8) + 2 * (k / 8)
    ensures ds == Beta ==> forall k :: 0 <= k < Targets ==> r[k] == 80 + 2 * ((k + 3) % Targets)
  {
    match ds
    case Wang2016 => ColumnOrder(FrequencyGrid())
    case Beta => Roll(FrequencyGrid(), -3)
  }

  /** `get_phases()`, in half units. Wang2016: entry `8j + i` is
      `0.5 (5i + j) mod 2`. BETA: entry `k` is `0.5 k mod 2`. */
  function Phases(ds: Dataset): (r: seq<int>)
    ensures |r| == Targets
    ensures ds == Wang2016 ==> forall k :: 0 <= k < Targets ==> r[k] == (5 * (k % 8) + k / 8) % 4
    ensures ds == Beta ==> forall k :: 0 <= k < Targets ==> r[k] == k % 4
    ensures forall k :: 0 <= k < Targets ==> 0 <= r[k] < 4
  {
    match ds
    case Wang2016 => PhaseModAll(ColumnOrder(PhaseGrid()))
    case Beta => PhaseModAll(PhaseGrid())
  }

  /** Each dataset's frequencies are the forty values 8.0 .. 15.8 Hz in
      steps of 0.2, each used exactly once. */
  lemma FreqsArePermutation(ds: Dataset)
    ensures multiset(Freqs(ds)) == multiset(FrequencyGrid())
  {
    FreqsDistinct(ds);
    FreqsCoverGrid(ds);
    DistinctPermutation(Freqs(ds), FrequencyGrid());
  }

  lemma FreqsDistinct(ds: Dataset)
    ensures Distinct(FrequencyGrid())
    ensures Distinct(Freqs(ds))
  {
    PositionsDistinct(ds, Freqs(ds));
  }

  lemma FreqsCoverGrid(ds: Dataset)
    ensures forall x :: x in Freqs(ds) <==> x in FrequencyGrid()
  {
    PositionsCover(ds, Freqs(ds), FrequencyGrid());
  }

  /** Where grid entry `m` lands in a dataset's table, and back. */
  function TablePosition(ds: Dataset, m: nat): (k: nat)
    requires m < Targets
    ensures k < Targets && GridPosition(ds, k) == m
  {
    if ds == Wang2016 then
      var k := 8 * (m % 5) + m / 5;
      DivMod8(k, m % 5, m / 5);
      assert 5 * (m / 5) + m % 5 == m;
      k
    else
      var k := (m + 37) % Targets;
      assert k == if m < 3 then m + 37 else m - 3;
      k
  }

  lemma DivMod8(k: int, j: int, i: int)
    requires 0 <= i < 8 && 0 <= j < 5 && k == 8 * j + i
    ensures k / 8 == j && k % 8 == i
  {
  }

  function GridPosition(ds: Dataset, k: nat): (m: nat)
    requires k < Targets
    ensures m < Targets
  {
    if ds == Wang2016 then 5 * (k % 8) + k / 8 else (k + 3) % Targets
  }

  predicate TableFormula(ds: Dataset, f: seq<int>) {
    |f| == Targets && forall k :: 0 <= k < Targets ==> f[k] == 80 + 2 * GridPosition(ds, k)
  }

  lemma FreqsFormula(ds: Dataset)
    ensures TableFormula(ds, Freqs(ds))
  {
  }

  lemma PositionsDistinct(ds: Dataset, f: seq<int>)
    requires f == Freqs(ds)
    ensures Distinct(f)
  {
    FreqsFormula(ds);
    forall a, b | 0 <= a < b < Targets
      ensures f[a] != f[b]
    {
      GridPositionInjective(ds, a, b);
    }
  }

  lemma GridPositionInjective(ds: Dataset, a: nat, b: nat)
    requires a < Targets && b < Targets && a != b
    ensures GridPosition(ds, a) != GridPosition(ds, b)
  {
    if ds == Wang2016 {
      assert a == 8 * (a / 8) + a % 8 && b == 8 * (b / 8) + b % 8;
    } else {
      assert GridPosition(ds, a) == if a < 37 then a + 3 else a - 37;
      assert GridPosition(ds, b) == if b < 37 then b + 3 else b - 37;
    }
  }

  lemma PositionsCover(ds: Dataset, f: seq<int>, g: seq<int>)
    requires f == Freqs(ds) && g == FrequencyGrid()
    ensures forall x :: x in f <==> x in g
  {
    FreqsFormula(ds);
    forall m | 0 <= m < Targets
      ensures g[m] in f
    {
      assert f[TablePosition(ds, m)] == g[m];
    }
    forall k | 0 <= k < Targets
      ensures f[k] in g
    {
      assert g[GridPosition(ds, k)] == f[k];
    }
  }

  /** The phase each target gets, against the position `m` of its
      frequency in the grid 8.0, 8.2, ..., 15.8 Hz. In Wang2016 a target's
      phase is `0.5 m mod 2`, the phase of the grid entry its frequency
      comes from; BETA rolls its frequencies but not its phases, so there
      the phase is that of the grid entry three places earlier. */
  lemma PhaseOfFrequency(ds: Dataset, k: nat)
    requires k < Targets
    ensures var m := (Freqs(ds)[k] - 80) / 2;
      && 0 <= m < Targets
      && FrequencyGrid()[m] == Freqs(ds)[k]
      && Phases(ds)[k] == if ds == Wang2016 then PhaseMod(m) else PhaseMod((m - 3) % Targets)
  {
    FreqAt(ds, k);
    PhaseAt(ds, k);
  }

  /** Target `k`'s frequency is grid entry `GridPosition(ds, k)`. */
  lemma FreqAt(ds: Dataset, k: nat)
    requires k < Targets
    ensures (Freqs(ds)[k] - 80) / 2 == GridPosition(ds, k)
    ensures FrequencyGrid()[GridPosition(ds, k)] == Freqs(ds)[k]
  {
    var m := GridPosition(ds, k);
    if ds == Wang2016 {
      assert Freqs(ds)[k] == 80 + 10 * (k % 8) + 2 * (k / 8);
    } else {
      assert Freqs(ds)[k] == 80 + 2 * ((k + 3) % Targets);
    }
    Halve(Freqs(ds)[k] - 80, m);
  }

  lemma PhaseAt(ds: Dataset, k: nat)
    requires k < Targets
    ensures Phases(ds)[k] == if ds == Wang2016 then PhaseMod(GridPosition(ds, k))
      else PhaseMod((GridPosition(ds, k) - 3) % Targets)
  {
    if ds == Beta {
      UnrollPosition(k, GridPosition(ds, k));
    }
  }

  lemma Halve(x: int, m: int)
    requires x == 2 * m
    ensures x / 2 == m
  {
  }

  /** BETA's roll moves grid entry `m` to position `(m - 3) mod 40`. */
  lemma UnrollPosition(k: nat, m: nat)
    requires k < Targets && m == (k + 3) % Targets
    ensures (m - 3) % Targets == k
  {
    if k < 37 {
      assert m == k + 3;
    } else {
      assert m == k - 37;
    }
  }
}
