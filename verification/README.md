# Tsinghua SSVEP datasets: a Dafny model

This project models the two dataset accessors in
`brainda/datasets/tsinghua.py`:

- `Wang2016` is the 35-subject SSVEP benchmark.
- `BETA` is the 70-subject BETA database.

For both accessors the model covers:

- the static tables: the event table, the frequency and phase tables, the channel list;
- `data_path`: the subject check, the choice of the archive to fetch, whether to extract it, and the `.mat` path returned;
- `_get_single_subject_data`: how the recorded four-axis array becomes a session of runs.

The model is built from these parts:

- The recording is a four-axis array of reals (`Tensors.Tensor`). Wang2016 stores it as (channel, time, class, block); BETA stores it as (channel, time, block, class).
- The loader works in these steps:
  1. It scales the recording to volts.
  2. It builds a stimulus channel that is zero everywhere except sample 125 of every trial, where it holds the trial's class label.
  3. It appends that channel and swaps the axes with `(0, 3, 2, 1)`.
  4. It cuts one run per block, named `run_0`, `run_1`, …, and puts them under the session `session_0`.
- Every run gets the same 65 channel names and types:
  - the 60 declared names, upper-cased;
  - `M1`, `M2` and `CB1` inserted at 32, 42 and 59;
  - `CB2` and `STI 014` appended.
- numpy and MNE failures the loader can hit become `LoadError` values:
  - `IndexOutOfRange` when the time axis is too short for sample 125;
  - `BroadcastMismatch` when the class axis is not 40 long;
  - `ChannelCountMismatch` when MNE's `RawArray` gets a row count that differs from the 65 names.
- `data_path`'s `ValueError` for an unknown subject is `InvalidSubject`.

The collaborators are parameters:

- `resolve` maps the requested archive name to the local path the download layer returns.
- `present` says whether a local file exists.
- `load` gives the array a `.mat` file holds.

Units are chosen so that the arithmetic is exact:

- Frequencies are integers in tenths of a hertz, so 8.2 Hz is `82`.
- Phases are integers in units of 0.5, so Python's `% 2` becomes `% 4`.

The channel layout is consistent. The code builds 60 + 5 = 65 names and 65 types. Those are exactly the 64 recorded channels plus the stimulus channel (`Loader.LayoutMatchesData`).

Modules, one per file:

| file | module | contents |
|---|---|---|
| `base.dfy` | `Base` | `Option`, `Result`, `LoadError` |
| `decimal.dfy` | `Decimal` | Python's `str(i)` for non-negative integers and its inverse |
| `seqs.dfy` | `Seqs` | list insertion and deletion, flattening, `arange`, `reshape`, transpose, `roll`, and building a map from a key list |
| `paths.dfy` | `Paths` | `p[:-k]`, `Path(p).parent`, `os.path.join` |
| `tables.dfy` | `Tables` | events, frequencies, phases |
| `layout.dfy` | `Layout` | channel names and types |
| `tensors.dfy` | `Tensors` | four-axis arrays: zeros, scaling, concatenation, the axis swap, slicing, `np.tile`, plane assignment with broadcasting |
| `resolve.dfy` | `Resolve` | `data_path` |
| `loader.dfy` | `Loader` | `_get_single_subject_data` |

## Model

| member | source | states |
|---|---|---|
| Resolve.SubjectRange | brainda/datasets/tsinghua.py:179 | The valid ids are exactly the integers 1..70 for BETA and 1..35 for Wang2016 (line 70); a string id is never valid. |
| Resolve.DataPath | brainda/datasets/tsinghua.py:84-225 | Both `data_path` methods (Wang2016 at lines 84-99, BETA at 193-225). Fails with `InvalidSubject` iff the id is not a subject. Otherwise it requests `S{s}.mat.7z` (Wang2016) or the subject's decade archive (BETA), and the archive is what the download layer returned for that name. It returns exactly one path: `file_dest[:-3]` for Wang2016, and `S{s}.mat` joined onto the archive's parent for BETA, for every download layer. The archive is extracted into its own directory iff that path is absent. |
| Resolve.BetaArchiveIsDecade | brainda/datasets/tsinghua.py:196-209 | For every BETA subject, the comparison chain picks the archive named after the subject's own decade `S{10k+1}-S{10k+10}.mat.zip`, where `k = (s-1) div 10`. |
| Resolve.WangTarget | brainda/datasets/tsinghua.py:87-99 | Wang2016 requests `S{s}.mat.7z`. Cutting `.7z` off the cached archive path gives `S{s}.mat` in the same directory, the directory the archive is extracted into. |
| Resolve.BetaTarget | brainda/datasets/tsinghua.py:211-224 | BETA requests its decade's archive and returns a path ending in `/S{s}.mat` whose parent is the archive's directory. |
| Resolve.BetaDecadeShared | brainda/datasets/tsinghua.py:196-224 | Two different subjects of one decade request the same archive and get the same local archive but read different files. |
| Resolve.MatNameInjective | brainda/datasets/tsinghua.py:216 | Different subjects have different `S{:d}.mat` names. |
| Paths.ParentOfJoin | brainda/datasets/tsinghua.py:214-222 | The file `os.path.join(parent_dir, name)` names has `parent_dir` as its parent. |
| Decimal.Dec | brainda/datasets/tsinghua.py:87 | `'{:d}'.format(i)` (and `str(i)`) writes at least one digit, digits only, and no leading zero unless the number is 0. |
| Paths.DropLast | brainda/datasets/tsinghua.py:91 | `file_dest[:-3]` followed by the last three characters gives back `file_dest`; a text shorter than three gives the empty text. |
| Paths.Parent | brainda/datasets/tsinghua.py:214 | `Path(p).parent`: `.` for a text without '/', `/` for an entry of the root, and otherwise the text before the last '/'. |
| Paths.Join | brainda/datasets/tsinghua.py:222 | `os.path.join(d, n)`: an absolute `n` replaces `d`. Otherwise the result starts with `d` and ends with `n`, and it holds one '/' between them exactly when `d` is non-empty and does not end in '/'. |
| Decimal.ValueOfDec | brainda/datasets/tsinghua.py:53 | The decimal text `str(i)` reads back as `i`. |
| Tables.Events | brainda/datasets/tsinghua.py:53 | Forty entries; key `str(i)` maps to `(i, (0, 5))` for Wang2016 (`(0, 2)` for BETA, line 162); every key is the decimal text of its own code, which is in 1..40. |
| Tables.ColumnOrder | brainda/datasets/tsinghua.py:64 | `reshape((8, 5)).T.reshape(-1)` puts entry `5 (k mod 8) + k div 8` of the input at position `k`. |
| Tables.Freqs | brainda/datasets/tsinghua.py:64 | Wang2016 entry `k` is `8 + (k mod 8) + 0.2 (k div 8)` Hz, the docstring table read row by row. BETA entry `k` is `8 + 0.2 ((k + 3) mod 40)` Hz (line 173). |
| Tables.FreqsArePermutation | brainda/datasets/tsinghua.py:173 | Each dataset's frequencies are a permutation of 8.0, 8.2, …, 15.8 Hz. |
| Tables.Phases | brainda/datasets/tsinghua.py:174 | BETA entry `k` is `0.5 k mod 2`. Wang2016 entry `k` is `0.5 (5 (k mod 8) + k div 8) mod 2` (line 65). Every phase lies in [0, 2). |
| Tables.PhaseOfFrequency | brainda/datasets/tsinghua.py:64-65 | Let `m` be the grid position of a target's frequency. In Wang2016 the target's phase is `0.5 m mod 2`. In BETA, which rolls its frequencies but not its phases, the phase is that of grid position `m - 3`. |
| Seqs.RollBack | brainda/datasets/tsinghua.py:173 | `np.roll` by `-3` is undone by a roll by `3`. |
| Layout.ChannelNames | brainda/datasets/tsinghua.py:116-120 | 65 names, with `M1`, `M2`, `CB1`, `CB2`, `STI 014` at 32, 42, 59, 63, 64. Deleting those five positions gives back the declared list, upper-cased. |
| Layout.SpliceKeepsOrder | brainda/datasets/tsinghua.py:240-244 | Declared name `j` lands at `j` plus the number of inserted names before it. Positions keep their order, and none is an added position. |
| Layout.ChannelTypes | brainda/datasets/tsinghua.py:121-124 | 65 types: `misc` exactly at 59 and 63, `stim` exactly at the last position, `eeg` elsewhere. |
| Layout.TypesFollowNames | brainda/datasets/tsinghua.py:245-248 | A channel is `misc` iff it is named `CB1` or `CB2`, and `stim` iff it is named `STI 014`. |
| Tensors.SetPlane | brainda/datasets/tsinghua.py:110 | `x[a, b] = g` raises an index error iff `a` or `b` is out of range, and a broadcast error iff `g` does not broadcast. Otherwise that plane holds `g` broadcast and every other entry is unchanged. |
| Tensors.Tile | brainda/datasets/tsinghua.py:234 | `np.tile(m, (r0, r1))` has shape `(rows r0, cols r1)`, and copy `(q, p)` holds `m` at offset `(q rows, p cols)`. |
| Tensors.Concat0 | brainda/datasets/tsinghua.py:111 | Concatenating on axis 0 puts the channels of the second array after those of the first. |
| Tensors.Transpose0321 | brainda/datasets/tsinghua.py:112 | The transpose puts the entry at `(a, d, c, b)` at `(a, b, c, d)`. |
| Tensors.TransposeTwice | brainda/datasets/tsinghua.py:236 | The axis order `(0, 3, 2, 1)` applied twice gives back the array. |
| Loader.LabelGridFits | brainda/datasets/tsinghua.py:232-234 | The tiled label grid broadcasts to the (axis 2, axis 3) plane iff the class axis is 40 long; then every trial gets its own 1-based class label. |
| Loader.Stimulus | brainda/datasets/tsinghua.py:107-110 | Fails with `IndexOutOfRange` iff the time axis has no sample 125, and with `BroadcastMismatch` iff the class axis is not 40 long. Otherwise it is zero except at sample 125, where each trial holds its class label. |
| Loader.Prepared | brainda/datasets/tsinghua.py:231-236 | Fails exactly as `Stimulus` does; otherwise the result has one more channel than the recording and axes 1 and 3 swapped. |
| Loader.PreparedValues | brainda/datasets/tsinghua.py:106-112 | Prepared entry `(ch, y, x, t)` is the recording's `(ch, t, x, y)` times 1e-6 for a recorded channel. For the appended channel it is the label of trial `(x, y)` at `t = 125` and 0 elsewhere. |
| Loader.RunEntry | brainda/datasets/tsinghua.py:130-134 | In block `i`'s run, entry `(ch, c T + t)` is sample `t` of the block's class-`c` trial: the recording in volts for a recorded channel `ch < d0`, and the stimulus value for row `d0`. |
| Loader.StimulusRow | brainda/datasets/tsinghua.py:254-256 | A run's last row is nonzero exactly at columns `k` with `k mod T = 125`, where it holds `k div T + 1`. |
| Loader.RunNames | brainda/datasets/tsinghua.py:134 | `run_0`, `run_1`, … are pairwise different names, one per block. |
| Loader.RunMap | brainda/datasets/tsinghua.py:254-258 | The run dictionary's keys are exactly `run_0` .. `run_{B-1}`, and `run_i` holds the run of block `i`. |
| Loader.Session | brainda/datasets/tsinghua.py:136-139 | Fails iff the time axis is too short, the class axis is not 40 long, or there is a block and the row count is not 65; the error is the first one met. Otherwise the only key is `session_0`. |
| Loader.SessionRuns | brainda/datasets/tsinghua.py:258-263 | A session holds one run per block, keyed `run_i`. Each run carries the 65 names and types, rate 250 and 65 data rows. |
| Loader.SessionSamples | brainda/datasets/tsinghua.py:255-256 | A successful load with at least one block has a recording with 64 channels, and the session's samples are the recording's, per `RunEntry`. |
| Loader.LoadSubject | brainda/datasets/tsinghua.py:102-105 | Fails with `InvalidSubject` iff the id is not a subject; otherwise it is the session built from the array the subject's resolved `.mat` file holds. |
| Loader.LayoutMatchesData | brainda/datasets/tsinghua.py:121 | Names, types and the declared list plus the added names all number 65. When the stimulus can be built, the prepared array has 65 rows iff the recording has 64 channels. |

## Left out

- The download layer (`mne_data_path`, the URL constants, the `path`, `proxies`, `force_update` and `update_path` arguments) is the parameter `resolve`. Only the archive file name it is given is modelled, not the URL prefix. Network and cache failures are not modelled.
- Archive extraction (`py7zr`, `zipfile`) is recorded as which archive is extracted into which directory. The archive contents and extraction failures are not modelled.
- `loadmat` is the parameter `load`, including BETA's access to the `['data']['EEG']` field. A file that is missing, malformed or holds an array that is not four-dimensional is not modelled.
- The montage is not modelled: `make_standard_montage`, the upper-casing of its names and `set_montage`. Electrode positions are external data, and any error `set_montage` could raise is out of scope.
- `create_info` and `RawArray` are modelled only by the run record (names, types, rate, rows) and by the row-count check. MNE's other validations are out of scope.
- Floating point is not modelled. Samples are reals, so multiplying by 1e-6 is exact. Frequencies and phases are exact tenths and halves, so the rounding of `np.arange` with a float step is not modelled.
- Subject ids are integers or strings only. Python values such as `True` or `1.0`, which compare equal to an integer of the subject list, are not modelled.
- `BaseDataset` and the constructors are not part of this model. Only the constants the accessors use (subject lists, events, 250 Hz) appear.
- `Layout.UpperChar` upper-cases ASCII letters only. The declared names are all ASCII.
- `Resolve.BetaTarget` requires the archive path returned by the download layer to be normalised: no doubled `/`, no trailing `/` and no `.` component. `Paths.Parent` models `PosixPath.parent` only on such text.
- `Resolve.DataPath` does not model `pathlib`'s removal of `.` components. For an archive path such as `./d/S1-S10.mat.zip` it gives `./d` as the directory where `pathlib` gives `d`, so its extraction directory and BETA's returned path differ from the source's for such paths.
- `Resolve.WangTarget` states the target's location only for a download layer that keeps the archive under its own name in one directory (`KeepsNames`). For any other layer, `Resolve.DataPath`'s contract still says the returned path is `file_dest[:-3]`, but nothing says that this text names `S{s}.mat` in a directory.
- `Paths.Parent`, `Paths.Join` and `Resolve.DataPath` model paths as POSIX text, with '/' as the only separator. On Windows, `os.path.join` inserts '\' and `pathlib` also splits on '\', so BETA's returned path and both extraction directories are not modelled there.
- `Resolve.WangTarget` says nothing about what an archive contains. The model records an extraction only as an (archive, directory) pair, so that the extracted `.7z` holds `S{s}.mat` (the docstring names the files `S01.mat`, …) is not stated.
