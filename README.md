# Checkpoint diff engine of the `replicate diff` command

This project models, in Dafny, the comparison engine behind `replicate diff
<ID> <ID>` (file `cli/pkg/cli/diff.go`). The command compares two experiments
or checkpoints of machine-learning training runs:

- `loadCheckpoint` resolves each user-typed prefix to one checkpoint. A prefix
  that names a checkpoint gives that checkpoint. A prefix that names an
  experiment gives the experiment's best checkpoint, or else its latest one.
  An experiment without checkpoints is an error.
- `printDiff` does both resolutions and fetches both experiments before it
  writes anything. It then writes a header (checkpoint and experiment short
  IDs), a Params section (the experiments' parameters) and a Metrics section
  (the checkpoints' metrics).
- `paramMapToStringMap` turns typed values into their display strings.
- `mapString` computes the key-wise difference of two string maps.
- `printMapDiff` writes that difference as rows sorted by key. A missing side
  shows `(not set)`. An empty difference shows one `(no difference)` row.

Modules, one file each:

| file | module | what it holds |
|---|---|---|
| wrappers.dfy | `Wrappers` | `Option` (Go's nil) and `Result` (Go's `(value, error)`) |
| string_order.dfy | `StringOrder` | Go's `<` on strings (`Less`), its order lemmas, and `SortedKeys`, the increasing sequence of a set of keys |
| map_diff.dfy | `MapDiff` | `mapString` as the method `MapString`, proved equal to the function `Diff`; lemmas on `Diff`; `paramMapToStringMap` |
| render.dfy | `Render` | output lines, the sort of the records, `printMapDiff`; `DiffTable`, the section a difference prints as |
| checkpoints.dfy | `Checkpoints` | experiments, checkpoints, the project's lookups as oracles, `loadCheckpoint` |
| diff_report.dfy | `DiffReport` | `printDiff` and the layout of the whole report |

The project's lookups are the function-valued fields of a `Project` value.
`CheckpointOrExperimentFromPrefix` and `ExperimentByID` give a value or an
error. `ExperimentBestCheckpoint` and `ExperimentLatestCheckpoint` give a
checkpoint, an absent one (`None`), or an error. `shortId` is a total function
from an ID to its short form; it stands for `ShortID` and `ShortExperimentID`.
Their code is not part of this model. The value formatter
`param.Value.String` is the parameter `show`.

Go's `<` on strings compares the UTF-8 bytes. UTF-8 keeps the order of code
points, and a Dafny `char` is a Unicode scalar value. So `StringOrder.Less`
compares characters one by one.

Go's map iteration order is unspecified. The loops of `MapString`,
`ParamMapToStringMap` and `CollectKeyVals` pick the next key with `:|`, so
their proofs hold for every visiting order. `SortedKeysUnique` shows that the
printed order does not depend on that order.

`(not set)` is not reserved: a value whose display string is `(not set)`
prints like a missing side. The model follows the code.

## Model

| member | source | states |
|---|---|---|
| `StringOrder.CommonPrefixLength` | cli/pkg/cli/diff.go:114 | the strings differ right after the common prefix, unless one of them ends there |
| `StringOrder.CommonPrefixShared` | cli/pkg/cli/diff.go:114 | the strings agree on every character of the common prefix |
| `StringOrder.Less` | cli/pkg/cli/diff.go:114 | `a < b` exactly when `a` is a proper prefix of `b`, or `a` has the smaller character where they first differ |
| `StringOrder.LessIrreflexive` | cli/pkg/cli/diff.go:113-115 | no key sorts before itself |
| `StringOrder.LessAsymmetric` | cli/pkg/cli/diff.go:113-115 | two keys are never each before the other |
| `StringOrder.LessTransitive` | cli/pkg/cli/diff.go:113-115 | the key order used by the sort is transitive |
| `StringOrder.LessTotal` | cli/pkg/cli/diff.go:113-115 | any two different keys are ordered one way or the other, so sorted output is determined |
| `StringOrder.SortedKeys` | cli/pkg/cli/diff.go:113-115 | the sorted key sequence has exactly the set's keys, one each, in strictly increasing order |
| `StringOrder.SortedKeysUnique` | cli/pkg/cli/diff.go:110-115 | any strictly increasing sequence of the same keys equals `SortedKeys`: the printed order does not depend on map iteration order |
| `MapDiff.MapString` | cli/pkg/cli/diff.go:190-215 | the two loops compute exactly the difference `Diff(left, right)` |
| `MapDiff.DiffBothDiffer` | cli/pkg/cli/diff.go:193-200 | a key both maps hold with different values maps to (Some left[k], Some right[k]) |
| `MapDiff.DiffLeftOnly` | cli/pkg/cli/diff.go:201-205 | a key only the left map holds maps to (Some left[k], None) |
| `MapDiff.DiffRightOnly` | cli/pkg/cli/diff.go:207-212 | a key only the right map holds maps to (None, Some right[k]) |
| `MapDiff.DiffKeys` | cli/pkg/cli/diff.go:190-215 | the result's keys are exactly the keys of either map on which the maps disagree; keys with equal values are left out |
| `MapDiff.DiffEntriesDisagree` | cli/pkg/cli/diff.go:190-215 | no entry has both sides unset or both sides equal |
| `MapDiff.DiffOfSelf` | cli/pkg/cli/diff.go:193-200 | a map compared with itself gives the empty difference |
| `MapDiff.DiffSwap` | cli/pkg/cli/diff.go:190-215 | swapping the arguments keeps the key set and swaps each entry's two sides |
| `MapDiff.DiffDisjoint` | cli/pkg/cli/diff.go:201-212 | maps with disjoint keys give \|L\|+\|R\| entries, each with exactly one side set |
| `MapDiff.ParamMapToStringMap` | cli/pkg/cli/diff.go:134-140 | the result has the same keys, and each value is the display string of the input's value |
| `MapDiff.DisplayedDiffIgnoresEqualStrings` | cli/pkg/cli/diff.go:134-140 | values are compared by display string: equal strings are no difference |
| `Render.Text` | cli/pkg/cli/diff.go:120-126 | a cell shows the side's value, or `(not set)` when the side lacks the key |
| `Render.EntryLine` | cli/pkg/cli/diff.go:119-127 | an entry line carries the key and shows each side as `Text` does |
| `Render.DiffTableLines` | cli/pkg/cli/diff.go:113-128 | a non-empty difference prints one entry line per key, in sorted key order |
| `Render.DiffTableEmpty` | cli/pkg/cli/diff.go:117-131 | the section is the single `(no difference)` line exactly when the difference is empty |
| `Render.DiffTableCells` | cli/pkg/cli/diff.go:118-127 | each entry line is for a key of the difference and shows each side's value, or `(not set)` for a missing side |
| `Render.DiffTableOrder` | cli/pkg/cli/diff.go:113-127 | entry keys strictly increase and every key of the difference has a line |
| `Render.DiffTableNonEmpty` | cli/pkg/cli/diff.go:117-131 | a section always has at least one line |
| `Render.SortByKey` | cli/pkg/cli/diff.go:113-115 | the sort keeps the same records and orders them by strictly increasing key |
| `Render.CollectKeyVals` | cli/pkg/cli/diff.go:109-112 | the collected records are exactly the difference's (key, entry) pairs, one per key |
| `Render.SortedRecordsGiveTable` | cli/pkg/cli/diff.go:113-128 | the sorted records, written one per line, are the section's lines |
| `Render.WriteEntries` | cli/pkg/cli/diff.go:117-128 | one entry line per record, in the records' order, with the record's key and cells |
| `Render.SingleEntryTable` | cli/pkg/cli/diff.go:113-128 | a difference with one key prints as that key's single entry line |
| `Render.PrintMapDiff` | cli/pkg/cli/diff.go:101-132 | the lines written are `DiffTable(Diff(map1, map2))` |
| `Render.DiffTableOfSelf` | cli/pkg/cli/diff.go:117-131 | a map compared with itself prints only `(no difference)` |
| `Checkpoints.Message` | cli/pkg/cli/diff.go:174 | the no-checkpoints message names the experiment's short ID between double quotes |
| `Checkpoints.LoadCheckpoint` | cli/pkg/cli/diff.go:146-177 | a failed prefix lookup gives its error; a checkpoint match gives that checkpoint; an experiment match gives the two-tier selection `FirstPick`: best, then latest, else the no-checkpoints error with the experiment's short ID |
| `Checkpoints.LoadMatchedCheckpoint` | cli/pkg/cli/diff.go:147-153 | a prefix that matches a checkpoint gives that checkpoint unchanged |
| `Checkpoints.LoadExperimentCheckpoint` | cli/pkg/cli/diff.go:154-176 | for a matched experiment: the best checkpoint if any, else the latest, else the no-checkpoints error with the experiment's short ID |
| `Checkpoints.LoadPropagatesErrors` | cli/pkg/cli/diff.go:147-172 | the error of the first failing lookup is returned unchanged |
| `Checkpoints.LoadOutcomeOrigin` | cli/pkg/cli/diff.go:146-177 | every returned checkpoint is the matched, best or latest one, and every error is a lookup's or the no-checkpoints error |
| `Checkpoints.FirstPick` | cli/pkg/cli/diff.go:156-176 | a tiered selection: the first tier with an opinion decides, else the fallback error |
| `DiffReport.PrintDiff` | cli/pkg/cli/diff.go:64-99 | the result is `Report`: the error of the first failed lookup and no lines, or the report layout for the resolved sides |
| `DiffReport.ResolveSides` | cli/pkg/cli/diff.go:65-80 | resolution succeeds exactly when both checkpoint loads and both experiment fetches succeed, and then holds those four values |
| `DiffReport.ResolveFirstError` | cli/pkg/cli/diff.go:65-80 | the error is that of the first failing step, in the order checkpoint 1, checkpoint 2, experiment 1, experiment 2 |
| `DiffReport.ReportOutcome` | cli/pkg/cli/diff.go:64-99 | the report is an error exactly when a lookup fails, with that error unchanged; otherwise it is the layout of the resolved sides, starting with the checkpoint and experiment short-ID lines |
| `DiffReport.AssembleSections` | cli/pkg/cli/diff.go:85-96 | the header lines, then a blank line and the Params heading and table, then a blank line and the Metrics heading and table, then a closing blank line, each at a fixed place |
| `DiffReport.SameCheckpointNoDifference` | cli/pkg/cli/diff.go:89-96 | two prefixes that load the same checkpoint give `(no difference)` in both sections |
| `DiffReport.LearningRateParams` | cli/pkg/cli/diff.go:89-90 | parameters `lr` = 0.1 against 0.2 give the single Params line `lr: 0.1 0.2` |
| `DiffReport.LearningRateExample` | cli/pkg/cli/diff.go:89-96 | experiments differing only in `lr` give the single Params line `lr: 0.1 0.2` and Metrics `(no difference)` |

## Left out

- Command construction, argument-count checking, flag wiring, storage URL resolution and backend creation (`newDiffCommand`, `diffCheckpoints`, lines 18-52): command-line plumbing and I/O.
- Column alignment by `text/tabwriter` and bold/faint colouring by `aurora` (lines 55-61, 83, 89, 93, 130): the output is modelled as a sequence of lines, one per table row, holding the cells the source writes.
- The error of `w.Flush()` (line 98): writing is I/O; the model's report never fails after the lookups succeed.
- The `console.Info` notices (lines 162, 168): a logging side channel that does not change the result.
- Short IDs: `Checkpoint.ShortID`, `Checkpoint.ShortExperimentID` and `Experiment.ShortID` (lines 85, 86, 174) are taken to be one function `shortId` of the full ID, because their code is not part of this model.
- How prefix lookup, best-checkpoint ranking, latest-checkpoint ordering and short IDs work: that code is not part of this model. They are oracles, and no ranking or tie-breaking rule is assumed.
- `param.Value.String` and float formatting: the formatter is the parameter `show`, an arbitrary total function.
- The copies of `mapString` that give each entry its own `*string` (lines 196-199, 203, 210): entries are modelled as pairs of `Option<string>` values.
- A prefix lookup whose result holds neither a checkpoint nor an experiment (Go would dereference nil): the model's `Match` holds exactly one of them.
- Strings that are not valid UTF-8: Dafny strings hold Unicode scalar values only.
- Render.SortByKey: models only the outcome of `sort.Slice`, not its algorithm, and only for distinct keys. That is every input `printMapDiff` gives it, because the keys come from a map. The in-place reordering of the slice is modelled on sequence values.
- Checkpoints.Message: `%q` escaping is modelled only as enclosing double quotes; the escaping of quotes or control characters in an ID is not modelled.
