# MLPClassifier pipeline bookkeeping, modelled in Dafny

This project models the bookkeeping of an emotion-classification pipeline that is built from
per-image PCA features, an LDA projection and scikit-learn MLP classifiers. The learning itself
is left abstract. The model covers four pieces:

- **`MatrixLoader`** (module `MatrixLoading`). It lists the image files of every category
  folder, under a folder path that gets a trailing `/` at most once. It splits each category's
  file list into a training prefix of `int(0.75 n)` files and a validation suffix, and decodes
  both halves. `os.listdir` and `imread` are function parameters.
- **`DataLoader`** (module `DataLoading`). This is the indexed sample store. Two sections,
  `"train"` and `"valid"`, each hold three lists kept in lockstep: images, feature vectors and
  `(category, position)` pairs. `load` fills them category by category. `__getitem__` reads
  one slot of the current section. `convergeFeatures` filters a section by a category set and
  keeps the stored order. The feature extractor (`FeatureLoader.getFeaturesFrom`) is a
  function-valued field.
- **`HyperparameterTuning`** (module `Tuning`). This is the grid search over
  `k = 2 .. len_cat` categories and hidden sizes `8, 16, 24, 32`. For each grid point it draws
  a category subset and trains one classifier, then appends the results to three lists kept in
  lockstep, in `k`-major order. `TrainingModel.train` is an oracle of type `Trainer`, which
  returns `None` when training raises. `np.random.choice(..., replace=False)` is a loop of
  nondeterministic draws among the positions not yet drawn.
- **`GenerateTest`** (module `Testing`). This is the exemplar collection. For every category it
  keeps up to two correctly and two wrongly classified validation images with their labels,
  plus two coverage arrays. `startTest` runs at most `max_layer // min_layer` rounds. Each
  round feeds `len_dl` random validation samples through one classifier. `random.randint` is a
  nondeterministic choice (`:|`), and ghost out-parameters record the positions drawn.

Each class updates its fields in place. The fields follow the source's, with the differences
listed under "## Left out". Every loop is a Dafny loop
proved against a specification function on values: `Filled`, `Splits`, `LoadedImages`,
`Filter`, `Logged`, `Step`, `Round` and `Rounds`. The properties the source promises are
proved as lemmas about those functions.

Python's `KeyError` and `IndexError` paths are not excluded by preconditions:

- A method returns `ok: bool` for them. Where the exception fires before anything changes, the
  state is unchanged.
- A function returns `Option` for them.

`s[i]` with negative indices, `s[i:]` and `range` are modelled exactly in module `Common`.

In three places the source's code does something other than its own docstrings say. The model
follows the code:

- **Exemplar counts.** The docstring of `verifySupposedCategorie` (`src/GenerateTest.py:59-61`)
  says nothing happens once a fail or a success has been recorded for the category. In the code
  (`src/GenerateTest.py:73-84`), a coverage flag is set only by the append that finds its list
  already non-empty, and the flag is what stops further appends. So each list holds at most two
  entries, and the flag holds exactly when its list has two (`Testing.Sane`).
- **Wrong predictions with `fail` covered.** By the same docstring, a wrong prediction for a
  category whose `fail` flag is set should change nothing. In the code (`src/GenerateTest.py:73`
  and `80-84`), such a prediction takes the `elif` branch. It is then filed as a `found`
  exemplar, labelled with its own category (`Testing.FallThroughTrace`).
- **Bounded rounds and exceptions.** The docstring of `startTest` (`src/GenerateTest.py:135`)
  says it iterates until every category has a found and a fail example. The code
  (`src/GenerateTest.py:154-166`) plays at most `max_layer // min_layer` rounds; it stops early
  when everything is covered, and raises IndexError when `l_mlp` has too few entries
  (`Testing.GenerateTest.StartTest`). Likewise, the docstring of `startIterate`
  (`src/HyperparameterTuning.py:60-66`) describes the whole grid. In the code, an exception from
  training (`src/HyperparameterTuning.py:87`) propagates out of `startIterate` and ends the
  search at that grid point. `Tuning.HyperparameterTuning.StartIterate` reports where.

## Model

| member | source | states |
|---|---|---|
| Common.PyIndex | src/DataLoader.py:225-226 | Python indexing: a value exactly for `-len <= i < len`, counting from the end for negative `i`; otherwise the IndexError (None) |
| Common.PySliceFrom | src/GenerateTest.py:152 | Python `s[i:]`: always a suffix of `s`; `s[i..]` for `0 <= i <= len`, the last `-i` elements `s[len+i..]` for `-len <= i < 0`, all of `s` below `-len`, empty past the end |
| Common.PyRange | src/HyperparameterTuning.py:77-80 | `range(start, stop, step)`: element `i` is `start + i*step`, every element is below `stop`, the last one is within one step of it, empty iff `stop <= start`, and `stop - start` elements for step 1 |
| MatrixLoading.TrainSize | src/MatrixLoader.py:103 | the training slice size `t` satisfies `4t <= 3n < 4t + 4` and `t <= n` |
| MatrixLoading.TrainSizeIsTruncatedProduct | src/MatrixLoader.py:103 | `int(n * 0.75)` equals the integer `TrainSize(n)` (floor of the real product) |
| MatrixLoading.EndIndexOf | src/MatrixLoader.py:103-104 | the recorded end indices: `train` is the training size and `train + valid == n` |
| MatrixLoading.Split | src/MatrixLoader.py:109-110 | the training and validation file lists concatenate to the original list, with lengths equal to the end indices |
| MatrixLoading.SplitOf | src/MatrixLoader.py:109-118 | `data[cat]` holds both file lists (which partition the list) and image lists that are element-wise `imread` of those files |
| MatrixLoading.Normalize | src/MatrixLoader.py:77-78 | the normalised path ends with `/`, extends the old path by at most that one character, and a path already ending with `/` is unchanged |
| MatrixLoading.NormalizeIdempotent | src/MatrixLoader.py:76-78 | re-normalising inside the category loop adds no second `/` |
| MatrixLoading.PathJoin | src/MatrixLoader.py:67 | `os.path.join(a, b)`: an absolute `b` replaces `a`, otherwise `a` and `b` are joined with exactly one separator |
| MatrixLoading.Entries | src/MatrixLoader.py:79-80 | one entry per listed file, in listing order, each the join of `path + cat` with the file name |
| MatrixLoading.EntryIsFolderCategoryName | src/MatrixLoader.py:67 | for a normalised folder and a relative file name, the entry is `path + cat + "/" + name` |
| MatrixLoading.Filled | src/MatrixLoader.py:76-80 | filling keeps the set of categories of `d_img` |
| MatrixLoading.FilledAt | src/MatrixLoader.py:76-80 | with distinct categories, each category's list gains exactly the entries of its own folder, and a category outside the list keeps its list |
| MatrixLoading.AppendNew | src/MatrixLoader.py:98-115 | the key order of `data`: old keys keep their places, the keys are exactly the old ones and the categories, and no key repeats |
| MatrixLoading.AppendNewFresh | src/MatrixLoader.py:98-115 | from keys none of which is among distinct categories, the key order is the old keys followed by the categories in loop order |
| MatrixLoading.Splits | src/MatrixLoader.py:98-118 | `data` after the loop: the key set is the categories with a file list, and each value is `SplitOf` its list; `SplitsStep` proves one round adds exactly its own entry |
| MatrixLoading.EndIndices | src/MatrixLoader.py:98-104 | `d_endindex` after the loop: each category with a file list maps to `EndIndexOf` its length; `SplitsStep` proves one round adds exactly its own entry |
| MatrixLoading.SplitsStep | src/MatrixLoader.py:98-118 | one more category updates `data` and `d_endindex` at that category only, to its split and end indices |
| MatrixLoading.RecordStep | src/MatrixLoader.py:98-118 | one category round keeps the loader invariant and extends the splits, end indices and key order by exactly that category |
| MatrixLoading.MatrixLoader.constructor | src/MatrixLoader.py:20-39 | every category has an empty file list and end indices `(0, 0)`, `data` is empty |
| MatrixLoading.MatrixLoader.AddInDictionnaryImg | src/MatrixLoader.py:62-67 | appends the joined path to the category's list; an unknown category is the KeyError and changes nothing |
| MatrixLoading.MatrixLoader.FillCategory | src/MatrixLoader.py:79-80 | the category's list gains `Entries` of its folder listing, nothing else changes |
| MatrixLoading.MatrixLoader.FillDictionnaryImg | src/MatrixLoader.py:69-82 | fails (IndexError) exactly for an empty path with a non-empty category list; otherwise the path is normalised (when there is a category) and `d_img` is `Filled` |
| MatrixLoading.MatrixLoader.RecordSplit | src/MatrixLoader.py:98-118 | sets `d_endindex[cat]` and `data[cat]` from the category's file list; a new key goes to the end of the key order |
| MatrixLoading.MatrixLoader.SplitAll | src/MatrixLoader.py:98-121 | after the category loop, `data` and `d_endindex` gain the split of every category and the key order is `AppendNew` |
| MatrixLoading.MatrixLoader.GenerateTrainAndValidMatrixImg | src/MatrixLoader.py:84-122 | fill then split, with the fill's failure case leaving every field unchanged |
| DataLoading.SectionImages | src/DataLoader.py:158 | `dataimg[cat][section + "_img"]`: the training images for `"train"`, the validation images otherwise |
| DataLoading.LoadedImages | src/DataLoader.py:206-212 | the image list of a section after loading the categories in dict order: the concatenation of each category's images for that section |
| DataLoading.LoadedIndex | src/DataLoader.py:206-212 | the index list of a section after loading: for each category in dict order, the pairs `(cat, 0..m-1)` for its `m` images |
| DataLoading.SectionOf | src/DataLoader.py:137-140 | the section is always `"train"` or `"valid"`, and `"train"` exactly when `"train"` was asked for |
| DataLoading.Indexed | src/DataLoader.py:157-167 | the index pairs of one category carry positions `0 .. m-1` in input order |
| DataLoading.Kept | src/DataLoader.py:184-191 | the kept positions are in range, their labels are in `categories`, and every matching position is kept |
| DataLoading.KeptIncreasing | src/DataLoader.py:184-191 | the kept positions are strictly increasing (stored order) |
| DataLoading.Filter | src/DataLoader.py:184-195 | `None` (stacking an empty list) exactly when no label matches; otherwise, for every kept position `p` in increasing order, the feature and the label at `p`, all labels in `categories` |
| DataLoading.KeptLabelsInOrder | src/DataLoader.py:184-191 | the labels at the kept positions are exactly the in-order subsequence of matching labels |
| DataLoading.FilterLabelsInOrder | src/DataLoader.py:184-195 | the returned labels are the in-order subsequence of the section's categories that lie in `categories`, and an empty subsequence is the failure |
| DataLoading.LoadablePrefix | src/DataLoader.py:206-212 | the categories loaded before the first KeyError: all before it have end indices, the one at it has none |
| DataLoading.LoadedIndexDescribesImages | src/DataLoader.py:157-212 | after `load`, the section's index list is as long as its image list, and the pair `(c, p)` at a slot names a category whose `p`-th image is the image at that slot |
| DataLoading.LoadedLengths | src/DataLoader.py:157-212 | loading keeps the image and index lists of a section the same length |
| DataLoading.DataLoader.constructor | src/DataLoader.py:24-43 | all three dictionaries hold empty `train` and `valid` lists and the section is `"train"` |
| DataLoading.DataLoader.AddImage | src/DataLoader.py:83-88 | appends the image to the section's list; an unknown section is the KeyError and changes nothing |
| DataLoading.DataLoader.AddFeature | src/DataLoader.py:104-109 | appends the feature to the section's list; an unknown section is the KeyError and changes nothing |
| DataLoading.DataLoader.AddCategoryIndex | src/DataLoader.py:118-123 | appends `(cat, index)` to the section's list; an unknown section is the KeyError and changes nothing |
| DataLoading.DataLoader.SetSection | src/DataLoader.py:132-140 | the new section is `SectionOf` the argument |
| DataLoading.DataLoader.Get | src/DataLoader.py:217-226 | a sample exactly for a Python-valid index, namely the image, feature and category of that slot, whose feature is the extractor applied to its image |
| DataLoading.DataLoader.Samples | src/DataLoader.py:217-226 | the current section as a sequence: `Get(i)` is its `i`-th element |
| DataLoading.DataLoader.AppendSample | src/DataLoader.py:158-167 | one loop round appends image, index pair and extracted feature to the same section in lockstep |
| DataLoading.DataLoader.LoadSection | src/DataLoader.py:142-167 | KeyError (nothing changed) for a category without end index or data; otherwise the section's three lists gain the category's images, their features and pairs `(cat, 0..m-1)`, the other section unchanged, the lockstep invariant kept |
| DataLoading.DataLoader.LoadCategory | src/DataLoader.py:206-212 | one category of `load`: training section, then validation section |
| DataLoading.DataLoader.Load | src/DataLoader.py:197-215 | the sections gain, in dict order, the images and index pairs of every category up to the first one without end index; success iff there is none |
| DataLoading.DataLoader.Collect | src/DataLoader.py:181-195 | the loop over the current section returns `Filter` of its features and labels |
| DataLoading.DataLoader.ConvergeFeatures | src/DataLoader.py:169-195 | only the section changes, to `SectionOf` the argument, and the result is `Filter` of that section |
| Tuning.AdamConfig | src/HyperparameterTuning.py:85 | the classifier configuration: solver `adam`, hidden layers `(h, h)`, `random_state=1`, `max_iter=10000`, warm start and early stopping |
| Tuning.HiddenSizes | src/HyperparameterTuning.py:41-80 | the hidden sizes iterated are exactly `8, 16, 24, 32` |
| Tuning.GridSize | src/HyperparameterTuning.py:77-80 | the number of grid points is the number of `k` values times the number of hidden sizes |
| Tuning.GridPoint | src/HyperparameterTuning.py:77-80 | the grid point at an offset has `k >= 2` and a hidden size of the inner range |
| Tuning.GridIndexOfPoint | src/HyperparameterTuning.py:77-90 | the offset of the grid point at offset `j` is `j` |
| Tuning.GridPointOfIndex | src/HyperparameterTuning.py:77-90 | the entry for `(k, h)` sits at offset `(k-2)*4 + (h/8 - 1)` (k-major order) |
| Tuning.GridPointsInRange | src/HyperparameterTuning.py:77-80 | the offsets below `GridSize(n)` are exactly the grid points with `2 <= k <= n` |
| Tuning.Baseline | src/HyperparameterTuning.py:40 | `random_accuracy` has `len_cat - 1` entries (none for fewer than two categories) and entry `j` is `1/(j+2)` |
| Tuning.SubsetRuleMeans | src/HyperparameterTuning.py:83 | a grid point's subset has `k` categories, all from the list, and distinct when the list is |
| Tuning.ChooseDistinct | src/HyperparameterTuning.py:83 | `k` distinct in-range positions, and the subset is the categories at them |
| Tuning.MlpEntries | src/HyperparameterTuning.py:85-90 | what `l_mlp` gains: one `(mlp, lda)` entry per grid point trained |
| Tuning.TrainAccuracies | src/HyperparameterTuning.py:87-92 | what `train_accuracy` gains: one training accuracy per grid point trained |
| Tuning.ValidAccuracies | src/HyperparameterTuning.py:87-93 | what `valid_accuracy` gains: one validation accuracy per grid point trained |
| Tuning.Logged | src/HyperparameterTuning.py:77-93 | the log invariant: every draw follows the subset rule, every grid point trained, and the lists are their start plus `MlpEntries`, `TrainAccuracies` and `ValidAccuracies` |
| Tuning.LoggedLengths | src/HyperparameterTuning.py:90-93 | the three result lists each gain exactly one entry per grid point trained |
| Tuning.LoggedLockstep | src/HyperparameterTuning.py:85-93 | the entries at offset `j` are the configuration of `GridPoint(j)` and exactly what training returned for it |
| Tuning.LogStep | src/HyperparameterTuning.py:87-93 | one more trained grid point extends the log by one draw and one entry per list |
| Tuning.HyperparameterTuning.constructor | src/HyperparameterTuning.py:24-42 | empty result lists, `len_cat`, the baseline list and the layer bounds 8 and 32 |
| Tuning.HyperparameterTuning.GetRandomAccuracy | src/HyperparameterTuning.py:51-56 | a value exactly for a Python-valid index into the baseline list, and `1/k` at index `k - 2` |
| Tuning.HyperparameterTuning.TrainPoint | src/HyperparameterTuning.py:81-93 | the subset follows the subset rule; on success the three lists gain the grid point's entries, on failure nothing changes |
| Tuning.HyperparameterTuning.TrainRow | src/HyperparameterTuning.py:80-95 | the inner loop logs four grid points for `k`, or stops at the first whose training raises |
| Tuning.HyperparameterTuning.StartIterate | src/HyperparameterTuning.py:58-97 | the lists are the log of the grid points visited in order; success means all `(len_cat - 1) * 4` grid points; failure names the grid point where training raised |
| Testing.EmptyLists | src/GenerateTest.py:45-46 | keys are exactly the categories, every list empty |
| Testing.Unchecked | src/GenerateTest.py:47 | one `False` flag per category |
| Testing.IndexMap | src/GenerateTest.py:48 | keys are exactly the categories, and category `p` maps to `p` |
| Testing.Initial | src/GenerateTest.py:45-48 | `initDict`: the index keys are exactly the categories and both flag arrays have one entry per category |
| Testing.InitialInv | src/GenerateTest.py:39-48 | the initial dictionaries satisfy the invariant, all lists are empty, and nothing is covered unless there is no category |
| Testing.AddFail | src/GenerateTest.py:73-78 | the `fail` branch: appends to the category's `fail` list, sets its flag iff the list was non-empty before, and leaves the `found` entries and flags unchanged |
| Testing.AddFound | src/GenerateTest.py:80-84 | the `found` branch: appends to the category's `found` list, sets its flag iff the list was non-empty before, and leaves the `fail` entries and flags unchanged |
| Testing.Covered | src/GenerateTest.py:155 | the early-exit test: every entry of both coverage arrays is `True`; `CoveredMeans` proves what that means under the invariant |
| Testing.Step | src/GenerateTest.py:72-84 | the KeyError exactly for an unknown category; otherwise the dictionaries keep their shape and index |
| Testing.AddFailKeepsInv | src/GenerateTest.py:73-78 | the `fail` branch keeps the invariant |
| Testing.AddFoundKeepsInv | src/GenerateTest.py:80-84 | the `found` branch keeps the invariant |
| Testing.StepKeepsInv | src/GenerateTest.py:72-84 | every update for a known category succeeds and keeps the invariant: at most two entries per list, aligned labels, flag set iff two entries, expected and found labels equal the category |
| Testing.StepPreservesInv | src/GenerateTest.py:72-84 | any update that does not raise keeps the invariant |
| Testing.StepRouting | src/GenerateTest.py:72-84 | a wrong prediction goes to `fail` (with the prediction as `f_sup`) while it has fewer than two entries; otherwise to `found` while that has fewer than two; otherwise nothing changes |
| Testing.StepFrame | src/GenerateTest.py:72-84 | an update changes only the entries and flags of its own category, and never clears a flag |
| Testing.CoveredMeans | src/GenerateTest.py:155 | under the invariant, the early exit fires exactly when every category has two exemplars of each kind |
| Testing.FallThroughTrace | src/GenerateTest.py:73-84 | three wrong predictions for a fresh category: two go to `fail` and cover it, the third goes to `found` labelled with the true category |
| Testing.Predict | src/GenerateTest.py:163-164 | the predicted category: the classifier's prediction on the LDA projection of the feature |
| Testing.Round | src/GenerateTest.py:161-166 | a round keeps the dictionaries' shape and index |
| Testing.NextRound | src/GenerateTest.py:154-158 | a round after a raised exception raises; the skipped or played round keeps shape and index |
| Testing.Rounds | src/GenerateTest.py:154-166 | the rounds keep the dictionaries' shape and index |
| Testing.Interrupted | src/GenerateTest.py:154-166 | the dictionaries when the last of the rounds raises: after the earlier rounds, then before any update (no classifier) or after every update of that round but the raising one |
| Testing.RoundUntilRaise | src/GenerateTest.py:158-166 | the raising round: nothing changed without an `h`-th classifier or without a draw, otherwise `Round` over every draw but the last |
| Testing.InterruptedSnoc | src/GenerateTest.py:154-166 | after rounds ending in `t`, one more raising round leaves `RoundUntilRaise` of `t` |
| Testing.InterruptedWithoutClassifier | src/GenerateTest.py:158 | the IndexError of `l_mlp[h]` leaves the dictionaries as the earlier rounds left them |
| Testing.InterruptedInRound | src/GenerateTest.py:161-166 | a KeyError in a round leaves the dictionaries after that round's earlier updates |
| Testing.RoundPreservesInv | src/GenerateTest.py:161-166 | a round that does not raise keeps the invariant |
| Testing.RoundsPreserveInv | src/GenerateTest.py:154-166 | rounds that do not raise keep the invariant |
| Testing.RoundKeepsInv | src/GenerateTest.py:161-166 | a round over samples of known categories never raises and keeps the invariant |
| Testing.RoundsKeepInv | src/GenerateTest.py:154-166 | with enough classifiers, the rounds never raise and keep the invariant |
| Testing.GenerateTest.constructor | src/GenerateTest.py:21-37 | the dictionaries are `initDict`'s and the invariant holds |
| Testing.GenerateTest.InitDict | src/GenerateTest.py:39-48 | the dictionaries are `Initial(categories)` |
| Testing.GenerateTest.VerifySupposedCategorie | src/GenerateTest.py:57-84 | the new dictionaries are `Step` of the old ones; the KeyError changes nothing |
| Testing.GenerateTest.AllChecked | src/GenerateTest.py:155 | the early-exit test is `Covered` |
| Testing.GenerateTest.TestRound | src/GenerateTest.py:159-166 | `len_dl` draws in `[0, len_dl - 1]`, and the dictionaries become `Round` of those draws; on a KeyError they are `Round` of every draw before the raising one, and the invariant holds either way |
| Testing.GenerateTest.PlayRounds | src/GenerateTest.py:154-166 | at most `limit` rounds following `Rounds`; on success the rounds ran out or everything is covered; on an exception the dictionaries are exactly `Interrupted` of the draws |
| Testing.GenerateTest.StartTest | src/GenerateTest.py:130-166 | selects the validation section, uses `getMLPList()[select:]`, plays at most `max_layer // min_layer` rounds of `len_dl` draws each, with the dictionaries given by `Rounds`, or by `Interrupted` when a round raises; the loader stays valid |

## Left out

- `FeatureLoader` (per-image PCA) is not part of this model: the extractor is the function field `DataLoading.DataLoader.extract`.
- `TrainingModel.train` is an oracle (`Tuning.Trainer`). The model does not capture that it calls `convergeFeatures` and so leaves the store's current section at `"valid"`.
- Accuracies are reals handed back by the oracle. Float arithmetic, `np.stack` shapes, `reshape(1, 32)` and the projection and prediction values are uninterpreted.
- `imread` and `os.listdir` are function parameters, because they are filesystem I/O.
- `print` output and the tqdm progress bar are omitted: they have no effect on state.
- `generateImageTest` is omitted: it is matplotlib rendering to files.
- `main.py` and `CategoriesLoader` are omitted: they are glue and a text-file read. The category list is an input. `Testing.GenerateTest` requires it to be duplicate-free, since it comes from a line-delimited file of distinct names.
- `getMLPList`, `getHpt`, `getSection` and the other getters are plain field reads. The `l_mlp` list that `getMLPList` returns is aliased and appended to; it is modelled as the field `lMlp`, which is reassigned.
- Randomness is nondeterministic choice. The model keeps the range of `random.randint` and the distinctness of `np.random.choice`, not their distributions or seeds.
- Tuning.ChooseDistinct: requires `k <= len(categories)`. Grid points always satisfy this, so the ValueError `np.random.choice` raises for a larger `k` is not modelled.
- The fields differ from the source's in six places. `HyperparameterTuning` has no `dl` field: the loader is only passed to training, which is the oracle. `GenerateTest` holds the category list `categories` instead of the `CategoriesLoader` `cl`. The `FeatureLoader` field `fl` of `DataLoader` is its extraction function `extract`. `validation_p` of `MatrixLoader` is the module constant `ValidationP`. `MatrixLoader` gains `dataKeys`, the key order of `data`, and `DataLoader` gains `dataOrder`, the key order of `dataimg`, both standing for Python's dict ordering.
- The dictionary-valued entries of `d_endindex` and `data` are records (`EndIndex`, `CategorySplit`), because the source fixes their keys.
- The nested dictionaries of `GenerateTest` with fixed outer keys are one field per outer key, for the same reason.
