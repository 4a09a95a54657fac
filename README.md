# emomapp score-to-label pipeline, in Dafny

This project models the classification core of emomapp's web app
(`app.py`). A random-forest model predicts two scores for an uploaded photo.
The x score is a time axis and the y score is a valence axis. The core turns
the two scores into a named emotional region and a list of descriptive words:

- `custom_round` (module `Rounding`) first rounds the score to one decimal
  with `round(value, 1)` (app.py:36), then maps the rounded value to one of
  six ordinal buckets {-3, -2, -1, 1, 2, 3}. It uses an ordered cascade of
  half-open intervals with thresholds -2.5, -1.5, -0.1, 1.4 and 2.4. No
  interval yields 0. The model starts after the rounding step: its input is
  the rounded value.
- `classify_6region` (module `Regions`) maps a pair of buckets to one of nine
  region labels: a time prefix 未来 (future), 現在 (present) or 過去 (past),
  picked by x, followed by ポジティブ, ネガティブ or 中立, picked by the sign of y.
  Its fallback is 分類不能 (unclassifiable).
- `kansengo_dict` and `get_kansengo_for_6region` (module `Lexicon`) are a
  static table of 36 word lists keyed by bucket pairs, and a lookup. The
  lookup concatenates the entries of one region's x values × y values, with
  x as the outer loop and y as the inner loop, both ascending. It falls back
  to `["該当なし"]` when nothing was gathered.
- The chain in `diagnose` (module `Pipeline`) goes round → classify → lookup.
- The file-name filter in `uploads_list` (module `Uploads`) keeps the image
  names in the upload directory.

Modelling choices:

- The rounded score is a `Rounded` value: `Tenths(t)` stands for t / 10. The
  model also has the three non-finite floats that `round` passes through,
  `PosInf`, `NegInf` and `NaN`.
- Each of the source's float comparisons becomes `AtMost` or `Above` on
  tenths. For each threshold c, the tenths c and c+1 round to distinct
  doubles, and rounding to the nearest double is monotone. So comparing the
  rounded float with a threshold literal such as `-0.1` agrees with
  comparing t with -1.
- NaN fails every comparison. This is why the source's final `else: return 1`
  is modelled as reachable, and `FallbackOnlyForNaN` proves that NaN is the
  only value that reaches it.
- The region labels and the table's words are the source's own Japanese
  strings. The lookup takes any string, so the model covers unrecognised
  region names.
- The table is a `map` constant, and `Get` is `dict.get(key, [])`.
- The lookup is a method. Its nested loops (`ExtendOver` for x, with
  `ExtendRow` for y) extend a `seq` accumulator. The method is proved equal to the functional specification
  `Kansengo`, which is built from `Gather` and `Row`.

Two points where a reader might expect other behaviour:

- For rounded scores 2.6 and 1.8 the word list does not start with the
  (3, 1) entry. The loops run x = 2 before x = 3, so the list starts with the
  (2, 1) entry's 興味 (`FuturePositiveWords`).
- NaN input is not rejected. The code returns bucket 1 for NaN, and so does
  the model.

## Model

| member | source | states |
|---|---|---|
| `Rounding.AtMost` | app.py:37-42 | the test `rounded <= c` is the comparison of the decimal values t/10 and c/10 for a finite value; it is false for NaN, true for -inf and false for +inf |
| `Rounding.Above` | app.py:38-42 | the test `c < rounded` (written `rounded > c` in the last branch) holds exactly when the value is not NaN and `rounded <= c` fails |
| `Rounding.CustomRound` | app.py:35-43 | the result is always one of the six buckets {-3,-2,-1,1,2,3}, never 0, for finite, infinite and NaN rounded values |
| `Rounding.FallbackOnlyForNaN` | app.py:37-43 | the cascade itself returns 1 without its value lying in (-0.1, 1.4] exactly when the rounded value is NaN, so the final `return 1` is reached by NaN alone |
| `Rounding.RoundMonotone` | app.py:37-42 | the bucket is non-decreasing in the rounded value; -inf gets the lowest bucket and +inf the highest |
| `Rounding.RoundBoundaries` | app.py:37-42 | each threshold (-2.5, -1.5, -0.1, 1.4, 2.4) belongs to the bucket below it and one tenth above it to the next; 0 maps to 1 |
| `Rounding.RoundIsRank` | app.py:37-42 | an independent reading: the bucket of t/10 is the k-th of [-3,-2,-1,1,2,3], where k is the number of thresholds strictly below it |
| `Regions.Classify6Region` | app.py:45-53 | for all integers x, y the label is the time prefix of x (x≥2 future, -1≤x≤1 present, x≤-2 past) followed by the sign suffix of y (y>0 positive, y<0 negative, y=0 neutral), and never 分類不能 |
| `Regions.LabelNotUnclassifiable` | app.py:47-53 | none of the nine region labels equals the fallback 分類不能 |
| `Regions.LabelInjective` | app.py:47-51 | distinct (time, sign) pairs have distinct labels |
| `Lexicon.Get` | app.py:76 | `kansengo_dict.get((x, y), [])`: a pair in the table gives its entry, and any word returned comes from a pair in the table; over a complete table every pair of buckets gets three or four words, so the `[]` default never applies to them |
| `Lexicon.Scan` | app.py:73-96 | the if/elif chain selects, when it selects anything, the x values of one time and the y values of one non-neutral sign |
| `Lexicon.Kansengo` | app.py:71-97 | the functional specification that `GetKansengoFor6Region` is proved equal to: never empty, and `["該当なし"]` for every string the chain does not select |
| `Lexicon.EntryOf` | app.py:56-69 | every pair of bucket labels has an entry of three or four words |
| `Lexicon.TableComplete` | app.py:56-69 | the table constant `KansengoDict`, whose entries are the source's word lists as written, holds all 36 bucket pairs, each with three or four words |
| `Lexicon.ExtendOver` | app.py:74-76 | the nested loops leave the accumulator equal to the concatenation of the pairs' entries, x outer and y inner, missing pairs contributing nothing |
| `Lexicon.ExtendRow` | app.py:75-76 | the inner loop for one x value extends the accumulator by that x value's row: the entries of its pairs, y in order |
| `Lexicon.RowStep` | app.py:75-76 | one pass of the inner loop appends the entry of the next y value |
| `Lexicon.GatherStep` | app.py:74-76 | one pass of the outer loop appends the row of the next x value |
| `Lexicon.GetKansengoFor6Region` | app.py:71-97 | the method returns exactly the functional specification: the gathered words, or `["該当なし"]` when none were gathered |
| `Lexicon.RowOfThree` | app.py:75-76 | an inner loop over three y values yields their three entries in order |
| `Lexicon.GatherOfTwo` | app.py:74-76 | an outer loop over two x values yields their two rows in order |
| `Lexicon.SixEntries` | app.py:74-76 | two x values and three y values gather the six entries (x0,y0),(x0,y1),(x0,y2),(x1,y0),(x1,y1),(x1,y2), in that order and without deduplication |
| `Lexicon.PolarGather` | app.py:73-96 | over a complete table, a polar region gathers its six entries in loop order: 18 to 24 words, the first being the first word of its (x0, y0) entry |
| `Lexicon.ScanOfLabel` | app.py:73-96 | the six polar labels select their time's x values ({-3,-2}, {-1,1}, {2,3}) and their sign's y values ({1,2,3}, {-3,-2,-1}); neutral labels select nothing |
| `Lexicon.ScanRecognisesLabels` | app.py:73-96 | every string the lookup recognises is one of the six polar labels |
| `Lexicon.PolarWords` | app.py:73-97 | for each polar region the result is the words gathered over its x and y values, 18 to 24 of them, never the fallback |
| `Lexicon.FallbackExactly` | app.py:71-97 | the result is never empty, and it is `["該当なし"]` exactly when the region is not one of the six polar labels (neutral, unclassifiable or any other string) |
| `Lexicon.FuturePositiveWords` | app.py:89-92 | 未来ポジティブ yields the entries of (2,1),(2,2),(2,3),(3,1),(3,2),(3,3) in that order, 20 words, beginning with 興味 |
| `Lexicon.FuturePositiveEntries` | app.py:66-68 | the sizes of those six entries are 3, 3, 3, 3, 4, 4, and the (2,1) entry begins with 興味 |
| `Pipeline.BucketRegionIsPolar` | app.py:132-135 | when both labels are buckets the region is a polar label (never neutral, never 分類不能) and its word list has 18 to 24 words and is never `["該当なし"]` |
| `Pipeline.Diagnose` | app.py:132-135 | for every pair of rounded scores, NaN included, both labels are buckets, the region is the polar label of their time and sign, and the words are the region's gathered entries, never the fallback |
| `Pipeline.DiagnoseExample` | app.py:132-134 | rounded scores 2.6 and 1.8 give buckets 3 and 2 and the region 未来ポジティブ |
| `Uploads.ImageFiles` | app.py:156-160 | the result is no longer than the input and holds exactly the input names whose lower-cased form ends with one of the ten extensions |
| `Uploads.ImageFilesAppend` | app.py:156-160 | filtering a concatenation filters each part in order, so the result is the order-preserving sublist of the input |
| `Uploads.ImageFilesSingle` | app.py:156-160 | a single name is kept, unchanged and not lower-cased, exactly when it is an image name |
| `Uploads.ImageFilesIdempotent` | app.py:156-160 | filtering the filtered list changes nothing |
| `Uploads.Lower` | app.py:157 | lower-casing keeps the length, turns each letter A to Z into its own lower-case letter (by its position in the alphabet), leaves no upper-case ASCII letter and leaves every other character as it is |
| `Uploads.EndsWithAny` | app.py:157-159 | `endswith` on a tuple holds exactly when the name ends with one of its members |
| `Uploads.IsImageFile` | app.py:157-159 | a name passes the test exactly when its lower-cased form ends with one of the ten extensions |
| `Uploads.LowerIdempotent` | app.py:157 | lower-casing twice is lower-casing once |
| `Uploads.IsImageFileIgnoresCase` | app.py:157-159 | a name and its lower-cased form are both kept or both dropped |
| `Uploads.UpperCaseExtension` | app.py:157-159 | an upper-case extension such as `A.JPG` is recognised |
| `Uploads.ShortNamesDropped` | app.py:157-159 | a name shorter than four characters is never kept, because every extension is a dot followed by at least three letters |

## Left out

- The float step `round(value, 1)` (app.py:36) is not modelled, because it is Python's half-to-even rounding on binary floats. The model starts from the rounded value, given as whole tenths or as a non-finite float.
- FastAPI setup, routes, static mounts, Jinja2 rendering and `uvicorn.run` (app.py:1-25, 103-105, 138-147, 162-172) are left out. They are web plumbing.
- Loading the models and calling `predict` (app.py:28-29, 128-129) are left out. They are opaque calls into a random-forest library, so the two rounded predictions are the pipeline's inputs.
- Image handling (app.py:14, 117-125) is left out. It covers HEIF registration, opening, converting, saving and resizing, and the `/255.0` and `flatten` feature step. These are I/O and floating-point array work in external libraries.
- File-system access and naming (app.py:109-114, 153-154) are left out. They cover `os.makedirs`, `os.listdir`, `os.path.exists` and `uuid4`, which are I/O and randomness. The list of names is the filter's input.
- `Pipeline.Diagnose` does not return `pred_x`, `pred_y` or the saved image name. Those values only pass through to the page.
- Uploads.Lower: folds only the letters A to Z, while Python's `str.lower()` also folds other Unicode letters. Every extension is a dot followed by ASCII letters, and no other character lowercases to a string that ends in one of those letters. So the filter's verdict is the same. Only the intermediate lower-cased name can differ.
