# Coconut-leaf diagnosis: label resolution

This project models the decision logic of the `/predict` handler of a small
coconut-leaf disease classifier service. The handler feeds an uploaded image
to a frozen classifier and receives one row of nine class scores. From that
row it:

- chooses the index of the largest score, with ties going to the earliest
  index (`np.argmax` semantics);
- looks that index up in a fixed nine-entry label table;
- shows the three wilt classes (`WCLWD_DryingofLeaflets`, `WCLWD_Flaccidity`,
  `WCLWD_Yellowing`) as the single label `coconut wilt`;
- reports the chosen score as the confidence and `"/uploads/" + filename` as
  the image URL.

Modules:

- `Results` (`results.dfy`): `Option` and `Result` types.
- `Scores` (`scores.dfy`): `ArgMax`, the first-maximum predicate `IsFirstMax`
  and the left-to-right scan `ScanArgMax`.
- `Labels` (`labels.dfy`): the label table, the wilt group, the set of
  display labels and the `Display` fold.
- `UploadUrl` (`upload_url.dfy`): `ImageUrl` and its inverse `UploadedName`.
- `Resolver` (`resolver.dfy`): `Resolve` for one score row, `Predict` for the
  response body, and the concrete scenarios.

Scores are `real`. Only their order decides the index, and the confidence is
the chosen score itself. The error cases follow the code rather than a
"nine entries exactly" rule:

- an empty row fails as `np.argmax` does (`EmptyScores`);
- a row whose maximum lies past index 8 fails at the table lookup
  (`LabelIndexOutOfRange`);
- a shorter non-empty row resolves normally, since the handler never checks
  the row's length.

A row of exactly nine scores always resolves.

## Model

| member | source | states |
|---|---|---|
| `Scores.ArgMax` | app.py:77 | The chosen index lies inside the row, its score is at least every score in the row, and every earlier score is strictly smaller (first occurrence on ties). |
| `Scores.FirstMaxUnique` | app.py:77 | A row has at most one first maximum, so the first-occurrence rule picks a single index. |
| `Scores.ArgMaxCharacterized` | app.py:77 | For any non-empty row, an index is a first maximum exactly when it is the index `ArgMax` returns. |
| `Scores.UniqueMaxChosen` | app.py:77 | A score strictly larger than all others is chosen, wherever it sits. |
| `Scores.ScanArgMax` | app.py:77 | The left-to-right scan that replaces the best index only on a strictly larger score ends on the first maximum, the same index `ArgMax` gives. |
| `Labels.Display` | app.py:82-83 | A raw name is shown unchanged exactly when it is not a wilt class. A wilt class is shown as `coconut wilt`. The shown label is never a wilt class name. |
| `Labels.TableDistinct` | app.py:27-37 | The label table has nine entries and no name appears twice. |
| `Labels.WiltByIndex` | app.py:27-37 | A table entry is in the wilt group exactly when its index is 0, 1 or 2. |
| `Labels.DisplayOfEntry` | app.py:79-83 | Entries 0..2 are shown as `coconut wilt`. Entries 3..8 are shown as their own table name. Every shown label is one of the seven display labels and never a wilt class. |
| `Labels.DisplayLabelsReached` | app.py:27-37 | Each of the seven display labels is shown for some table entry, so the set of display labels is exactly the set of possible outputs. |
| `Labels.DisplayIdempotent` | app.py:82-83 | Applying the wilt fold to a label that is already shown changes nothing. |
| `UploadUrl.ImageUrl` | app.py:86 | The image URL is `/uploads/` followed by the client filename, character for character, with nothing removed or escaped. |
| `UploadUrl.UploadedName` | app.py:86 | Stripping `/uploads/` inverts `ImageUrl`. It succeeds exactly on URLs carrying that prefix, and the name it returns rebuilds the same URL. |
| `UploadUrl.NameRoundTrip` | app.py:86 | Every filename is recovered unchanged from its image URL. |
| `UploadUrl.ImageUrlInjective` | app.py:86 | Two different filenames never produce the same image URL. |
| `Resolver.Resolve` | app.py:77-83 | An empty row fails, and a nine-score row always succeeds. On success, the reported index is the first maximum of the row and lies inside the table. The confidence is the score at that index. The label is `coconut wilt` exactly when the index is 0..2, and otherwise the table name at that index. A lookup failure names a first-maximum index past the end of the table. |
| `Resolver.ResolvedWithinRange` | app.py:77-83 | A resolved confidence is at least every score in the row. A resolved label is one of the seven display labels and never a wilt class name. |
| `Resolver.ResolveAtFirstMax` | app.py:77-83 | For a nine-score row, resolution succeeds. An index is a first maximum exactly when it is the index resolution reports. That entry is reported with its shown name and its own score. |
| `Resolver.UniqueMaxResolves` | app.py:77-83 | A strict maximum at index `i` is the index reported, and its confidence is `scores[i]`. The label is `coconut wilt` for `i` in 0..2 and the table name at `i` otherwise. |
| `Resolver.Predict` | app.py:77-91 | The response succeeds exactly when resolution succeeds, and fails with the same error otherwise. It carries the resolved label and confidence, and an image URL from which the uploaded filename is recovered unchanged. |
| `Resolver.WiltScenario` | app.py:77-91 | A row led by 0.9 at index 0 gives `coconut wilt`, confidence 0.9, and URL `/uploads/leaf.jpg`. |
| `Resolver.HealthyScenario` | app.py:77-91 | A row led by 0.9 at index 6 gives `healthy_leaves` unchanged, with confidence 0.9. |
| `Resolver.TieGoesToFirst` | app.py:77-83 | A row of nine equal scores resolves to index 0, so the label is `coconut wilt`. |

## Left out

- HTTP routing, CORS, the `/ping` probe, the missing-`file` check (`400 No file uploaded`) and serving stored uploads are web-framework plumbing.
- Creating the upload directory and writing the upload to disk are file-system I/O. The unsanitised filename also allows path traversal and silent overwrites. That is a security property of the storage layer, and `ImageUrl` only records that the name is passed through unchanged.
- Loading the classifier and running inference are opaque foreign calls. The model takes their output row as a parameter. Sharing one interpreter between concurrent requests is not modelled.
- Image decoding, the RGB conversion, the 224×224 resize and the scaling by 255 rely on library internals and floating-point arithmetic.
- `Resolver.Predict`: it returns the unrounded score. The response's `round(confidence, 4)` is IEEE floating-point rounding and is not modelled.
- `Scores.ArgMax`: scores are reals, so NaN is not modelled. `np.argmax` treats the first NaN as the maximum.
