# Unique code generator: a Dafny model

The program makes a batch of unique codes. It either generates them at random
or reads them from a file. It renders each code as an EAN-13 barcode or a QR
image, optionally with a logo pasted in the middle of the QR image. It then
writes `manifest.csv`, which gets one line `<code>.png,<code>` for every code
whose image was saved. This project models the logic around the third-party
calls and proves what that logic promises:

- **Generating codes** (`Generator`). `generate_codes` does rejection sampling
  into a set. The loop is imperative, and its invariants tie the set to the
  rounds of random draws seen so far. The result is exactly `count` distinct
  codes, each of length `length`, drawn from the chosen alphabet.
- **Cleaning the lines of a codes file** (`Text`). This is Python's `str.strip()`
  on every line, with blank lines dropped and order kept.
- **The EAN-13 payload** (`Padding`). This is Python's `str.zfill(12)`, including
  its rule that zeros go after a leading sign. For numeric codes it keeps the
  number the code denotes.
- **Logo placement** (`Geometry`). The logo is a square a quarter of the smaller
  image side, centred and wholly inside the image.
- **The encoding loop and the manifest** (`Images`). The loop is imperative. It
  uses a QR object that is built once and cleared for every code, and a
  manifest file that lines are appended to. A failure for one code is caught
  and leaves no manifest line, and the loop goes on. The method is proved to
  write exactly `Manifest(Step(lib, encoding, logoLoaded), codes)`. That
  function is a fold of per-code contributions, and `Step` is the per-code
  `try` block, `EncodeOne`. The manifest lemmas hold for any per-code step.
  They prove the manifest lists one line per successful code, in input order,
  and nothing else.

The random draws and the library calls are inputs. `random.choice` is an
oracle: `rounds[k]` holds the alphabet positions picked in round `k`. The
barcode, QR and imaging libraries form a `Library` value of functions. Each
says whether a call returned normally, and the QR renderer also gives the
size of the image it made. The logo-loading step (existence check and
`Image.open`) becomes the boolean `logoLoaded`.

Two facts about the code bear on the model:

- `generate_codes` never checks that `count` codes can exist for the
  alphabet and length, so it can loop forever. The model has no such check
  either (see `Generator.GenerateCodes` under Left out).
- The annotation of `generate_codes` says it returns `list[int]`, and its
  docstring gives a default length of 6. The code returns strings, and the
  default is 12. The model follows the code.

## Model

| member | source | states |
|---|---|---|
| `Text.TrimStartSpec` | generate.py:123 | dropping leading whitespace leaves a suffix of the line, removes only whitespace, and leaves no whitespace at the front |
| `Text.TrimEndSpec` | generate.py:123 | dropping trailing whitespace leaves a prefix of the line, removes only whitespace, and leaves no whitespace at the end |
| `Text.Strip` | generate.py:123 | `line.strip()` yields a stripped string (empty, or starting and ending with a non-whitespace character) no longer than the line |
| `Text.StripIsSlice` | generate.py:123 | the stripped line is a contiguous slice of the line with only whitespace before and after it |
| `Text.StripUnique` | generate.py:123 | any stripped slice with only whitespace around it is exactly what `strip()` returns, so strip removes the surrounding whitespace and nothing else |
| `Text.StripOfStripped` | generate.py:123 | stripping a string that is already stripped changes nothing |
| `Text.StripIdempotent` | generate.py:123 | stripping twice equals stripping once |
| `Text.StripEmptyIff` | generate.py:123 | a line strips to the empty string exactly when it is all whitespace, which is the `if line.strip()` filter |
| `Text.CleanLines` | generate.py:123 | the cleaned codes are no more than the lines, and each is non-empty and stripped |
| `Text.CleanLinesAppend` | generate.py:123 | cleaning two runs of lines equals cleaning each run and concatenating, so order is kept |
| `Text.CleanLinesKeeps` | generate.py:123 | every line that is not blank appears, stripped, among the codes |
| `Text.CleanLinesOrigin` | generate.py:123 | every code is the non-empty stripped form of some input line |
| `Text.CleanLinesMembers` | generate.py:123 | a string is a code exactly when it is non-empty and is the stripped form of an input line (both directions) |
| `Text.CleanLinesIdempotent` | generate.py:123 | cleaning already-cleaned codes changes nothing |
| `Text.CleanLinesDropsBlank` | generate.py:123 | for three stripped non-empty lines with a whitespace-only line between the second and the third, the blank line disappears and the others keep their order |
| `Text.CleanLinesExample` | generate.py:123 | `["123","456","   ","789"]` cleans to `["123","456","789"]` |
| `Padding.ZFill` | generate.py:183 | `zfill(width)` has length `max(width, len(s))` and returns a string at least `width` long unchanged |
| `Padding.ZFillUnsigned` | generate.py:183 | a shorter sign-free code becomes zeros followed by the code, so the code is a suffix of the result |
| `Padding.ZFillSigned` | generate.py:183 | a shorter code with a leading `+` or `-` keeps the sign first, then zeros, then the rest of the code |
| `Padding.ZerosPrefixValue` | generate.py:183 | leading zeros keep a digit string numeric and do not change the number it denotes |
| `Padding.ZFillKeepsValue` | generate.py:183 | padding a numeric code keeps it numeric and keeps its value |
| `Padding.EanPayload` | generate.py:183 | the EAN-13 payload is at least 12 characters long, and a code of 12 or more characters is passed on unchanged |
| `Padding.EanPayloadOfNumeric` | generate.py:183 | a numeric code of at most 12 digits becomes exactly 12 digits that end with the code and denote the same number |
| `Geometry.LogoSide` | generate.py:194-195 | `min(w, h) // 4` is the largest side that fits four times into both image dimensions |
| `Geometry.LogoPlacement` | generate.py:194-197 | the logo square at `((w - s) // 2, (h - s) // 2)` lies wholly inside the image, and its right (bottom) margin equals its left (top) margin or is one pixel larger |
| `Generator.SpanMembers` | generate.py:93-98 | a character is in a run of consecutive code points, such as `string.ascii_lowercase` or `string.digits`, exactly when its code point lies in that run's range |
| `Generator.Characters` | generate.py:93-98 | the alphabet has 62 characters with `alphnum` set and 10 without |
| `Generator.CharactersMembers` | generate.py:93-98 | a character is in the alphabet exactly when it is a digit, or also an ASCII letter when `alphnum` is set |
| `Generator.Candidate` | generate.py:103 | one round of `length` draws spells a string of that many characters, each taken from the alphabet |
| `Generator.Drawn` | generate.py:100-104 | the set after the given rounds has no more codes than there were rounds |
| `Generator.DrawnStep` | generate.py:102-104 | one more round only adds its candidate, so the set never shrinks; a candidate already present leaves the set unchanged, and a new one makes the set exactly one larger |
| `Generator.DrawnMonotone` | generate.py:102-104 | the set after an earlier round is contained in the set after any later round |
| `Generator.DrawnAreCodes` | generate.py:93-104 | every drawn code has length `length` and uses only characters of the chosen alphabet |
| `Generator.SetToList` | generate.py:107 | `list(codes)` holds each element of the set exactly once and nothing else |
| `Generator.CollectStep` | generate.py:102-104 | one turn of the loop adds round `k`'s candidate to the set, and a set that was below `count` stays within `count` |
| `Generator.RoundsLeft` | generate.py:100 | while the set is smaller than what all the rounds draw, a round is left to draw |
| `Generator.Collect` | generate.py:100-104 | the loop stops with exactly `count` codes (none when `count` is below one); they are the set drawn up to the round where it stops, and before that round the set was still smaller than `count` |
| `Generator.GenerateCodes` | generate.py:77-107 | the result has exactly `count` pairwise distinct codes, each of length `length` over the alphabet, and as a set they are the codes drawn when the set first reached `count` |
| `Images.ParseManifestLine` | generate.py:205 | a reader of the line format, splitting a line by length into file name, comma, code and newline: any line it accepts is exactly the manifest line of the code it found, with the file name `code + ".png"` |
| `Images.ParseManifestLineRoundTrip` | generate.py:178-205 | every written line reads back as its file name and code |
| `Images.ManifestLineInjective` | generate.py:205 | different codes give different manifest lines |
| `Images.EncodeOne` | generate.py:177-202 | a saved image is named `<code>.png`; a barcode carries `zfill(12)` of the code and is saved exactly when the barcode library call returns normally; a QR image holds only this code and carries the centred logo exactly when a logo was loaded, and it is saved exactly when rendering, pasting the logo (if one was loaded) and saving all return normally, and its size is the one the renderer returned; any other selector fails |
| `Images.LogoOnlyOnQr` | generate.py:185-198 | a saved image carries a logo exactly when the type is QR and a logo was loaded, and that logo lies inside the image |
| `Images.SucceededMembers` | generate.py:176-208 | a code is among the successful ones exactly when it is an input code whose encoding succeeded, and there are no more successful codes than codes |
| `Images.ManifestListsSucceeded` | generate.py:174-208 | the manifest is exactly the lines `<code>.png,<code>` of the successful codes, in input order |
| `Images.ManifestAppend` | generate.py:176-208 | the manifest for `a + b` is the manifest for `a` followed by the manifest for `b`, so a failure never affects later codes |
| `Images.ManifestLineIff` | generate.py:174-208 | a code's line is in the manifest exactly when the code is an input code whose encoding succeeded, so a failed code has no line |
| `Images.ManifestSize` | generate.py:174-208 | the manifest has at most one line per code, exactly one per code when all succeed, and fewer lines than codes when any code fails |
| `Images.ManifestUnsupported` | generate.py:201-202 | with an unsupported encoding selector every code fails and the manifest is empty |
| `Images.QrCode.constructor` | generate.py:166-172 | the QR object gets the given configuration and starts with no data |
| `Images.QrCode.Clear` | generate.py:187 | `qr.clear()` drops all data left from the previous code |
| `Images.QrCode.AddData` | generate.py:188 | `qr.add_data(code)` appends the code to the object's data |
| `Images.ManifestFile.Open` | generate.py:174 | opening the manifest with mode `"w"` starts an empty file |
| `Images.ManifestFile.Write` | generate.py:205 | a write appends exactly one line |
| `Images.TryEncode` | generate.py:177-202 | running the `try` block with the batch's QR object gives exactly the outcome `EncodeOne` describes, and leaves the QR object holding only the current code; with another encoding it leaves the QR object's data alone |
| `Images.GenerateEncodedImages` | generate.py:164-208 | the lines written to the manifest are exactly `Manifest` of the codes under the batch's `Step`, which the lemmas above characterise |

## Left out

- `parse_args` and `main` (generate.py:11-75, 212-230) are command-line parsing, logging setup and the final print. The choice between reading and generating codes (generate.py:224) is not modelled.
- Logging calls are not modelled.
- File and directory I/O is not modelled. This covers `open`/`readlines`, the `FileNotFoundError` fallback to an empty list, `os.path.exists`, `os.makedirs` and the bytes of the saved images. `CleanLines` takes the list of lines that `readlines()` would return.
- Loading the logo (generate.py:146-153) is summarised as the boolean `logoLoaded`. The path check, `Image.open` and its failure handling are I/O.
- `random.choice` is an oracle: a finite list of rounds of alphabet positions. Its distribution is not modelled.
- `Generator.GenerateCodes`: requires that the rounds hold at least `count` distinct candidates. The source has no such requirement. It just keeps drawing, and it never stops when `count` exceeds the number of possible codes (`|alphabet|^length`). The model does not capture that non-termination.
- `Generator.SetToList` picks the order of `list(codes)` nondeterministically. Python's hash-based set order is not modelled.
- The barcode, QR and imaging libraries are oracles in `Library`. This covers EAN-13 validation and its check digit, QR encoding, logo resizing and pasting, and image saving. Their pixel output is not modelled. Which payloads `EAN13` rejects is not visible in the program and is the oracle's decision.
- `Images.TryEncode`: every code is rendered from the batch's initial QR configuration (version 2). The QR object is reused for the whole batch, and `qr.make(fit=True)` (generate.py:189) can leave a larger version on it, which `qr.clear()` (generate.py:187) does not reset. So the model does not capture a later code being rendered larger, or its logo position moving, because an earlier code was long. Because the library calls are pure functions, a code that appears twice also always gets the same outcome both times. The program's second attempt could differ.
- The barcode file name that the barcode library finally writes is not modelled. The model uses the path the program passes in. The barcode library is not part of this model.
- `Images.EncodingType.Unsupported` stands for a selector outside the enumeration. The source logs `encoding_type.value` before the loop (generate.py:175), and the model assumes that logging call succeeds.
- `Images.ManifestFile.Write` always succeeds. A failing write would be caught like any other per-code error; that case is not modelled. Closing the file on exit is not modelled either.
- Concurrency: the program is sequential, and so is the model.
