# EAN-13 barcode generator, modelled in Dafny

This project models the PHP class `BarcodeEAN13`, which draws an EAN-13 barcode image. It covers four stages.

- **Input normalisation.** `prepareNumber` checks the raw number and left-pads it with zeros. `prepareScale` clamps the scale into [2, 12].
- **Check digit.** `checksum` computes the GS1 modulo-10 check digit (GS1 General Specifications, section 7.9). The constructor appends it to a 12-character number.
- **Encoding.** `_encode` translates the number into the fifteen bar patterns of the symbol. It uses the parity key and the tables `LEFT_PARITY`, `RIGHT_PARITY` and `GUARD`, which are the character sets A, B and C of ISO/IEC 15420.
- **Layout.** `_drawBars` and `_drawText` compute where the GD drawing calls would place rectangles and digits.

The model is split into six modules:

| file | module | content |
|---|---|---|
| `tables.dfy` | `Tables` | the static tables and their structure: set C complements set A, set B is set C reversed, set A has odd parity, sets B and C even parity, each table is injective |
| `checksum.dfy` | `Checksum` | `checksum` as a backward loop, proved against the GS1 weighted sum, plus the left-to-right form of the weights |
| `normalize.dfy` | `Normalize` | `prepareNumber` (its do-while loop, proved against a pure `Normalized`) and `prepareScale` |
| `encoder.dfy` | `Encoder` | `_encode` as a loop, proved against the predicate `IsEncoding`, plus the 95-module shape of the symbol and its injectivity |
| `layout.dfy` | `Layout` | `_drawBars` and `_drawText` as loops that return the rectangles and glyph placements the GD calls would receive, proved against pure descriptions |
| `barcode.dfy` | `Ean13` | the class as `Barcode`, with the fields the constructor sets, and `Create`, which returns the constructor's exceptions as a `Result` |

**Exact geometry.** All geometry is in exact reals. Since height = 60·scale and width = 1.8·height = 108·scale, every layout constant is an exact multiple of the scale:

| constant | value |
|---|---|
| MAX | 1.5·s |
| FLOOR | 49.5·s |
| guard extension | 9·s |
| first bar | 11·s |
| text start | 5.4·s |
| text baseline | 57.6·s |
| font size | 7·s |

**Behaviour of the code worth knowing.**
- `prepareNumber` pads a number of length L < 12 with 13 − L zeros: its `do { … } while ($needZeroLength--)` runs once more than the counter. The result has 13 characters, so the constructor computes no check digit for it. `Normalize.PrepareNumber` and `Normalize.Normalized` pad to 13; `Ean13.ShortInputNotCompleted` and `Ean13.ShortInputExample` spell out the consequence: "12" becomes "0000000000012", which is not a valid EAN-13.
- Only a string with no digit at all is rejected, so "12a4" is accepted and becomes "00000000012a4" (`Normalize.WeakDigitCheck`).
- The tables cannot encode a non-digit character. `Ean13.Create` stops with the error `NotAllDigits` for any prepared number that holds one. PHP goes on: a 12-character number such as "12345678901a" first reaches `checksum`, whose additions at BarcodeEAN13.php:80 and :83 meet the non-digit; a 13-character one, such as "00000000012a4", goes straight to `_encode`, which looks the character up in the tables at BarcodeEAN13.php:177 and :180.

## Model

| member | source | states |
|---|---|---|
| Tables.ParityKey | BarcodeEAN13.php:38-42 | the key of a leading digit is `PARITY_KEY[d]`: six bits whose first bit is always 0 (odd) |
| Tables.LeftPattern | BarcodeEAN13.php:44-57 | a left-hand pattern of `LEFT_PARITY`: seven bits starting with 0 and ending with 1 |
| Tables.RightPattern | BarcodeEAN13.php:59-63 | a right-hand pattern of `RIGHT_PARITY`: seven bits starting with 1 and ending with 0 |
| Tables.RightIsComplementOfOdd | BarcodeEAN13.php:44-63 | every `RIGHT_PARITY` entry is the module-wise complement of the odd `LEFT_PARITY` entry for the same digit |
| Tables.EvenIsReversedRight | BarcodeEAN13.php:44-63 | every even `LEFT_PARITY` entry is the `RIGHT_PARITY` entry for its digit read backwards |
| Tables.OddSetParity | BarcodeEAN13.php:46-50 | every odd-encoding pattern has an odd number of dark modules |
| Tables.EvenSetParity | BarcodeEAN13.php:52-56 | every even-encoding pattern has an even number of dark modules |
| Tables.RightSetParity | BarcodeEAN13.php:59-63 | every right-hand pattern has an even number of dark modules |
| Tables.LeftPatternInjective | BarcodeEAN13.php:44-57 | a left-hand pattern determines both its parity and its digit |
| Tables.RightPatternInjective | BarcodeEAN13.php:59-63 | a right-hand pattern determines its digit |
| Tables.ParityKeyInjective | BarcodeEAN13.php:38-42 | different leading digits have different parity keys |
| Checksum.CheckDigit | BarcodeEAN13.php:87 | the check digit lies in 0..9 and brings the GS1 weighted sum to a multiple of 10 |
| Checksum.ComputeChecksum | BarcodeEAN13.php:73-88 | the backward walk with the toggling even flag returns exactly the GS1 check digit of its input |
| Checksum.WeightsAgree | BarcodeEAN13.php:73-88 | for twelve digits, weights 3, 1, … counted from the right equal weights 1, 3, … counted from the left (3 at odd 0-based positions) |
| Checksum.TwelveDigitCheck | BarcodeEAN13.php:73-88 | for twelve digits, c makes Σ w_i·d_i + c a multiple of 10 (w_i = 3 at odd 0-based i, 1 at even i) exactly when c is the check digit |
| Checksum.ValidIffCheckDigit | BarcodeEAN13.php:73-88 | a 13-digit code satisfies the GS1 check equation exactly when its last digit is the check digit of the first twelve |
| Checksum.AppendCheckDigitValid | BarcodeEAN13.php:148-150 | appending the check digit to twelve digits gives a valid EAN-13 |
| Normalize.PrepareNumber | BarcodeEAN13.php:94-113 | the length test, the one-digit test and the do-while padding loop return or throw exactly what `Normalized` says |
| Normalize.NormalizedRejects | BarcodeEAN13.php:97-103 | throws exactly when the input is longer than 13 or has no digit; the length exception comes first |
| Normalize.WeakDigitCheck | BarcodeEAN13.php:101-103 | "12a4" is not rejected; it comes back padded with nine zeros |
| Normalize.NormalizedShape | BarcodeEAN13.php:105-110 | 12- and 13-character inputs come back unchanged; a shorter input of length L gets 13 − L leading zeros and has 13 characters |
| Normalize.NormalizedIdempotent | BarcodeEAN13.php:94-113 | preparing an already prepared number changes nothing |
| Normalize.PrepareScale | BarcodeEAN13.php:119-129 | the scale lies in [2, 12], is kept on [2, 12], becomes 2 below and 12 above |
| Normalize.PrepareScaleNearest | BarcodeEAN13.php:119-129 | the clamped scale is the admissible scale nearest to the requested one |
| Normalize.PrepareScaleIdempotent | BarcodeEAN13.php:119-129 | clamping twice is clamping once |
| Encoder.Encode | BarcodeEAN13.php:171-188 | fifteen patterns: start guard, `LEFT_PARITY[key[i-1]][d_i]` for i in 1..6, middle guard, `RIGHT_PARITY[d_i]` for i in 7..12, end guard |
| Encoder.EncodingSplit | BarcodeEAN13.php:171-188 | the module string is start guard, 42 left-hand modules, middle guard, 42 right-hand modules, end guard |
| Encoder.EncodingModules | BarcodeEAN13.php:171-188 | an encoded number has 95 modules, "101" at both ends and "01010" at modules 45 to 49 |
| Encoder.LeadingZeroAllOdd | BarcodeEAN13.php:176-178 | a leading 0 gives key "000000", so all six left digits use the odd encoding |
| Encoder.EncodingInjective | BarcodeEAN13.php:171-188 | the patterns, under the key of the leading digit, determine all thirteen digits |
| Layout.DrawBars | BarcodeEAN13.php:221-241 | the cursor loop over all patterns emits exactly the bars of the dark modules, in module order |
| Layout.DrawPattern | BarcodeEAN13.php:234-239 | the inner loop over one pattern emits one bar per '1' at the cursor's module and moves the cursor one module per bit |
| Layout.BarRectsCount | BarcodeEAN13.php:234-239 | the number of rectangles equals the number of '1' modules |
| Layout.BarRectsMembers | BarcodeEAN13.php:234-239 | a rectangle is emitted exactly for each dark module k, as that module's bar |
| Layout.TallModulesOfEncoding | BarcodeEAN13.php:230-233 | of an encoded number exactly modules 0-2, 45-49 and 92-94, the guards, are drawn tall |
| Layout.ModuleRectBounds | BarcodeEAN13.php:224-238 | module k's bar spans x = (11 + k)·s to that plus s, inside [11·s, 106·s], and y from 1.5·s to 49.5·s or 58.5·s |
| Layout.EncodedBarsInCanvas | BarcodeEAN13.php:221-241 | every bar of an encoded number is a dark module's bar inside [11·s, 106·s] × [1.5·s, 60·s], so inside the 108·s × 60·s canvas |
| Layout.EncodedTallBars | BarcodeEAN13.php:230-236 | a dark module's bar reaches below FLOOR exactly when the module belongs to a guard |
| Layout.DrawText | BarcodeEAN13.php:257-272 | the kerning loop places digit i at `TextX(i)`, on the 0.96·height baseline, with font size 7·scale |
| Layout.TextStep | BarcodeEAN13.php:267-270 | the next digit is 10.5·scale further after digits 0 and 6, 7·scale otherwise |
| Layout.TextOrdered | BarcodeEAN13.php:264-271 | placements run strictly left to right |
| Layout.TextLayout | BarcodeEAN13.php:257-272 | thirteen placements of the number's digits, starting at 0.05·width, steps as TextStep, strictly increasing, the last ending inside the canvas |
| Ean13.Completed | BarcodeEAN13.php:148-150 | the number the constructor keeps has 13 digits; it extends the prepared number, and a 12-digit one gets the check digit |
| Ean13.Barcode.constructor | BarcodeEAN13.php:138-155 | sets number, scale and key, appends the check digit, then encodes, sizes and draws a canvas that holds exactly the encoded bars and the digit placements |
| Ean13.Barcode.CreateImage | BarcodeEAN13.php:195-201 | height 60·scale, width 1.8·height, an empty image |
| Ean13.Barcode.DrawBars | BarcodeEAN13.php:221-241 | adds the bars of the encoded modules to the image and changes nothing else |
| Ean13.Barcode.DrawText | BarcodeEAN13.php:257-272 | adds the digit placements to the image and changes nothing else |
| Ean13.Create | BarcodeEAN13.php:138-155 | throws what `prepareNumber` throws, stops on a non-digit character, and otherwise builds a barcode whose number is the completed prepared number |
| Ean13.TwelveDigitsCompleted | BarcodeEAN13.php:148-150 | a 12-digit input is kept and completed into a valid EAN-13 |
| Ean13.ShortInputNotCompleted | BarcodeEAN13.php:105-110 | a shorter all-digit input is padded to 13 characters, so no check digit is computed: the last digit is the input's own |
| Ean13.ShortInputExample | BarcodeEAN13.php:105-110 | "12" becomes "0000000000012", which is not a valid EAN-13 |
| Ean13.SuppliedCheckDigitKept | BarcodeEAN13.php:148-150 | a supplied thirteenth digit is kept without being checked |
| Ean13.InvalidCheckDigitAccepted | BarcodeEAN13.php:148-150 | so the invalid code "0000000000001" is accepted unchanged |

## Left out

- GD calls (`imagecreate`, `imagecolorallocate`, `imagecolorallocatealpha`, `imagefilledrectangle`, `imagettftext`, `imagedestroy`) are foreign calls. The model records only the coordinates, sizes and characters passed to them, as `Rect` and `Glyph` lists on a `Canvas` value.
- `display` is left out. It sends HTTP headers, checks that a directory exists and writes a PNG file, all of which is I/O.
- `image()` is left out. It only returns a reference to the image.
- The `alpha` field and the font path are left out. They are passed straight to GD and have no logic of their own.
- `__destruct` is left out. It only frees the GD image.
- `index.php` is not part of this model. It is demo glue with HTML output and random numbers.
- `Normalize.PrepareScale` takes an integer. It does not model `intval` of a string or a float.
- Geometry uses exact reals. It does not model IEEE double rounding.
- The image size is the exact width 1.8·height. It does not model GD's truncation of a float width to an integer.
- The model uses characters for PHP's byte strings, and `Digit` for PHP's string-to-number conversion of one digit character.
- `Checksum.ComputeChecksum` requires an all-digit string. The model does not capture PHP's arithmetic on non-digit characters.
- `Encoder.Encode` requires 13 digits and a six-bit key. After completion the constructor passes on 13 characters, but they may include non-digits ("00000000012a4"); PHP's table lookup with such a character is not modelled, and `Ean13.Create` stops with `NotAllDigits` before encoding.
- `Ean13.Create`: for a 12-character prepared number with a non-digit, PHP's `checksum` arithmetic on that character (a warning or an error, depending on the PHP version) is not modelled; the model stops with `NotAllDigits` before `checksum`.
