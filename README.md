# pacbio_err: PHRED decoding and mean sequencing error, in Dafny

`pacbio_err.py` estimates the average sequencing error of a PacBio FASTQ
file. Each read's quality line is decoded character by character through a
fixed PHRED table. The table uses the Sanger / Phred+33 encoding: character
code 33 + q stands for quality q, with error probability 10^(-q/10). Its
entries are that probability rounded to five decimals, with one exception:
`6` (quality 21) is 0.00784, where the rounded value is 0.00794. From `K`
on the entries are clamped at 0.00006. The probabilities of a line are
averaged into the per-read mean, and the per-read means are averaged into
the grand mean.

The model is pure, as the source is: datatypes, functions and lemmas.

- `phred.dfy` (module `Phred`): the 58-entry table, as a `match` on the
  character (`Prob`) and as the finite map `Table` the source's dictionary
  is. Covers its domain, its size, the (0, 1] range, the fact that entries
  never increase, the clamped tail, the exact powers of ten, and the entry
  for `6` that departs from the formula.
- `averages.dfy` (module `Averages`): exact sums and means over `real`, in
  place of `numpy.mean` on a non-empty list. Covers bounds, the mean of
  constant and singleton sequences, and invariance under permutation.
- `pacbio_err.dfy` (module `PacbioErr`): `convert_phred`,
  `mean_err_per_read` (with `islice(lines, 3, None, 4)`), the `.gz` test and
  the grand-mean step of `read_fastq`.
  - Exceptions are values of `Result`:
    - `EmptyQualityString`: `phred_string[-1]` on `""` raises `IndexError`.
    - `UnknownSymbol(c, i)`: the `KeyError` of the first character outside
      the table, at its position `i`.
  - A mean is an `Estimate`: a number `Num(x)` or `NaN`. numpy's mean of an
    empty list is NaN; it does not raise. So the line `"\n"` gives NaN, and
    a file without a complete record gives a NaN grand mean. A NaN per-read
    mean makes the grand mean NaN, but it does not stop the pass: a later
    read that raises still raises.
- `scenarios.dfy` (module `PacbioErrScenarios`): whole-file scenarios on
  small inputs, proved as lemmas.

The file itself is a parameter: `ReadFastq(path, lines)` receives the lines
that iterating over the opened file yields. Each line keeps its trailing
newline, except possibly the last. `ReadFastq` reports which opener the path
selects (`GzipOpen` or `PlainOpen`) and the grand mean or the error.

- The `.gz` test compares the last three characters, `fastq[-3:]`, and is
  case-sensitive. With Python's slice semantics a path shorter than three
  characters is compared whole, so it is never gzipped.
- An empty quality string fails on indexing, before any lookup.

## Model

| member | source | states |
|---|---|---|
| `Phred.Prob` | pacbio_err.py:52-63 | each of the 58 characters `!`..`Z` has its table value, and every value lies in (0, 1] |
| `Phred.TableDomain` | pacbio_err.py:52-63 | the table's keys are exactly the characters with codes 33 through 90, and each maps to its `Prob` value |
| `Phred.KnownBelowSize` | pacbio_err.py:52-63 | the first n codes of the table are n distinct characters (induction on n) |
| `Phred.TableSize` | pacbio_err.py:52-63 | the table has exactly 58 entries |
| `Phred.ProbStepDown` | pacbio_err.py:52-63 | the next character code never has a larger probability |
| `Phred.ProbNonIncreasing` | pacbio_err.py:52-63 | for known c <= d, Prob(d) <= Prob(c): probabilities never increase with the code |
| `Phred.ClampedTail` | pacbio_err.py:60-63 | every character from `K` to `Z` maps to 0.00006 |
| `Phred.DecadeAnchors` | pacbio_err.py:52-60 | `!`, `+`, `5`, `?` and `I` (quality 0, 10, 20, 30, 40) map to exactly 1, 0.1, 0.01, 0.001 and 0.0001 |
| `Phred.Quality` | pacbio_err.py:52-63 | a known character stands for a quality of at most 57, and code 33 + quality gives the character back |
| `Phred.QualityTwentyOneFormula` | pacbio_err.py:56 | 10^(-2.1), the probability of quality 21, rounds to 0.00794 at five decimals: 10^0.9 lies in [7.935, 7.945) |
| `Phred.SixOffFormula` | pacbio_err.py:56 | `6` stands for quality 21, yet its entry 0.00784 lies more than half a unit of the fifth decimal below 10^(-2.1) |
| `Averages.Mean` | pacbio_err.py:70 | the mean of a non-empty list lies between its smallest and its largest element |
| `Averages.QuotientBounds` | pacbio_err.py:70 | a total in [n*lo, n*hi] divided by a positive count n lies in [lo, hi] |
| `Averages.Min` | pacbio_err.py:70 | the smallest element occurs in the sequence and bounds every element from below |
| `Averages.Max` | pacbio_err.py:70 | the largest element occurs in the sequence and bounds every element from above |
| `Averages.SumAppend` | pacbio_err.py:70 | the sum of a concatenation is the sum of the parts |
| `Averages.SumRemove` | pacbio_err.py:96 | removing element i removes exactly its value from the sum |
| `Averages.MultisetRemove` | pacbio_err.py:96 | taking element i out of a sequence takes one copy of it out of the multiset |
| `Averages.MultisetCancel` | pacbio_err.py:96 | multisets that are equal after adding the same element were equal before |
| `Averages.MultisetRemoveFirst` | pacbio_err.py:96 | a non-empty sequence's multiset is that of its tail plus its first element |
| `Averages.SumPermutation` | pacbio_err.py:96 | sequences with equal multisets have equal sums |
| `Averages.SumBounds` | pacbio_err.py:70 | elements in [lo, hi] give a sum in [n*lo, n*hi] |
| `Averages.SumAbove` | pacbio_err.py:70 | elements above lo give a sum above n*lo |
| `Averages.MeanBounds` | pacbio_err.py:70 | the mean stays within any bounds of the elements |
| `Averages.MeanAbove` | pacbio_err.py:70 | the mean stays above any strict lower bound of the elements |
| `Averages.MeanInUnitInterval` | pacbio_err.py:96 | elements in (0, 1] have a mean in (0, 1] |
| `Averages.MeanConstant` | pacbio_err.py:70 | copies of one value average to that value |
| `Averages.MeanSingleton` | pacbio_err.py:96 | a single value is its own mean |
| `Averages.MeanPermutation` | pacbio_err.py:96 | reordering the elements keeps the length and the mean |
| `PacbioErr.Repeat` | pacbio_err.py:70 | n copies of one character: length n, every position holds that character |
| `PacbioErr.Probabilities` | pacbio_err.py:70 | the lookups succeed exactly when every character is in the table, and then give each character's table value in order; otherwise the error names the first unknown character and its position |
| `PacbioErr.QualityPart` | pacbio_err.py:69-72 | the looked-up part is the line minus exactly one trailing newline, or the whole line when it does not end in one |
| `PacbioErr.TableSum` | pacbio_err.py:52-63 | the character-by-character total of table values, a reference for the decoded mean, lies in [0.00006 * n, n] for n characters |
| `PacbioErr.LookupMean` | pacbio_err.py:70 | `np.mean([PHRED[s] for s in body])`: a value exactly when every character is known; NaN exactly when the body is empty; otherwise TableSum over the length, in [0.00006, 1]; a failure names the first unknown character |
| `PacbioErr.ConvertPhred` | pacbio_err.py:65-72 | `""` fails with EmptyQualityString, and only it does; `"\n"` gives NaN, and only it does; success holds exactly when every character other than one trailing newline is in the table; a number is the sum of those characters' table values divided by their count, and lies in [0.00006, 1]; any other failure names the first unknown character |
| `PacbioErr.DecodedMean` | pacbio_err.py:70 | the mean of a non-empty known string's lookups is its TableSum over its length, in [0.00006, 1] |
| `PacbioErr.ProbabilitiesSumFrom` | pacbio_err.py:70 | the decoded probabilities of a known string sum to its character-by-character table sum (induction) |
| `PacbioErr.ProbabilitiesSum` | pacbio_err.py:70 | the same for the whole string |
| `PacbioErr.ProbabilitiesRange` | pacbio_err.py:52-63 | every decoded probability lies in [0.00006, 1] |
| `PacbioErr.ConvertPhredBetween` | pacbio_err.py:70-72 | a decoded mean lies between the table values of two of the line's own characters, the smallest and the largest |
| `PacbioErr.ConvertPhredUniform` | pacbio_err.py:69-72 | n >= 1 copies of a known character, with or without a trailing newline, decode to exactly that character's value; the single character is the case n = 1 |
| `PacbioErr.ConvertPhredNewline` | pacbio_err.py:69-72 | adding one trailing newline to a non-empty line that does not end in one leaves the result unchanged |
| `PacbioErr.ConvertPhredStripsOnlyOne` | pacbio_err.py:69-70 | an unknown character, such as a second newline or a carriage return, before the final newline fails at its own position |
| `PacbioErr.ProbabilitiesAppendUnknown` | pacbio_err.py:70 | a known string followed by an unknown character fails at that character, at position \|s\| (induction) |
| `PacbioErr.QualityLines` | pacbio_err.py:80 | the slice has exactly floor(n / 4) lines |
| `PacbioErr.QualityLineOfRecord` | pacbio_err.py:80 | slice element k is input line 4k + 3 (induction) |
| `PacbioErr.QualityLineAt` | pacbio_err.py:80 | every line at a position that is 3 modulo 4 is in the slice |
| `PacbioErr.QualityLinesReadOnlySelected` | pacbio_err.py:80 | inputs of equal length that agree at the positions that are 3 modulo 4 give the same slice |
| `PacbioErr.RecordPosition` | pacbio_err.py:80 | line 4k + 3 is 3 modulo 4 and belongs to record k |
| `PacbioErr.RecordCount` | pacbio_err.py:80 | n lines hold no complete record exactly when n < 4 |
| `PacbioErr.EarlierRecord` | pacbio_err.py:80 | a quality line before that of record k belongs to an earlier record |
| `PacbioErr.MapResults` | pacbio_err.py:80 | applying a fallible step to each element in order succeeds exactly when every element succeeds, then gives those results in order; otherwise it fails with the first failing element's error |
| `PacbioErr.MapQualityLinesOk` | pacbio_err.py:80 | decoding the slice succeeds exactly when every line at a position that is 3 modulo 4 decodes, and line i then gives result i / 4 |
| `PacbioErr.EarlierQualityLines` | pacbio_err.py:80 | the slice elements before record k are the lines at positions 3 modulo 4 before line 4k + 3 |
| `PacbioErr.MapQualityLinesErr` | pacbio_err.py:80 | a failure is the failure of the first line, at a position that is 3 modulo 4, that does not decode |
| `PacbioErr.MeanErrPerRead` | pacbio_err.py:74-81 | success holds exactly when every line at a position that is 3 modulo 4 decodes, a blank read included; it then gives floor(n / 4) means, with line i giving mean i / 4; otherwise the error is that of the first line that fails |
| `PacbioErr.MeanErrPerReadIgnoresOtherLines` | pacbio_err.py:80 | the lines at other positions are never inspected |
| `PacbioErr.MeanErrPerReadRange` | pacbio_err.py:74-81 | every per-read mean that is a number lies in [0.00006, 1] |
| `PacbioErr.MeanErrPerReadNaN` | pacbio_err.py:69-81 | some per-read mean is NaN exactly when some quality line is the blank line `"\n"` |
| `PacbioErr.PyTail` | pacbio_err.py:90 | Python's `s[-n:]` is the last n characters, or the whole string when it is shorter, and it is a suffix of s |
| `PacbioErr.IsGzipped` | pacbio_err.py:90-91 | a path is gzipped exactly when it has at least 3 characters and its last three are `.gz` |
| `PacbioErr.GzipDetection` | pacbio_err.py:90-91 | a path is gzipped exactly when it is some stem followed by `.gz` |
| `PacbioErr.Numbers` | pacbio_err.py:96 | estimates without NaN are the numbers they wrap, one for one, in order |
| `PacbioErr.GrandMean` | pacbio_err.py:96 | the grand mean is NaN exactly when there are no means or one of them is NaN; otherwise it lies between the smallest and the largest per-read mean |
| `PacbioErr.NumbersPermutation` | pacbio_err.py:96 | rearranging estimates without NaN rearranges their numbers |
| `PacbioErr.GrandMeanPermutation` | pacbio_err.py:96 | reordering the per-read means does not change the grand mean, NaN or not |
| `PacbioErr.GrandMeanSingleton` | pacbio_err.py:96 | a single read's grand mean is its own mean |
| `PacbioErr.GrandMeanInUnitInterval` | pacbio_err.py:96 | per-read means in (0, 1] give a grand mean in (0, 1] |
| `PacbioErr.ReadFastq` | pacbio_err.py:83-102 | the opener is gzip exactly when the path passes the `.gz` test; a grand mean exists exactly when every read decodes, and a decoding error propagates unchanged; it is NaN exactly when there is no complete record or a blank read; otherwise it is the mean of the per-read means, in [0.00006, 1] |
| `PacbioErr.GrandMeanOfReads` | pacbio_err.py:96-100 | over decoded reads, the grand mean is NaN exactly when there is no complete record or a blank read, and otherwise lies in [0.00006, 1] |
| `PacbioErr.ReadFastqOfMeans` | pacbio_err.py:93-102 | when every read decodes, the result is np.mean of the per-read means, whatever the path |
| `PacbioErr.MapResultsTail` | pacbio_err.py:80 | a successful map's results after the first are the results of the rest |
| `PacbioErr.RemoveAt` | pacbio_err.py:80 | element k of a sequence with element i left out is element k, or k + 1 from i on |
| `PacbioErr.MapResultsRemove` | pacbio_err.py:80 | leaving one element out of a successful map leaves exactly its result out |
| `PacbioErr.MapResultsOkPermutation` | pacbio_err.py:80 | rearranging elements that all succeed leaves them all succeeding |
| `PacbioErr.MapResultsPermutation` | pacbio_err.py:80 | rearranging the elements of a successful map rearranges its results (induction) |
| `PacbioErr.ReadFastqRecordOrder` | pacbio_err.py:94-100 | files whose quality lines are rearrangements of each other, and whose reads all decode, have the same grand mean |
| `PacbioErr.ReadFastqCompressionTransparent` | pacbio_err.py:93-100 | the grand mean depends only on the lines, not on the path or opener, because every line is treated as text |
| `PacbioErrScenarios.Record` | pacbio_err.py:80 | a record is four lines, with the quality line last |
| `PacbioErrScenarios.SingleRecordAllBang` | pacbio_err.py:83-102 | one record with quality `!!!!` gives a plain open and a grand mean of 1 |
| `PacbioErrScenarios.SingleRecordMeans` | pacbio_err.py:74-81 | that record's per-read means are the single mean 1 |
| `PacbioErrScenarios.NewlineStripped` | pacbio_err.py:69-70 | `!\n` decodes to 1 |
| `PacbioErrScenarios.TwoRecords` | pacbio_err.py:74-100 | the quality lines `!!` and `@@` give a grand mean of (1 + 0.00079) / 2 = 0.500395 |
| `PacbioErrScenarios.TwoMeansAverage` | pacbio_err.py:96 | the per-read means 1 and 0.00079 average to 0.500395 |
| `PacbioErrScenarios.TwoRecordsMeans` | pacbio_err.py:74-81 | the quality lines `!!` and `@@` give the per-read means 1 and 0.00079, in that order |
| `PacbioErrScenarios.CompressedSameMean` | pacbio_err.py:90-96 | the same record under a `.gz` path gives a gzip open and the same grand mean |
| `PacbioErrScenarios.GzipSuffixExamples` | pacbio_err.py:90-91 | `reads.fastq.GZ`, `gz` and `reads.gzip` are not gzipped, and `.gz` is |
| `PacbioErrScenarios.UnknownSymbolFails` | pacbio_err.py:70 | `~` fails as an unknown symbol at position 1, for the line and for the whole file |
| `PacbioErrScenarios.CarriageReturnFails` | pacbio_err.py:69-70 | `!!\r\n` fails on the carriage return at position 2 |
| `PacbioErrScenarios.NoCompleteRecord` | pacbio_err.py:96-100 | an empty file, and one with only three lines, give a NaN grand mean |
| `PacbioErrScenarios.DegenerateLines` | pacbio_err.py:69-70 | `""` fails with EmptyQualityString and `"\n"` gives NaN |
| `PacbioErrScenarios.BlankReadGivesNaN` | pacbio_err.py:69-100 | a blank quality line beside a read that decodes makes the grand mean NaN |
| `PacbioErrScenarios.BlankReadThenUnknown` | pacbio_err.py:70-80 | a blank read followed by a read with `~` raises on the `~`: NaN does not stop the pass |

## Left out

- Command-line handling, usage and version printing, and the banner
  (pacbio_err.py:104-127): console glue with no logic of its own.
- Reading `VERSION.txt` (pacbio_err.py:35-39): file I/O behind a bare
  `except`.
- Opening and decompressing the file (pacbio_err.py:94, 98): `open` and
  `gzip.open` are foreign I/O. The model receives the decoded lines and
  keeps only the choice of opener. It also does not model whether the file
  handle is released. Python 3's text mode translates `\r\n` and `\r` to
  `\n` while reading, so a CRLF file opened with `open` decodes; the model
  receives the lines after that translation. `CarriageReturnFails` applies
  to `convert_phred` called on a line that still holds `\r`.
- Bytes and text: under Python 3, `gzip.open(path, 'r')` yields `bytes` lines,
  which would fail at the table lookup. The model treats every line as text,
  whichever opener is chosen.
- Floating point: numpy averages IEEE-754 doubles. The model sums and divides
  exactly over `real`, and the table's decimal literals are exact.
- numpy's RuntimeWarning for the mean of an empty list is not modelled; the
  NaN it returns is.
- The formula 10^(-q/10) is checked only for quality 21, the entry that
  departs from it; the model uses the table's own values, as the source does.
- `UnknownSymbol` carries the position of the offending character as well as
  its value; Python's `KeyError` carries only the character.
- `PacbioErr.ReadFastqRecordOrder`: requires every read to decode. When some
  read fails, reordering can change which failure is reported first, so only
  the successful case is order-independent.
- The unused initial value `grand_mean = 0.0` (pacbio_err.py:89) is not
  modelled: every path reassigns it or raises.
- Quality-line length is not checked against the base line, and a line count
  that is not a multiple of four is not rejected: the source does neither.
