/** The error estimator of pacbio_err.py: decode each read's quality line
    into error probabilities, average them per read, and average the
    per-read means into the grand mean. The input file is given as the
    sequence of its lines (each keeping its trailing newline, as Python's
    line iteration does); opening and decompressing it is not modelled,
    only the decision whether it is gzipped. */
module PacbioErr {
  import opened Phred
  import opened Averages

  /** The exceptions the source raises. */
  datatype Error =
    | EmptyQualityString                          // phred_string[-1] on "" raises IndexError
    | UnknownSymbol(symbol: char, position: nat)  // PHRED[s] raises KeyError on the first such character

  datatype Result<T> = Ok(value: T) | Err(error: Error)

  /** What numpy.mean returns: a number, or NaN. numpy returns NaN, with a
      warning and without raising, for the mean of no values, and any mean
      over a NaN is NaN. */
  datatype Estimate = Num(x: real) | NaN

  /** n copies of c. */
  function Repeat(c: char, n: nat): (s: string)
    ensures |s| == n && forall i :: 0 <= i < n ==> s[i] == c
  {
    seq(n, _ => c)
  }

  // ---------------------------------------------------------------------
  // convert_phred
  // ---------------------------------------------------------------------

  /** The table lookups of s[from..], left to right as the list
      comprehension does them; the first character missing from the table
      stops the decoding with its position in s. */
  function Probabilities(s: string, from: nat): (r: Result<seq<real>>)
    requires from <= |s|
    ensures r.Ok? <==> forall i :: from <= i < |s| ==> s[i] in Table
    ensures r.Ok? ==> |r.value| == |s| - from
    ensures r.Ok? ==> forall k :: 0 <= k < |r.value| ==> s[from + k] in Table && r.value[k] == Table[s[from + k]]
    ensures r.Err? ==> FirstUnknown(s, from, r.error)
    decreases |s| - from
  {
    if from == |s| then Ok([])
    else if s[from] !in Table then Err(UnknownSymbol(s[from], from))
    else
      match Probabilities(s, from + 1)
      case Err(e) => Err(e)
      case Ok(rest) => Ok([Table[s[from]]] + rest)
  }

  /** e reports the first character of s at or after from that the table
      does not know. */
  ghost predicate FirstUnknown(s: string, from: nat, e: Error) {
    && e.UnknownSymbol?
    && from <= e.position < |s|
    && s[e.position] == e.symbol
    && e.symbol !in Table
    && forall i :: from <= i < e.position ==> s[i] in Table
  }

  /** The characters of a non-empty quality line that are looked up: all of
      them but one trailing newline. */
  function QualityPart(line: string): (body: string)
    requires |line| > 0
    ensures line == body + "\n" || (line == body && line[|line| - 1] != '\n')
  {
    if line[|line| - 1] == '\n' then line[..|line| - 1] else line
  }

  /** Sum of the table values of a string's characters, character by
      character: an independent reference for the decoded mean. Each value
      lies in [0.00006, 1], so the sum lies in [0.00006 * n, n]. */
  function TableSum(s: string): (t: real)
    requires forall i :: 0 <= i < |s| ==> s[i] in Table
    ensures (|s| as real) * 0.00006 <= t <= |s| as real
  {
    if |s| == 0 then 0.0
    else
      ProbNonIncreasing(s[0], 'Z');
      Table[s[0]] + TableSum(s[1..])
  }

  /** All characters of s lie in the table. */
  ghost predicate AllKnown(s: string) {
    forall i :: 0 <= i < |s| ==> s[i] in Table
  }

  /** np.mean([PHRED[s] for s in body]): the lookups in order, then their
      mean, which is NaN for the empty string. */
  function LookupMean(body: string): (r: Result<Estimate>)
    ensures r.Ok? <==> AllKnown(body)
    ensures r == Ok(NaN) <==> |body| == 0
    ensures r.Ok? && r.value.Num? ==> r.value.x == TableSum(body) / (|body| as real)
    ensures r.Ok? && r.value.Num? ==> 0.00006 <= r.value.x <= 1.0
    ensures r.Err? ==> FirstUnknown(body, 0, r.error)
  {
    match Probabilities(body, 0)
    case Err(e) => Err(e)
    case Ok(ps) =>
      if |ps| == 0 then Ok(NaN)
      else
        DecodedMean(body);
        Ok(Num(Mean(ps)))
  }

  /** convert_phred: the mean error probability of one quality line. The
      line "\n" has no characters to average, and numpy gives NaN for it. */
  function ConvertPhred(line: string): (r: Result<Estimate>)
    ensures r == Err(EmptyQualityString) <==> |line| == 0
    ensures r == Ok(NaN) <==> line == "\n"
    ensures r.Ok? <==> |line| > 0 && AllKnown(QualityPart(line))
    ensures r.Ok? && r.value.Num? ==> r.value.x == TableSum(QualityPart(line)) / (|QualityPart(line)| as real)
    ensures r.Ok? && r.value.Num? ==> 0.00006 <= r.value.x <= 1.0
    ensures r.Err? && |line| > 0 ==> FirstUnknown(QualityPart(line), 0, r.error)
  {
    if |line| == 0 then Err(EmptyQualityString) else LookupMean(QualityPart(line))
  }

  /** The mean of a decoded non-empty string is its TableSum over its length,
      and lies between the table's minimum and 1. */
  lemma DecodedMean(body: string)
    requires |body| > 0 && AllKnown(body)
    ensures Probabilities(body, 0).Ok? && |Probabilities(body, 0).value| == |body|
    ensures Mean(Probabilities(body, 0).value) == TableSum(body) / (|body| as real)
    ensures 0.00006 <= Mean(Probabilities(body, 0).value) <= 1.0
  {
    var ps := Probabilities(body, 0).value;
    ProbabilitiesSum(body);
    ProbabilitiesRange(body);
    MeanBounds(ps, 0.00006, 1.0);
  }

  /** The decoded probabilities of a fully known string add up to its TableSum. */
  lemma {:induction false} ProbabilitiesSumFrom(s: string, from: nat)
    requires from <= |s| && AllKnown(s)
    ensures Probabilities(s, from).Ok?
    ensures Sum(Probabilities(s, from).value) == TableSum(s[from..])
    decreases |s| - from
  {
    if from < |s| {
      ProbabilitiesSumFrom(s, from + 1);
      var rest := Probabilities(s, from + 1).value;
      assert Probabilities(s, from).value == [Table[s[from]]] + rest;
      assert ([Table[s[from]]] + rest)[1..] == rest;
      assert s[from..][1..] == s[from + 1..];
    }
  }

  lemma ProbabilitiesSum(s: string)
    requires AllKnown(s)
    ensures Probabilities(s, 0).Ok? && Sum(Probabilities(s, 0).value) == TableSum(s)
  {
    ProbabilitiesSumFrom(s, 0);
    assert s[0..] == s;
  }

  /** Every decoded probability lies between the table's minimum and 1. */
  lemma ProbabilitiesRange(s: string)
    requires Probabilities(s, 0).Ok?
    ensures forall k :: 0 <= k < |Probabilities(s, 0).value| ==> 0.00006 <= Probabilities(s, 0).value[k] <= 1.0
  {
    var ps := Probabilities(s, 0).value;
    forall k | 0 <= k < |ps| ensures 0.00006 <= ps[k] <= 1.0 {
      ProbNonIncreasing(s[k], 'Z');
    }
  }

  /** The decoded mean lies between the smallest and the largest table value
      among the line's looked-up characters. */
  lemma ConvertPhredBetween(line: string)
    requires ConvertPhred(line).Ok? && ConvertPhred(line).value.Num?
    ensures exists i, j :: (0 <= i < |QualityPart(line)| && 0 <= j < |QualityPart(line)| &&
      Table[QualityPart(line)[i]] <= ConvertPhred(line).value.x <= Table[QualityPart(line)[j]])
  {
    var body := QualityPart(line);
    var ps := Probabilities(body, 0).value;
    var i :| 0 <= i < |ps| && ps[i] == Min(ps);
    var j :| 0 <= j < |ps| && ps[j] == Max(ps);
    assert Table[body[i]] <= ConvertPhred(line).value.x <= Table[body[j]];
  }

  /** A line made of n >= 1 copies of one known character, with or without
      a trailing newline, decodes to exactly that character's probability. */
  lemma ConvertPhredUniform(c: char, n: nat, newline: bool)
    requires Known(c) && n >= 1
    ensures ConvertPhred(Repeat(c, n) + (if newline then "\n" else "")) == Ok(Num(Prob(c)))
  {
    var body := Repeat(c, n);
    var line := body + (if newline then "\n" else "");
    assert QualityPart(line) == body by {
      if newline { assert line[..|line| - 1] == body; } else { assert line == body; }
    }
    var ps := Probabilities(body, 0).value;
    MeanConstant(ps, Prob(c));
  }

  /** One trailing newline does not change the result. */
  lemma ConvertPhredNewline(s: string)
    requires |s| > 0 && s[|s| - 1] != '\n'
    ensures ConvertPhred(s + "\n") == ConvertPhred(s)
  {
    assert (s + "\n")[..|s|] == s;
  }

  /** Only one newline is stripped: a character outside the table before the
      final newline (a second newline, a carriage return) is looked up and
      fails, after a fully known prefix s. */
  lemma ConvertPhredStripsOnlyOne(s: string, c: char)
    requires AllKnown(s) && c !in Table
    ensures ConvertPhred(s + [c] + "\n") == Err(UnknownSymbol(c, |s|))
  {
    assert QualityPart(s + [c] + "\n") == s + [c];
    ProbabilitiesAppendUnknown(s, c, 0);
  }

  /** Decoding a known string followed by an unknown character fails at that
      character. */
  lemma {:induction false} ProbabilitiesAppendUnknown(s: string, c: char, from: nat)
    requires from <= |s| && AllKnown(s) && c !in Table
    ensures Probabilities(s + [c], from) == Err(UnknownSymbol(c, |s|))
    decreases |s| - from
  {
    if from < |s| {
      assert (s + [c])[from] == s[from];
      ProbabilitiesAppendUnknown(s, c, from + 1);
    } else {
      assert (s + [c])[from] == c;
    }
  }

  // ---------------------------------------------------------------------
  // mean_err_per_read
  // ---------------------------------------------------------------------

  /** itertools.islice(lines, 3, None, 4): the fourth line of each
      four-line record, that is lines 3, 7, 11, ... counting from 0, in
      order; a trailing partial record of fewer than four lines gives none. */
  function QualityLines(lines: seq<string>): (q: seq<string>)
    ensures |q| == |lines| / 4
  {
    if |lines| < 4 then [] else [lines[3]] + QualityLines(lines[4..])
  }

  /** Quality line k is the line at position 4 * k + 3. */
  lemma {:induction false} QualityLineOfRecord(lines: seq<string>, k: nat)
    requires k < |lines| / 4
    ensures 4 * k + 3 < |lines| && QualityLines(lines)[k] == lines[4 * k + 3]
  {
    if k > 0 {
      QualityLineOfRecord(lines[4..], k - 1);
      assert lines[4..][4 * (k - 1) + 3] == lines[4 * k + 3];
    }
  }

  /** The slice only looks at the positions it selects: line sequences of equal
      length that agree at positions 3, 7, 11, ... have the same quality lines. */
  lemma {:induction false} QualityLinesReadOnlySelected(lines: seq<string>, lines': seq<string>)
    requires |lines| == |lines'|
    requires forall i :: 0 <= i < |lines| && i % 4 == 3 ==> lines[i] == lines'[i]
    ensures QualityLines(lines) == QualityLines(lines')
  {
    if |lines| >= 4 {
      assert (3 % 4 == 3);
      forall i | 0 <= i < |lines| - 4 && i % 4 == 3 ensures lines[4..][i] == lines'[4..][i] {
        assert (i + 4) % 4 == 3;
      }
      QualityLinesReadOnlySelected(lines[4..], lines'[4..]);
    }
  }

  /** Applies f to each element in order, as a list comprehension does; the
      first failure propagates and nothing after it is evaluated. */
  function MapResults<A, B>(f: A -> Result<B>, xs: seq<A>): (r: Result<seq<B>>)
    ensures r.Ok? <==> forall k :: 0 <= k < |xs| ==> f(xs[k]).Ok?
    ensures r.Ok? ==> |r.value| == |xs| && forall k :: 0 <= k < |xs| ==> f(xs[k]) == Ok(r.value[k])
    ensures r.Err? ==> exists k :: (0 <= k < |xs| && f(xs[k]) == Err(r.error) &&
      forall j :: 0 <= j < k ==> f(xs[j]).Ok?)
  {
    if |xs| == 0 then Ok([])
    else
      match f(xs[0])
      case Err(e) => Err(e)
      case Ok(y) =>
        match MapResults(f, xs[1..])
        case Err(e) =>
          ghost var k :| 0 <= k < |xs[1..]| && f(xs[1..][k]) == Err(e) &&
            forall j :: 0 <= j < k ==> f(xs[1..][j]).Ok?;
          assert f(xs[k + 1]) == Err(e);
          Err(e)
        case Ok(rest) => Ok([y] + rest)
  }

  /** Position 4 * k + 3 is the quality line of record k. */
  lemma RecordPosition(k: nat)
    ensures (4 * k + 3) % 4 == 3 && (4 * k + 3) / 4 == k
  {
  }

  /** n lines hold no complete record exactly when n < 4. */
  lemma RecordCount(n: nat)
    ensures n / 4 == 0 <==> n < 4
  {
  }

  /** A quality line before that of record k belongs to an earlier record. */
  lemma EarlierRecord(j: nat, k: nat)
    requires j < 4 * k + 3 && j % 4 == 3
    ensures j / 4 < k
  {
  }

  /** The line at a position 3 modulo 4 is the quality line of its record. */
  lemma QualityLineAt(lines: seq<string>, i: nat)
    requires i < |lines| && i % 4 == 3
    ensures i / 4 < |QualityLines(lines)| && QualityLines(lines)[i / 4] == lines[i]
  {
    assert 4 * (i / 4) + 3 == i;
    QualityLineOfRecord(lines, i / 4);
  }

  /** Decoding the quality lines one by one succeeds exactly when every line
      at a position 3 modulo 4 decodes, and then yields their values in order. */
  lemma MapQualityLinesOk<B>(f: string -> Result<B>, lines: seq<string>)
    ensures MapResults(f, QualityLines(lines)).Ok? <==>
      forall i :: 0 <= i < |lines| && i % 4 == 3 ==> f(lines[i]).Ok?
    ensures MapResults(f, QualityLines(lines)).Ok? ==>
      |MapResults(f, QualityLines(lines)).value| == |lines| / 4 &&
      forall i :: 0 <= i < |lines| && i % 4 == 3 ==> f(lines[i]) == Ok(MapResults(f, QualityLines(lines)).value[i / 4])
  {
    var qs := QualityLines(lines);
    var r := MapResults(f, qs);
    if r.Ok? {
      forall i | 0 <= i < |lines| && i % 4 == 3 ensures f(lines[i]) == Ok(r.value[i / 4]) {
        QualityLineAt(lines, i);
      }
    } else {
      var k :| 0 <= k < |qs| && !f(qs[k]).Ok?;
      RecordPosition(k);
      QualityLineOfRecord(lines, k);
      assert !f(lines[4 * k + 3]).Ok?;
    }
  }

  /** Quality lines before record k's that all decode are the lines at
      positions 3 modulo 4 before 4 * k + 3. */
  lemma EarlierQualityLines<B>(f: string -> Result<B>, lines: seq<string>, k: nat)
    requires k < |lines| / 4
    requires forall j :: 0 <= j < k ==> f(QualityLines(lines)[j]).Ok?
    ensures forall j :: 0 <= j < 4 * k + 3 && j % 4 == 3 ==> f(lines[j]).Ok?
  {
    forall j | 0 <= j < 4 * k + 3 && j % 4 == 3 ensures f(lines[j]).Ok? {
      EarlierRecord(j, k);
      QualityLineAt(lines, j);
    }
  }

  /** Line i, at a position 3 modulo 4, fails with e, and every such line
      before it decodes. */
  ghost predicate FirstFailingLine<B>(f: string -> Result<B>, lines: seq<string>, i: int, e: Error) {
    && 0 <= i < |lines| && i % 4 == 3 && f(lines[i]) == Err(e)
    && forall j :: 0 <= j < i && j % 4 == 3 ==> f(lines[j]).Ok?
  }

  /** A failure is the failure of the first quality line that does not decode. */
  lemma MapQualityLinesErr<B>(f: string -> Result<B>, lines: seq<string>)
    requires MapResults(f, QualityLines(lines)).Err?
    ensures exists i :: FirstFailingLine(f, lines, i, MapResults(f, QualityLines(lines)).error)
  {
    var qs := QualityLines(lines);
    var r := MapResults(f, qs);
    var k :| 0 <= k < |qs| && f(qs[k]) == Err(r.error) && forall j :: 0 <= j < k ==> f(qs[j]).Ok?;
    RecordPosition(k);
    QualityLineOfRecord(lines, k);
    EarlierQualityLines(f, lines, k);
    assert f(lines[4 * k + 3]) == Err(r.error);
    assert FirstFailingLine(f, lines, 4 * k + 3, r.error);
  }

  /** mean_err_per_read: the mean error of every read, in file order. Line i
      is decoded exactly when i is 3 modulo 4, and decoding stops at the first
      failing line. */
  function MeanErrPerRead(lines: seq<string>): (r: Result<seq<Estimate>>)
    ensures r.Ok? <==> forall i :: 0 <= i < |lines| && i % 4 == 3 ==> ConvertPhred(lines[i]).Ok?
    ensures r.Ok? ==> |r.value| == |lines| / 4
    ensures r.Ok? ==> forall i :: 0 <= i < |lines| && i % 4 == 3 ==> ConvertPhred(lines[i]) == Ok(r.value[i / 4])
    ensures r.Err? ==> exists i :: (0 <= i < |lines| && i % 4 == 3 && ConvertPhred(lines[i]) == Err(r.error) &&
      forall j :: 0 <= j < i && j % 4 == 3 ==> ConvertPhred(lines[j]).Ok?)
  {
    MapQualityLinesOk(ConvertPhred, lines);
    if MapResults(ConvertPhred, QualityLines(lines)).Err? then
      MapQualityLinesErr(ConvertPhred, lines);
      MapResults(ConvertPhred, QualityLines(lines))
    else
      MapResults(ConvertPhred, QualityLines(lines))
  }

  /** Lines outside positions 3, 7, 11, ... are never inspected. */
  lemma MeanErrPerReadIgnoresOtherLines(lines: seq<string>, lines': seq<string>)
    requires |lines| == |lines'|
    requires forall i :: 0 <= i < |lines| && i % 4 == 3 ==> lines[i] == lines'[i]
    ensures MeanErrPerRead(lines) == MeanErrPerRead(lines')
  {
    QualityLinesReadOnlySelected(lines, lines');
  }

  /** Every per-read mean that is a number lies between the table's minimum
      and 1. */
  lemma MeanErrPerReadRange(lines: seq<string>)
    requires MeanErrPerRead(lines).Ok?
    ensures forall k :: 0 <= k < |MeanErrPerRead(lines).value| && MeanErrPerRead(lines).value[k].Num? ==>
      0.00006 <= MeanErrPerRead(lines).value[k].x <= 1.0
  {
    var ms := MeanErrPerRead(lines).value;
    forall k | 0 <= k < |ms| && ms[k].Num? ensures 0.00006 <= ms[k].x <= 1.0 {
      RecordPosition(k);
      QualityLineOfRecord(lines, k);
      assert ConvertPhred(lines[4 * k + 3]) == Ok(ms[(4 * k + 3) / 4]);
    }
  }

  /** Some quality line, at a position 3 modulo 4, is the blank line "\n". */
  ghost predicate HasBlankRead(lines: seq<string>) {
    exists i :: 0 <= i < |lines| && i % 4 == 3 && lines[i] == "\n"
  }

  /** A per-read mean is NaN exactly when its quality line is blank. */
  lemma MeanErrPerReadNaN(lines: seq<string>)
    requires MeanErrPerRead(lines).Ok?
    ensures NaN in MeanErrPerRead(lines).value <==> HasBlankRead(lines)
  {
    var ms := MeanErrPerRead(lines).value;
    if NaN in ms {
      var k :| 0 <= k < |ms| && ms[k] == NaN;
      RecordPosition(k);
      QualityLineOfRecord(lines, k);
      assert ConvertPhred(lines[4 * k + 3]) == Ok(ms[(4 * k + 3) / 4]);
      assert lines[4 * k + 3] == "\n";
    }
    if HasBlankRead(lines) {
      var i :| 0 <= i < |lines| && i % 4 == 3 && lines[i] == "\n";
      QualityLineAt(lines, i);
      assert ConvertPhred(lines[i]) == Ok(NaN);
      assert ms[i / 4] == NaN;
    }
  }

  // ---------------------------------------------------------------------
  // read_fastq
  // ---------------------------------------------------------------------

  /** Python's s[-n:] for n >= 1: the last n characters, or all of s when it
      is shorter. */
  function PyTail(s: string, n: nat): (t: string)
    requires n >= 1
    ensures |t| == if |s| < n then |s| else n
    ensures s == s[..|s| - |t|] + t
  {
    if n <= |s| then s[|s| - n..] else s
  }

  /** The test fastq[-3:] == ".gz": a path shorter than 3 is compared whole,
      so it is never gzipped, and the comparison is case-sensitive. */
  predicate IsGzipped(path: string)
    ensures IsGzipped(path) <==> |path| >= 3 && path[|path| - 3..] == ".gz"
  {
    PyTail(path, 3) == ".gz"
  }

  /** A path is gzipped exactly when it is some stem followed by ".gz". */
  lemma GzipDetection(path: string)
    ensures IsGzipped(path) <==> exists stem :: path == stem + ".gz"
  {
    if |path| >= 3 && path[|path| - 3..] == ".gz" {
      var stem := path[..|path| - 3];
      assert path == stem + ".gz";
    }
    if exists stem :: path == stem + ".gz" {
      var stem :| path == stem + ".gz";
      assert path[|path| - 3..] == ".gz";
    }
  }

  /** The numbers of a list of estimates none of which is NaN. */
  function Numbers(ms: seq<Estimate>): (xs: seq<real>)
    requires NaN !in ms
    ensures |xs| == |ms| && forall i :: 0 <= i < |ms| ==> ms[i] == Num(xs[i])
  {
    if |ms| == 0 then [] else [ms[0].x] + Numbers(ms[1..])
  }

  /** np.mean of the per-read means: NaN when there are none or one of them
      is NaN, and otherwise a number between the smallest and the largest. */
  function GrandMean(means: seq<Estimate>): (r: Estimate)
    ensures r.NaN? <==> |means| == 0 || NaN in means
    ensures r.Num? ==> Min(Numbers(means)) <= r.x <= Max(Numbers(means))
  {
    if |means| == 0 || NaN in means then NaN else Num(Mean(Numbers(means)))
  }

  /** Rearranging estimates without NaN rearranges their numbers. */
  lemma NumbersPermutation(a: seq<Estimate>, b: seq<Estimate>)
    requires multiset(a) == multiset(b) && NaN !in a
    ensures NaN !in b && multiset(Numbers(a)) == multiset(Numbers(b))
  {
    assert NaN !in b by {
      assert NaN in b <==> NaN in multiset(b);
    }
    var number := (e: Estimate) => Ok(if e.Num? then e.x else 0.0);
    MapResultsPermutation(number, a, b);
    assert MapResults(number, a).value == Numbers(a);
    assert MapResults(number, b).value == Numbers(b);
  }

  /** Reordering the per-read means does not change the grand mean. */
  lemma GrandMeanPermutation(means: seq<Estimate>, means': seq<Estimate>)
    requires multiset(means) == multiset(means')
    ensures GrandMean(means) == GrandMean(means')
  {
    assert |means| == |multiset(means)| == |multiset(means')| == |means'|;
    assert (NaN in means) == (NaN in means') by {
      assert NaN in means <==> NaN in multiset(means);
      assert NaN in means' <==> NaN in multiset(means');
    }
    if |means| > 0 && NaN !in means {
      NumbersPermutation(means, means');
      MeanPermutation(Numbers(means), Numbers(means'));
    }
  }

  /** A single read's mean is its own grand mean. */
  lemma GrandMeanSingleton(m: real)
    ensures GrandMean([Num(m)]) == Num(m)
  {
    assert Numbers([Num(m)]) == [m];
    MeanSingleton(m);
  }

  /** Per-read means in (0, 1] have a grand mean in (0, 1]. */
  lemma GrandMeanInUnitInterval(means: seq<Estimate>)
    requires |means| > 0
    requires forall k :: 0 <= k < |means| ==> means[k].Num? && 0.0 < means[k].x <= 1.0
    ensures GrandMean(means).Num? && 0.0 < GrandMean(means).x <= 1.0
  {
    MeanInUnitInterval(Numbers(means));
  }

  /** How read_fastq opens the file. */
  datatype Opener = GzipOpen | PlainOpen

  /** What one call of read_fastq does with a path and the lines the opened
      file yields: the opener chosen and the grand mean or the error. */
  datatype Run = Run(opener: Opener, grandMean: Result<Estimate>)

  /** read_fastq, with the file's contents given as its lines. An exception
      of convert_phred propagates; otherwise the result is np.mean of the
      per-read means, NaN when there is no complete record or a blank read. */
  function ReadFastq(path: string, lines: seq<string>): (run: Run)
    ensures run.opener == if IsGzipped(path) then GzipOpen else PlainOpen
    ensures run.grandMean.Ok? <==> MeanErrPerRead(lines).Ok?
    ensures MeanErrPerRead(lines).Err? ==> run.grandMean == Err(MeanErrPerRead(lines).error)
    ensures run.grandMean == Ok(NaN) <==> MeanErrPerRead(lines).Ok? && (|lines| < 4 || HasBlankRead(lines))
    ensures MeanErrPerRead(lines).Ok? && |lines| >= 4 && !HasBlankRead(lines) ==>
      var means := MeanErrPerRead(lines).value;
      NaN !in means && |means| > 0 && run.grandMean == Ok(Num(Mean(Numbers(means))))
    ensures run.grandMean.Ok? && run.grandMean.value.Num? ==> 0.00006 <= run.grandMean.value.x <= 1.0
  {
    var opener := if IsGzipped(path) then GzipOpen else PlainOpen;
    match MeanErrPerRead(lines)
    case Err(e) => Run(opener, Err(e))
    case Ok(means) =>
      GrandMeanOfReads(lines);
      Run(opener, Ok(GrandMean(means)))
  }

  /** The grand mean of decoded reads is NaN exactly when there is no
      complete record or a blank read, and otherwise lies in [0.00006, 1]. */
  lemma GrandMeanOfReads(lines: seq<string>)
    requires MeanErrPerRead(lines).Ok?
    ensures GrandMean(MeanErrPerRead(lines).value).NaN? <==> |lines| < 4 || HasBlankRead(lines)
    ensures GrandMean(MeanErrPerRead(lines).value).Num? ==> 0.00006 <= GrandMean(MeanErrPerRead(lines).value).x <= 1.0
  {
    var means := MeanErrPerRead(lines).value;
    MeanErrPerReadNaN(lines);
    RecordCount(|lines|);
    if |means| > 0 && NaN !in means {
      MeanErrPerReadRange(lines);
      MeanBounds(Numbers(means), 0.00006, 1.0);
    }
  }

  /** When every read decodes, the grand mean is np.mean of the per-read
      means, whatever the path. */
  lemma ReadFastqOfMeans(path: string, lines: seq<string>, means: seq<Estimate>)
    requires MeanErrPerRead(lines) == Ok(means)
    ensures ReadFastq(path, lines).grandMean == Ok(GrandMean(means))
  {
  }

  /** A successful map's results after the first are those of the rest. */
  lemma MapResultsTail<A, B>(f: A -> Result<B>, xs: seq<A>)
    requires |xs| > 0 && MapResults(f, xs).Ok?
    ensures MapResults(f, xs[1..]).Ok?
    ensures MapResults(f, xs).value == [f(xs[0]).value] + MapResults(f, xs[1..]).value
  {
  }

  /** Element k of a sequence with element i left out. */
  lemma RemoveAt<T>(s: seq<T>, i: nat, k: nat)
    requires i < |s| && k < |s| - 1
    ensures (s[..i] + s[i + 1..])[k] == s[if k < i then k else k + 1]
  {
  }

  /** Leaving one element out of a successful map leaves its result out. */
  lemma MapResultsRemove<A, B>(f: A -> Result<B>, ys: seq<A>, i: nat)
    requires i < |ys| && MapResults(f, ys).Ok?
    ensures MapResults(f, ys[..i] + ys[i + 1..]).Ok?
    ensures MapResults(f, ys[..i] + ys[i + 1..]).value ==
      MapResults(f, ys).value[..i] + MapResults(f, ys).value[i + 1..]
  {
    var ys' := ys[..i] + ys[i + 1..];
    var vy := MapResults(f, ys).value;
    var rest := vy[..i] + vy[i + 1..];
    forall k | 0 <= k < |ys'| ensures f(ys'[k]) == Ok(rest[k]) {
      RemoveAt(ys, i, k);
      RemoveAt(vy, i, k);
    }
    var vy' := MapResults(f, ys').value;
    forall k | 0 <= k < |vy'| ensures vy'[k] == rest[k] {
      assert f(ys'[k]) == Ok(vy'[k]);
    }
  }

  /** Elements in the same multiset all succeed or not alike. */
  lemma MapResultsOkPermutation<A, B>(f: A -> Result<B>, xs: seq<A>, ys: seq<A>)
    requires multiset(xs) == multiset(ys)
    requires MapResults(f, xs).Ok?
    ensures MapResults(f, ys).Ok?
  {
    forall k | 0 <= k < |ys| ensures f(ys[k]).Ok? {
      assert ys[k] in multiset(xs);
      var j :| 0 <= j < |xs| && xs[j] == ys[k];
    }
  }

  /** Mapping an arrangement of the same elements gives an arrangement of the
      same results. */
  lemma {:induction false} MapResultsPermutation<A, B>(f: A -> Result<B>, xs: seq<A>, ys: seq<A>)
    requires multiset(xs) == multiset(ys)
    requires MapResults(f, xs).Ok?
    ensures MapResults(f, ys).Ok?
    ensures multiset(MapResults(f, xs).value) == multiset(MapResults(f, ys).value)
    decreases |xs|
  {
    MapResultsOkPermutation(f, xs, ys);
    if |xs| == 0 {
      assert |ys| == |multiset(ys)| == 0;
    } else {
      var i :| 0 <= i < |ys| && ys[i] == xs[0] by {
        assert xs[0] in multiset(ys);
      }
      var ys' := ys[..i] + ys[i + 1..];
      MultisetRemove(ys, i);
      MultisetRemoveFirst(xs);
      MultisetCancel(multiset(xs[1..]), multiset(ys'), xs[0]);
      MapResultsTail(f, xs);
      MapResultsRemove(f, ys, i);
      MapResultsPermutation(f, xs[1..], ys');
      var vx := MapResults(f, xs).value;
      var vy := MapResults(f, ys).value;
      MultisetRemove(vy, i);
      MultisetRemoveFirst(vx);
    }
  }

  /** Reordering the records of a file whose reads all decode does not change
      the grand mean: only the multiset of quality lines matters. */
  lemma ReadFastqRecordOrder(path: string, lines: seq<string>, path': string, lines': seq<string>)
    requires multiset(QualityLines(lines)) == multiset(QualityLines(lines'))
    requires MeanErrPerRead(lines).Ok?
    ensures MeanErrPerRead(lines').Ok?
    ensures ReadFastq(path, lines).grandMean == ReadFastq(path', lines').grandMean
  {
    MapResultsPermutation(ConvertPhred, QualityLines(lines), QualityLines(lines'));
    GrandMeanPermutation(MeanErrPerRead(lines).value, MeanErrPerRead(lines').value);
  }

  /** The grand mean does not depend on how the file was opened. This holds
      because the model treats every line as text whichever opener is chosen;
      under Python 3, gzip.open(path, 'r') yields bytes instead. */
  lemma ReadFastqCompressionTransparent(path: string, path': string, lines: seq<string>)
    ensures ReadFastq(path, lines).grandMean == ReadFastq(path', lines).grandMean
  {
  }
}
