/** Whole-file behaviour of pacbio_err.py on small FASTQ inputs: one record,
    two records, a trailing newline, a compressed path, an unknown symbol,
    a blank quality line and an empty file. */
module PacbioErrScenarios {
  import opened Phred
  import opened Averages
  import opened PacbioErr

  /** A four-line record with the given quality line. */
  function Record(name: string, bases: string, quality: string): (r: seq<string>)
    ensures |r| == 4 && r[3] == quality
  {
    ["@" + name + "\n", bases + "\n", "+\n", quality]
  }

  /** One record whose quality line is "!!!!": every base has error
      probability 1, so the grand mean is 1. */
  lemma SingleRecordAllBang()
    ensures ReadFastq("reads.fastq", Record("r1", "ACGT", "!!!!\n")) == Run(PlainOpen, Ok(Num(1.0)))
  {
    var lines := Record("r1", "ACGT", "!!!!\n");
    SingleRecordMeans();
    ReadFastqOfMeans("reads.fastq", lines, [Num(1.0)]);
    GrandMeanSingleton(1.0);
  }

  /** The per-read means of the record with quality line "!!!!". */
  lemma SingleRecordMeans()
    ensures MeanErrPerRead(Record("r1", "ACGT", "!!!!\n")) == Ok([Num(1.0)])
  {
    var lines := Record("r1", "ACGT", "!!!!\n");
    assert "!!!!\n" == Repeat('!', 4) + "\n";
    ConvertPhredUniform('!', 4, true);
    assert QualityLines(lines) == ["!!!!\n"];
    var r := MapResults(ConvertPhred, ["!!!!\n"]);
    assert r.Ok? && r.value[0] == Num(1.0);
    assert r.value == [Num(1.0)];
  }

  /** The quality line "!\n": the newline is stripped, not looked up. */
  lemma NewlineStripped()
    ensures ConvertPhred("!\n") == Ok(Num(1.0))
  {
    assert "!\n" == Repeat('!', 1) + "\n";
    ConvertPhredUniform('!', 1, true);
  }

  /** Two records with quality lines "!!" (mean 1) and "@@" (mean 0.00079):
      the grand mean is their average, 0.500395. */
  lemma TwoRecords()
    ensures ReadFastq("reads.fastq", Record("r1", "AC", "!!\n") + Record("r2", "GT", "@@\n")).grandMean
      == Ok(Num(0.500395))
  {
    var lines := Record("r1", "AC", "!!\n") + Record("r2", "GT", "@@\n");
    var means := [Num(1.0), Num(0.00079)];
    TwoRecordsMeans();
    ReadFastqOfMeans("reads.fastq", lines, means);
    TwoMeansAverage();
  }

  /** np.mean of the per-read means 1 and 0.00079. */
  lemma TwoMeansAverage()
    ensures GrandMean([Num(1.0), Num(0.00079)]) == Num(0.500395)
  {
    var means := [Num(1.0), Num(0.00079)];
    assert NaN !in means;
    assert Numbers(means) == [1.0, 0.00079];
    assert Sum([1.0, 0.00079]) == 1.00079 by {
      assert [1.0, 0.00079][1..] == [0.00079];
      assert [0.00079][1..] == [];
    }
  }

  /** The per-read means of the records with quality lines "!!" and "@@". */
  lemma TwoRecordsMeans()
    ensures MeanErrPerRead(Record("r1", "AC", "!!\n") + Record("r2", "GT", "@@\n")) == Ok([Num(1.0), Num(0.00079)])
  {
    var lines := Record("r1", "AC", "!!\n") + Record("r2", "GT", "@@\n");
    assert "!!\n" == Repeat('!', 2) + "\n";
    assert "@@\n" == Repeat('@', 2) + "\n";
    ConvertPhredUniform('!', 2, true);
    ConvertPhredUniform('@', 2, true);
    assert QualityLines(lines) == ["!!\n", "@@\n"] by {
      assert lines[4..][4..] == [];
    }
    var r := MapResults(ConvertPhred, ["!!\n", "@@\n"]);
    assert r.Ok? && r.value[0] == Num(1.0) && r.value[1] == Num(0.00079);
    assert r.value == [Num(1.0), Num(0.00079)];
  }

  /** A ".gz" path with the same contents is opened with gzip and yields the
      same grand mean. */
  lemma CompressedSameMean()
    ensures ReadFastq("reads.fastq.gz", Record("r1", "ACGT", "!!!!\n")) == Run(GzipOpen, Ok(Num(1.0)))
  {
    SingleRecordAllBang();
    ReadFastqCompressionTransparent("reads.fastq.gz", "reads.fastq", Record("r1", "ACGT", "!!!!\n"));
    assert PyTail("reads.fastq.gz", 3) == ".gz";
  }

  /** The suffix test is case-sensitive and needs all three characters. */
  lemma GzipSuffixExamples()
    ensures !IsGzipped("reads.fastq.GZ") && !IsGzipped("gz") && !IsGzipped("reads.gzip")
    ensures IsGzipped(".gz")
  {
    assert PyTail("reads.fastq.GZ", 3) == ".GZ";
    assert PyTail("reads.gzip", 3) == "zip";
  }

  /** A '~' in a quality line is not in the table: decoding fails at it and
      the file yields no mean. */
  lemma UnknownSymbolFails()
    ensures ConvertPhred("!~!\n") == Err(UnknownSymbol('~', 1))
    ensures ReadFastq("reads.fastq", Record("r1", "ACG", "!~!\n")).grandMean == Err(UnknownSymbol('~', 1))
  {
    assert QualityPart("!~!\n") == "!~!";
    var r := ConvertPhred("!~!\n");
    assert r.Err?;
    assert "!~!"[1] == '~';
    assert r.error.position != 0;
    RecordPosition(0);
  }

  /** A carriage return before the newline is looked up and fails. */
  lemma CarriageReturnFails()
    ensures ConvertPhred("!!\r\n") == Err(UnknownSymbol('\r', 2))
  {
    assert "!!\r\n" == "!!" + ['\r'] + "\n";
    ConvertPhredStripsOnlyOne("!!", '\r');
  }

  /** An empty file, and one with only a partial record, average no reads:
      the grand mean is NaN. */
  lemma NoCompleteRecord()
    ensures ReadFastq("reads.fastq", []).grandMean == Ok(NaN)
    ensures ReadFastq("reads.fastq", ["@r1\n", "ACGT\n", "+\n"]).grandMean == Ok(NaN)
  {
  }

  /** The empty string and the lone newline are the two degenerate lines: the
      first raises, the second averages nothing. */
  lemma DegenerateLines()
    ensures ConvertPhred("") == Err(EmptyQualityString)
    ensures ConvertPhred("\n") == Ok(NaN)
  {
  }

  /** A blank quality line makes its read's mean NaN, and so the grand mean,
      even beside a read that decodes. */
  lemma BlankReadGivesNaN()
    ensures ReadFastq("reads.fastq", Record("r1", "", "\n") + Record("r2", "AC", "!!\n")).grandMean == Ok(NaN)
  {
    var lines := Record("r1", "", "\n") + Record("r2", "AC", "!!\n");
    assert lines[3] == "\n" && 3 % 4 == 3;
    assert HasBlankRead(lines);
    assert "!!\n" == Repeat('!', 2) + "\n";
    ConvertPhredUniform('!', 2, true);
    assert QualityLines(lines) == ["\n", "!!\n"] by {
      assert lines[4..][4..] == [];
    }
  }

  /** A blank read does not stop the pass: an unknown symbol in a later read
      still raises. */
  lemma BlankReadThenUnknown()
    ensures ReadFastq("reads.fastq", Record("r1", "", "\n") + Record("r2", "A", "~\n")).grandMean
      == Err(UnknownSymbol('~', 0))
  {
    var lines := Record("r1", "", "\n") + Record("r2", "A", "~\n");
    assert QualityPart("~\n") == "~";
    assert ConvertPhred("~\n") == Err(UnknownSymbol('~', 0));
    assert QualityLines(lines) == ["\n", "~\n"] by {
      assert lines[4..][4..] == [];
    }
    var r := MapResults(ConvertPhred, ["\n", "~\n"]);
    assert r.Err?;
  }
}
