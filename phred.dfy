/** The PHRED quality-symbol table of pacbio_err.py.
    FASTQ quality characters in the Sanger (Phred+33) encoding stand for the
    quality score q = ord(c) - 33, whose error probability is 10^(-q/10).
    The table lists that probability, rounded to five decimals, for the 58
    characters '!' (code 33) through 'Z' (code 90), with one exception: '6'
    (q = 21) is 0.00784, where the rounded value is 0.00794. From 'K'
    (q = 42) on the table stays at 0.00006. */
module Phred {

  /** The characters the table covers: codes 33 ('!') through 90 ('Z'). */
  predicate Known(c: char) {
    '!' <= c <= 'Z'
  }

  /** Error probability of a quality character, entry by entry as in the
      source's dictionary. */
  function Prob(c: char): (p: real)
    requires Known(c)
    ensures 0.0 < p <= 1.0
  {
    match c
    case '!' => 1.00 case '"' => 0.79433 case '#' => 0.63096 case '$' => 0.50119 case '%' => 0.39811
    case '&' => 0.31623 case '\'' => 0.25119 case '(' => 0.19953 case ')' => 0.15849 case '*' => 0.12589
    case '+' => 0.10000 case ',' => 0.07943 case '-' => 0.06310 case '.' => 0.05012 case '/' => 0.03981
    case '0' => 0.03162 case '1' => 0.02512 case '2' => 0.01995 case '3' => 0.01585 case '4' => 0.01259
    case '5' => 0.01000 case '6' => 0.00784 case '7' => 0.00631 case '8' => 0.00501 case '9' => 0.00398
    case ':' => 0.00316 case ';' => 0.00251 case '<' => 0.00200 case '=' => 0.00158 case '>' => 0.00126
    case '?' => 0.00100 case '@' => 0.00079 case 'A' => 0.00063 case 'B' => 0.00050 case 'C' => 0.00040
    case 'D' => 0.00032 case 'E' => 0.00025 case 'F' => 0.00020 case 'G' => 0.00016 case 'H' => 0.00013
    case 'I' => 0.00010 case 'J' => 0.00008 case 'K' => 0.00006 case 'L' => 0.00006 case 'M' => 0.00006
    case 'N' => 0.00006 case 'O' => 0.00006 case 'P' => 0.00006 case 'Q' => 0.00006 case 'R' => 0.00006
    case 'S' => 0.00006 case 'T' => 0.00006 case 'U' => 0.00006 case 'V' => 0.00006 case 'W' => 0.00006
    case 'X' => 0.00006 case 'Y' => 0.00006 case 'Z' => 0.00006
  }

  /** The lookup table as the finite map the source builds once: its keys are
      the known characters and each maps to its probability. */
  const Table: map<char, real> := map c: char | Known(c) :: Prob(c)

  /** The table is defined for exactly the 58 characters with codes 33 through 90,
      and looking a key up gives its probability. */
  lemma TableDomain(c: char)
    ensures c in Table <==> 33 <= c as int <= 90
    ensures c in Table ==> Table[c] == Prob(c)
  {
  }

  /** The characters '!' up to, but excluding, the one with code 33 + n. The
      ensures only rewrites Known in terms of character codes. */
  function KnownBelow(n: nat): (s: set<char>)
    requires n <= 58
    ensures forall c :: c in s <==> 33 <= c as int < 33 + n
  {
    set c: char | Known(c) && c as int < 33 + n
  }

  /** There are n characters in the first n codes of the table. */
  lemma {:induction false} KnownBelowSize(n: nat)
    requires n <= 58
    ensures |KnownBelow(n)| == n
  {
    if n > 0 {
      KnownBelowSize(n - 1);
      var last := (32 + n) as char;
      assert KnownBelow(n) == KnownBelow(n - 1) + {last};
    }
  }

  /** The table has exactly 58 keys. */
  lemma TableSize()
    ensures |Table| == 58
  {
    KnownBelowSize(58);
    assert Table.Keys == KnownBelow(58);
  }

  /** Stepping to the next character code never raises the probability. */
  lemma ProbStepDown(c: char)
    requires '!' <= c < 'Z'
    ensures Prob((c as int + 1) as char) <= Prob(c)
  {
  }

  /** Probabilities never increase as the character code increases. */
  lemma {:induction false} ProbNonIncreasing(c: char, d: char)
    requires Known(c) && Known(d) && c <= d
    ensures Prob(d) <= Prob(c)
    decreases d as int - c as int
  {
    if c < d {
      var next := (c as int + 1) as char;
      ProbStepDown(c);
      ProbNonIncreasing(next, d);
    }
  }

  /** From 'K' (quality 42) to 'Z' the table is clamped at 0.00006, its minimum. */
  lemma ClampedTail(c: char)
    requires 'K' <= c <= 'Z'
    ensures Known(c) && Prob(c) == 0.00006
  {
  }

  /** Every tenth quality score is an exact power of ten:
      '!' is 1, '+' is 0.1, '5' is 0.01, '?' is 0.001 and 'I' is 0.0001. */
  lemma DecadeAnchors()
    ensures Prob('!') == 1.0 && Prob('+') == 0.1 && Prob('5') == 0.01
    ensures Prob('?') == 0.001 && Prob('I') == 0.0001
  {
  }

  /** x to the n-th power, by repeated squaring. */
  function Pow(x: real, n: nat): real
    decreases n
  {
    if n == 0 then 1.0 else if n % 2 == 0 then Pow(x * x, n / 2) else x * Pow(x, n - 1)
  }

  /** The quality score a known character stands for. */
  function Quality(c: char): (q: nat)
    requires Known(c)
    ensures q <= 57 && (q as int + 33) as char == c
  {
    c as int - 33
  }

  /** 10^(-2.1), the error probability of quality 21, rounds to 0.00794:
      1000 * 10^(-2.1) = 10^0.9 lies in [7.935, 7.945), stated on tenth
      powers (10^9 is 1000000000) so that only exact arithmetic is needed. */
  lemma QualityTwentyOneFormula()
    ensures Pow(7.935, 10) <= 1000000000.0 < Pow(7.945, 10)
  {
  }

  /** The entry for '6' (quality 21) is not the rounded formula value: the
      table has 0.00784, and 10^(-2.1) lies at or above 0.00784 + 0.000005. */
  lemma SixOffFormula()
    ensures Quality('6') == 21 && Prob('6') == 0.00784
    ensures Pow(1000.0 * (Prob('6') + 0.000005), 10) <= 1000000000.0
  {
  }
}
