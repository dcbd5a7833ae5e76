/**
 * The survey-number generator: four random capital letters followed by a
 * random number below ten million, left-padded with zeros to seven digits,
 * drawn again until the farmer table has no row with that number. The
 * random draws are supplied as a sequence and the table as the set of
 * survey numbers already in use.
 */
module SurveyNumber {
  import opened Wrappers
  import opened Text

  /**
   * One pass of the loop's randomness: `Math.floor(Math.random() * 26)`
   * four times, then `Math.floor(Math.random() * 10000000)`.
   */
  datatype Draw = Draw(letters: seq<nat>, number: nat)

  predicate ValidDraw(d: Draw)
  {
    |d.letters| == 4 && (forall k :: 0 <= k < 4 ==> d.letters[k] < 26) && d.number < 10000000
  }

  /** `String.fromCharCode(65 + k)` */
  function Letter(k: nat): char
    requires k < 26
  {
    (65 + k) as char
  }

  /** The candidate one draw produces: the letters, then the zero-padded number. */
  function Candidate(d: Draw): string
    requires ValidDraw(d)
  {
    [Letter(d.letters[0]), Letter(d.letters[1]), Letter(d.letters[2]), Letter(d.letters[3])]
    + PadStart(Decimal(d.number), 7, '0')
  }

  /** `[A-Z]{4}[0-9]{7}` */
  predicate WellFormed(s: string)
  {
    |s| == 11 && (forall i :: 0 <= i < 4 ==> IsUpper(s[i])) && (forall i :: 4 <= i < 11 ==> IsDigit(s[i]))
  }

  /** A number below ten million, padded to seven characters, is seven digits that read back as the number. */
  lemma PaddedNumber(n: nat)
    requires n < 10000000
    ensures var padded := PadStart(Decimal(n), 7, '0');
            |padded| == 7 && AllDigits(padded) && ValueOf(padded) == n
  {
    var dec := Decimal(n);
    assert Pow10(7) == 10000000 by {
      assert Pow10(1) == 10;
      assert Pow10(2) == 100;
      assert Pow10(3) == 1000;
      assert Pow10(4) == 10000;
      assert Pow10(5) == 100000;
      assert Pow10(6) == 1000000;
    }
    DecimalLength(n, 7);
    var padded := PadStart(dec, 7, '0');
    var zeros := padded[..7 - |dec|];
    assert padded == zeros + dec;
    ValueOfLeadingZeros(zeros, dec);
    DecimalRoundTrip(n);
  }

  /**
   * Every candidate is 11 characters: letter k is character 65 + k, and the
   * last seven are digits that read back as the drawn number.
   */
  lemma CandidateShape(d: Draw)
    requires ValidDraw(d)
    ensures WellFormed(Candidate(d))
    ensures forall k :: 0 <= k < 4 ==> Candidate(d)[k] as int == 65 + d.letters[k]
    ensures AllDigits(Candidate(d)[4..]) && ValueOf(Candidate(d)[4..]) == d.number
  {
    var letters := [Letter(d.letters[0]), Letter(d.letters[1]), Letter(d.letters[2]), Letter(d.letters[3])];
    var padded := PadStart(Decimal(d.number), 7, '0');
    var c := Candidate(d);
    PaddedNumber(d.number);
    assert c == letters + padded;
    assert c[4..] == padded;
    forall k | 0 <= k < 4 ensures c[k] as int == 65 + d.letters[k] && IsUpper(c[k]) {
      assert c[k] == letters[k];
    }
    forall i | 4 <= i < 11 ensures IsDigit(c[i]) {
      assert c[i] == padded[i - 4];
    }
  }

  /** The first candidate of the draws that is not taken, or None when every one is. */
  function FirstFree(draws: seq<Draw>, taken: set<string>): (r: Option<string>)
    requires forall i :: 0 <= i < |draws| ==> ValidDraw(draws[i])
    ensures r.Some? ==> r.value !in taken
  {
    if draws == [] then None
    else if Candidate(draws[0]) !in taken then Some(Candidate(draws[0]))
    else FirstFree(draws[1..], taken)
  }

  /** Looking from draw a on: draw a's candidate when it is free, else the search from the next draw. */
  lemma FirstFreeStep(draws: seq<Draw>, taken: set<string>, a: nat)
    requires forall i :: 0 <= i < |draws| ==> ValidDraw(draws[i])
    requires a < |draws|
    ensures FirstFree(draws[a..], taken) ==
              if Candidate(draws[a]) !in taken then Some(Candidate(draws[a])) else FirstFree(draws[a + 1..], taken)
  {
    assert draws[a..][0] == draws[a] && draws[a..][1..] == draws[a + 1..];
  }

  /** A free candidate is found exactly when some draw gives one. */
  lemma {:induction false} FirstFreeFound(draws: seq<Draw>, taken: set<string>)
    requires forall i :: 0 <= i < |draws| ==> ValidDraw(draws[i])
    ensures FirstFree(draws, taken).Some? <==> exists i :: 0 <= i < |draws| && Candidate(draws[i]) !in taken
  {
    if draws != [] && Candidate(draws[0]) in taken {
      FirstFreeFound(draws[1..], taken);
      assert forall i :: 1 <= i < |draws| ==> draws[i] == draws[1..][i - 1];
    }
  }

  /**
   * The loop of `generateSurveyNumber`. It draws at least once, stops at the
   * first candidate not in `taken`, and returns it; every candidate before it
   * was taken. The result is None only when the supplied draws run out, which
   * the source (drawing forever) never does.
   */
  method GenerateSurveyNumber(draws: seq<Draw>, taken: set<string>) returns (surveyNumber: Option<string>, attempts: nat)
    requires forall i :: 0 <= i < |draws| ==> ValidDraw(draws[i])
    ensures attempts <= |draws|
    ensures 0 < |draws| ==> 0 < attempts
    ensures forall i :: 0 <= i < attempts - 1 ==> Candidate(draws[i]) in taken
    ensures surveyNumber.Some? <==> exists i :: 0 <= i < |draws| && Candidate(draws[i]) !in taken
    ensures surveyNumber.Some? ==>
              && surveyNumber.value == Candidate(draws[attempts - 1])
              && surveyNumber.value !in taken
              && WellFormed(surveyNumber.value)
    ensures surveyNumber.None? ==> attempts == |draws|
    ensures surveyNumber == FirstFree(draws, taken)
  {
    var isUnique := false;
    var candidate := "";
    attempts := 0;
    while !isUnique && attempts < |draws|
      invariant attempts <= |draws|
      invariant forall i :: 0 <= i < (if isUnique then attempts - 1 else attempts) ==> Candidate(draws[i]) in taken
      invariant isUnique ==> 0 < attempts && candidate == Candidate(draws[attempts - 1]) && candidate !in taken
      invariant FirstFree(draws, taken) == if isUnique then Some(candidate) else FirstFree(draws[attempts..], taken)
    {
      FirstFreeStep(draws, taken, attempts);
      candidate := Candidate(draws[attempts]);
      attempts := attempts + 1;
      if candidate !in taken {
        isUnique := true;
      }
    }
    if isUnique {
      assert WellFormed(candidate) by { CandidateShape(draws[attempts - 1]); }
      surveyNumber := Some(candidate);
    } else {
      surveyNumber := None;
    }
    FirstFreeFound(draws, taken);
  }
}
