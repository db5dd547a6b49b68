/**
 * Four-digit numbers of the guessing game: the validity test applied to every
 * number the player submits, and the random choice of the computer's secret.
 */
module Numbers {

  /** The decimal digits '0'..'9'. */
  const DecimalDigits: set<char> := {'0', '1', '2', '3', '4', '5', '6', '7', '8', '9'}

  /** The digits '1'..'9', the pool the computer draws from. */
  const NonZeroDigits: set<char> := {'1', '2', '3', '4', '5', '6', '7', '8', '9'}

  /** The characters of a string as a set, like Swift's `Set(number)`. */
  function CharSet(s: string): set<char>
  {
    set c | c in s
  }

  /** No character occurs twice. */
  predicate Distinct(s: string)
  {
    forall i, j :: 0 <= i < j < |s| ==> s[i] != s[j]
  }

  /**
   * The guard of `isValidNumber`: four characters, the first not '0', and
   * four different characters. Whether they are decimal digits is not checked
   * here (the text fields only accept digits).
   */
  predicate IsValidNumber(number: string)
  {
    |number| == 4 && number[0] != '0' && |CharSet(number)| == 4
  }

  /** A string has as many different characters as it has characters exactly when none repeats. */
  lemma {:induction false} CharSetSize(s: string)
    ensures |CharSet(s)| <= |s|
    ensures |CharSet(s)| == |s| <==> Distinct(s)
  {
    if s != [] {
      var init, last := s[..|s| - 1], s[|s| - 1];
      CharSetSize(init);
      assert s == init + [last];
      assert CharSet(s) == CharSet(init) + {last};
      if last in init {
        assert CharSet(s) == CharSet(init);
        var k :| 0 <= k < |init| && init[k] == last;
        assert s[k] == s[|s| - 1];
      } else {
        assert |CharSet(s)| == |CharSet(init)| + 1;
        if Distinct(init) {
          forall i, j | 0 <= i < j < |s| ensures s[i] != s[j] {
            if j < |s| - 1 {
              assert s[i] == init[i] && s[j] == init[j];
            } else {
              assert s[i] in init;
            }
          }
        } else {
          var i, j :| 0 <= i < j < |init| && init[i] == init[j];
          assert s[i] == s[j];
        }
      }
    }
  }

  /** `isValidNumber` holds exactly of the 4-character strings with a non-'0' first character and no repeated character. */
  lemma ValidNumberIff(s: string)
    ensures IsValidNumber(s) <==> |s| == 4 && s[0] != '0' && Distinct(s)
  {
    CharSetSize(s);
  }

  /** Examples: "1230" is valid, "0123" and "1123" are not, nor is a 3-digit number. */
  lemma ValidNumberExamples()
    ensures IsValidNumber("1230")
    ensures !IsValidNumber("0123")
    ensures !IsValidNumber("1123")
    ensures !IsValidNumber("123")
  {
    ValidNumberIff("1230");
    ValidNumberIff("1123");
    assert "1123"[0] == "1123"[1];
  }

  /**
   * `generateComputerNumber`: a first digit drawn from 1-9, then three more
   * drawn without replacement. The source removes 0 from the pool before the
   * first draw and never puts it back, so the computer's number never
   * contains '0'.
   */
  method GenerateComputerNumber() returns (result: string)
    ensures IsValidNumber(result)
    ensures forall i :: 0 <= i < |result| ==> result[i] in NonZeroDigits
  {
    var digits := DecimalDigits;
    result := "";
    digits := digits - {'0'};
    PoolWithoutZero();
    var firstDigit :| firstDigit in digits;
    result := result + [firstDigit];
    digits := digits - {firstDigit};
    while |result| < 4
      invariant 1 <= |result| <= 4
      invariant Distinct(result)
      invariant digits <= NonZeroDigits
      invariant forall i :: 0 <= i < |result| ==> result[i] in NonZeroDigits && result[i] !in digits
      invariant |digits| + |result| == 9
      decreases 4 - |result|
    {
      var digit :| digit in digits;
      DrawKeepsDistinct(result, digits, digit);
      result := result + [digit];
      digits := digits - {digit};
    }
    ValidNumberIff(result);
  }

  /** Removing '0' from the decimal digits leaves the nine non-zero ones. */
  lemma PoolWithoutZero()
    ensures DecimalDigits - {'0'} == NonZeroDigits
    ensures |NonZeroDigits| == 9
  {
  }

  /** Drawing a digit still in the pool keeps the drawn digits distinct and out of the shrunk pool. */
  lemma DrawKeepsDistinct(drawn: string, pool: set<char>, digit: char)
    requires Distinct(drawn) && digit in pool
    requires forall i :: 0 <= i < |drawn| ==> drawn[i] !in pool
    ensures Distinct(drawn + [digit])
    ensures forall i :: 0 <= i < |drawn| + 1 ==> (drawn + [digit])[i] !in pool - {digit}
    ensures |pool - {digit}| == |pool| - 1
  {
  }
}
