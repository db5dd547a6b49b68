/**
 * Feedback on a guess: one mark per guessed digit, Correct when the digit is
 * at the same place in the target, WrongPosition when the target has it
 * elsewhere, Incorrect when the target does not have it.
 */
module Scoring {
  import opened Numbers

  /** The `GuessStatus` enum shared by the game screen, the popup and the cells. */
  datatype GuessStatus = Correct | WrongPosition | Incorrect

  /** One `(digit, status)` entry of a guess result. */
  datatype Mark = Mark(digit: char, status: GuessStatus)

  /** The status of `digit` guessed at `index` of `target`. */
  function Classify(digit: char, index: nat, target: string): GuessStatus
    requires index < |target|
  {
    if digit == target[index] then Correct
    else if digit in target then WrongPosition
    else Incorrect
  }

  /**
   * `checkGuess`: walks the guess left to right, appending one mark per
   * character. The target is indexed at the guess's positions, so the source
   * traps on a guess longer than its target.
   */
  function CheckGuess(guess: string, target: string): (result: seq<Mark>)
    requires |guess| <= |target|
    ensures |result| == |guess|
    ensures forall i :: 0 <= i < |guess| ==> result[i].digit == guess[i]
    ensures forall i :: 0 <= i < |guess| ==> (result[i].status == Correct <==> guess[i] == target[i])
    ensures forall i :: 0 <= i < |guess| ==>
              (result[i].status == WrongPosition <==> guess[i] != target[i] && guess[i] in target)
    ensures forall i :: 0 <= i < |guess| ==> (result[i].status == Incorrect <==> guess[i] !in target)
    decreases |guess|
  {
    if |guess| == 0 then []
    else
      var n := |guess| - 1;
      CheckGuess(guess[..n], target) + [Mark(guess[n], Classify(guess[n], n, target))]
  }

  /** The source's win test, `result.allSatisfy { $0.status == .correct }`. */
  predicate AllCorrect(result: seq<Mark>)
  {
    forall i :: 0 <= i < |result| ==> result[i].status == Correct
  }

  /** A win: one Correct mark for every position of the target. */
  predicate IsWin(result: seq<Mark>, target: string)
  {
    |result| == |target| && AllCorrect(result)
  }

  /** The source's test accepts exactly the guesses that are a prefix of the target, the whole target included. */
  lemma AllCorrectIffPrefix(guess: string, target: string)
    requires |guess| <= |target|
    ensures AllCorrect(CheckGuess(guess, target)) <==> guess == target[..|guess|]
  {
    var r := CheckGuess(guess, target);
    if AllCorrect(r) {
      forall i | 0 <= i < |guess| ensures guess[i] == target[..|guess|][i] {
        assert r[i].status == Correct;
      }
    }
  }

  /** A result is a win exactly when the guess is the target. */
  lemma WinIff(guess: string, target: string)
    requires |guess| <= |target|
    ensures IsWin(CheckGuess(guess, target), target) <==> guess == target
  {
    AllCorrectIffPrefix(guess, target);
  }

  /** On guesses as long as the target, the source's test and the win test agree. */
  lemma AllCorrectIsWinAtFullLength(guess: string, target: string)
    requires |guess| == |target|
    ensures AllCorrect(CheckGuess(guess, target)) <==> IsWin(CheckGuess(guess, target), target)
  {
  }

  /** Guessing the target itself wins. */
  lemma SelfIsWin(s: string)
    ensures IsWin(CheckGuess(s, s), s)
  {
    WinIff(s, s);
  }

  /** The number of marks that are not Incorrect. */
  function Hits(result: seq<Mark>): (n: nat)
    ensures n <= |result|
  {
    if result == [] then 0
    else Hits(result[..|result| - 1]) + (if result[|result| - 1].status == Incorrect then 0 else 1)
  }

  /** Dropping the last character keeps a string free of repeats and takes that character out of its set. */
  lemma DistinctInit(s: string)
    requires Distinct(s) && s != []
    ensures Distinct(s[..|s| - 1])
    ensures CharSet(s) == CharSet(s[..|s| - 1]) + {s[|s| - 1]}
    ensures s[|s| - 1] !in CharSet(s[..|s| - 1])
  {
    var init := s[..|s| - 1];
    assert s == init + [s[|s| - 1]];
  }

  /** Appending a mark adds one hit unless the mark is Incorrect. */
  lemma HitsAppend(prefix: seq<Mark>, m: Mark)
    ensures Hits(prefix + [m]) == Hits(prefix) + (if m.status == Incorrect then 0 else 1)
  {
    assert (prefix + [m])[..|prefix|] == prefix;
  }

  /** The hit count of a result is that of all but its last mark plus the last mark's own. */
  lemma HitsSnoc(guess: string, target: string)
    requires 0 < |guess| <= |target|
    ensures Hits(CheckGuess(guess, target)) ==
            Hits(CheckGuess(guess[..|guess| - 1], target)) + (if guess[|guess| - 1] in target then 1 else 0)
  {
    var n := |guess| - 1;
    var m := Mark(guess[n], Classify(guess[n], n, target));
    HitsAppend(CheckGuess(guess[..n], target), m);
  }

  /**
   * For a guess without repeated digits, Correct plus WrongPosition marks
   * count the digits the guess and the target share.
   */
  lemma {:induction false} HitsCountSharedDigits(guess: string, target: string)
    requires |guess| <= |target| && Distinct(guess)
    ensures Hits(CheckGuess(guess, target)) == |CharSet(guess) * CharSet(target)|
  {
    if guess != [] {
      var n := |guess| - 1;
      var init, last := guess[..n], guess[n];
      DistinctInit(guess);
      HitsCountSharedDigits(init, target);
      HitsSnoc(guess, target);
      SharedStep(CharSet(init), CharSet(target), last);
    }
  }

  /** Adding a new element to one side grows an intersection by one exactly when the other side has it. */
  lemma SharedStep(mine: set<char>, theirs: set<char>, x: char)
    requires x !in mine
    ensures |(mine + {x}) * theirs| == |mine * theirs| + (if x in theirs then 1 else 0)
  {
    if x in theirs {
      assert (mine + {x}) * theirs == mine * theirs + {x};
    } else {
      assert (mine + {x}) * theirs == mine * theirs;
    }
  }

  /** Example: two digits in place and two swapped, against "1234". */
  lemma CheckGuessMixedExample()
    ensures CheckGuess("1243", "1234") ==
            [Mark('1', Correct), Mark('2', Correct), Mark('4', WrongPosition), Mark('3', WrongPosition)]
  {
    assert "1243"[..2] == "12" && "12"[..1] == "1";
    assert CheckGuess("12", "1234") == [Mark('1', Correct), Mark('2', Correct)];
    assert "1243"[..3] == "124";
    assert CheckGuess("124", "1234") == [Mark('1', Correct), Mark('2', Correct), Mark('4', WrongPosition)];
  }

  /** Example: no digit of the target, against "1234". */
  lemma CheckGuessMissExample()
    ensures CheckGuess("5678", "1234") ==
            [Mark('5', Incorrect), Mark('6', Incorrect), Mark('7', Incorrect), Mark('8', Incorrect)]
  {
    assert "5678"[..2] == "56" && "56"[..1] == "5";
    assert CheckGuess("56", "1234") == [Mark('5', Incorrect), Mark('6', Incorrect)];
    assert "5678"[..3] == "567";
    assert CheckGuess("567", "1234") == [Mark('5', Incorrect), Mark('6', Incorrect), Mark('7', Incorrect)];
  }
}
