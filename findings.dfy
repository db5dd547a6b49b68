/**
 * Two games that go wrong because the fill digits of the source's
 * construction leave out '0'. When the player's number contains '0', the
 * digits the computer may still fill with (1-9 minus placed minus wrong) can
 * run out before every slot is filled, and the joined guess is shorter than 4.
 * Against "1230" the short guess "123" gets three Correct marks, and
 * `allSatisfy` over them declares the computer the winner. Against "1203", or
 * against "1230" once the win test demands four marks, every later build
 * joins to "123" again, so the retry loop never finds a new guess.
 */
module Findings {
  import opened Numbers
  import opened Scoring
  import opened Strategy

  /** The player's number of the first example. */
  const Secret: string := "1230"

  /** The player's number of the second example. */
  const OtherSecret: string := "1203"

  /** What "4567" teaches against either number: 4-7 are absent. */
  const AfterFirst: Knowledge := Knowledge(map[], {}, {'4', '5', '6', '7'})

  /** What the computer knows after its guesses "4567" and "1289" against either number. */
  const Learned: Knowledge :=
    Knowledge(map[0 := '1', 1 := '2'], {}, {'4', '5', '6', '7', '8', '9'})

  /** `Learned` after the feedback on "123" against "1230": '3' found at position 2. */
  const LearnedLocked: Knowledge :=
    Knowledge(map[0 := '1', 1 := '2', 2 := '3'], {}, {'4', '5', '6', '7', '8', '9'})

  /** `Learned` after the feedback on "123" against "1203": '3' present elsewhere. */
  const LearnedMisplaced: Knowledge :=
    Knowledge(map[0 := '1', 1 := '2'], {'3'}, {'4', '5', '6', '7', '8', '9'})

  /**
   * The source's win test, applied to the computer's guess "123" against
   * "1230", reports a win, though the guess is not the player's number.
   */
  lemma ShortGuessPassesSourceWinTest()
    ensures AllCorrect(CheckGuess("123", Secret))
    ensures "123" != Secret
    ensures !IsWin(CheckGuess("123", Secret), Secret)
  {
    AllCorrectIffPrefix("123", Secret);
    assert Secret[..3] == "123";
  }

  /**
   * "4567" meets the whole contract of the computer's random first guess:
   * a valid number whose digits are all in 1-9.
   */
  lemma FirstGuessIsValid()
    ensures IsValidNumber("4567")
    ensures forall i :: 0 <= i < 4 ==> "4567"[i] in NonZeroDigits
  {
    ValidNumberIff("4567");
  }

  /** The feedback on "4567" against either number marks every digit wrong. */
  lemma AfterFirstGuess(secret: string)
    requires secret == Secret || secret == OtherSecret
    ensures Absorb(NoKnowledge, "4567", CheckGuess("4567", secret)) == AfterFirst
  {
    var result := CheckGuess("4567", secret);
    assert result == [Mark('4', Incorrect), Mark('5', Incorrect), Mark('6', Incorrect), Mark('7', Incorrect)];
    assert LearnFrom(NoKnowledge, "4567", result, 1) == Knowledge(map[], {}, {'4'});
    assert LearnFrom(NoKnowledge, "4567", result, 2) == Knowledge(map[], {}, {'4', '5'});
    assert LearnFrom(NoKnowledge, "4567", result, 3) == Knowledge(map[], {}, {'4', '5', '6'});
    assert LearnFrom(NoKnowledge, "4567", result, 4) == AfterFirst;
  }

  /** The feedback on "1289" against either number locks '1' and '2' and marks '8' and '9' wrong. */
  lemma AfterSecondGuess(secret: string)
    requires secret == Secret || secret == OtherSecret
    ensures Absorb(AfterFirst, "1289", CheckGuess("1289", secret)) == Learned
  {
    var result := CheckGuess("1289", secret);
    var k := AfterFirst;
    assert result == [Mark('1', Correct), Mark('2', Correct), Mark('8', Incorrect), Mark('9', Incorrect)];
    assert LearnFrom(k, "1289", result, 1) == Knowledge(map[0 := '1'], {}, {'4', '5', '6', '7'});
    assert LearnFrom(k, "1289", result, 2) == Knowledge(map[0 := '1', 1 := '2'], {}, {'4', '5', '6', '7'});
    assert LearnFrom(k, "1289", result, 3) == Knowledge(map[0 := '1', 1 := '2'], {}, {'4', '5', '6', '7', '8'});
    assert LearnFrom(k, "1289", result, 4) == Learned;
  }

  /** The digit a slot holds, as a set. */
  function DigitIn(slot: Slot): set<char>
  {
    if slot.Filled? then {slot.digit} else {}
  }

  /** The digits of four slots, slot by slot. */
  lemma SlotDigitsOfFour(slots: seq<Slot>)
    requires |slots| == 4
    ensures SlotDigits(slots) == DigitIn(slots[0]) + DigitIn(slots[1]) + DigitIn(slots[2]) + DigitIn(slots[3])
  {
    forall q | 0 <= q < 4 && slots[q].Filled? ensures slots[q].digit in SlotDigits(slots) {
    }
  }

  /** With nothing recorded or misplaced, stages 1 and 2 leave the four slots empty. */
  lemma EmptyStartPlaced()
    ensures Placed(AfterFirst, [Empty, Empty, Empty, Empty])
  {
    SlotDigitsOfFour([Empty, Empty, Empty, Empty]);
  }

  /** Stage 3 may fill four empty slots with '1', '2', '8' and '9' once 4-7 are known wrong. */
  lemma SecondGuessFills()
    ensures FillsFrom(AfterFirst, NonZeroDigits, [Empty, Empty, Empty, Empty],
                      [Filled('1'), Filled('2'), Filled('8'), Filled('9')])
  {
    SlotDigitsOfFour([Empty, Empty, Empty, Empty]);
  }

  /**
   * "1289" meets the construction's contract from what "4567" teaches: no
   * position is recorded and no digit misplaced, so stages 1 and 2 leave
   * every slot empty, and stage 3 may fill them left to right with '1', '2',
   * '8' and '9'.
   */
  lemma SecondGuessBuildable()
    ensures Buildable(AfterFirst, NonZeroDigits, "1289")
  {
    var mid := [Empty, Empty, Empty, Empty];
    var slots := [Filled('1'), Filled('2'), Filled('8'), Filled('9')];
    EmptyStartPlaced();
    SecondGuessFills();
    JoinFilled(slots, "1289");
    assert GuessShape(AfterFirst, NonZeroDigits, slots) && Join(slots) == "1289";
  }

  /**
   * The example game agrees with the contract of every step it takes: "4567"
   * with the generator's, "1289" with the construction's from what "4567"
   * taught, and the two leave exactly the knowledge `Learned`.
   */
  lemma ExampleGameMeetsContracts(secret: string)
    requires secret == Secret || secret == OtherSecret
    ensures IsValidNumber("4567") && forall i :: 0 <= i < 4 ==> "4567"[i] in NonZeroDigits
    ensures Buildable(Absorb(NoKnowledge, "4567", CheckGuess("4567", secret)), NonZeroDigits, "1289")
    ensures Absorb(Absorb(NoKnowledge, "4567", CheckGuess("4567", secret)), "1289", CheckGuess("1289", secret)) == Learned
  {
    FirstGuessIsValid();
    AfterFirstGuess(secret);
    SecondGuessBuildable();
    AfterSecondGuess(secret);
  }

  /** When stage 3 has no digit left to draw, it changes nothing. */
  lemma NothingLeftToFill(k: Knowledge, pool: set<char>, mid: seq<Slot>, slots: seq<Slot>)
    requires FillsFrom(k, pool, mid, slots)
    requires pool - SlotDigits(mid) - k.wrongDigits == {}
    ensures slots == mid
  {
    forall p | 0 <= p < |mid| ensures slots[p] == mid[p] {
    }
  }

  /** Slots holding '1', '2', one '3' and one empty slot join to "123". */
  lemma JoinWithOneEmpty(slots: seq<Slot>)
    requires |slots| == 4 && slots[0] == Filled('1') && slots[1] == Filled('2')
    requires (slots[2] == Filled('3') && slots[3] == Empty) || (slots[2] == Empty && slots[3] == Filled('3'))
    ensures Join(slots) == "123"
  {
    assert Join(slots[4..]) == "";
    assert Join(slots[3..]) == if slots[3] == Empty then "" else "3";
    assert Join(slots[2..]) == "3";
    assert Join(slots[1..]) == "23";
  }

  /** From `Learned`, stages 1 and 2 lock '1' and '2' and leave slots 2 and 3 empty. */
  lemma PlacedFromLearned(mid: seq<Slot>)
    requires Placed(Learned, mid)
    ensures mid == [Filled('1'), Filled('2'), Empty, Empty]
    ensures SlotDigits(mid) == {'1', '2'}
  {
    assert mid[0] == Filled('1') && mid[1] == Filled('2');
    SlotDigitsOfFour(mid);
  }

  /**
   * From `Learned`, slots 0 and 1 hold '1' and '2', stage 3 fills slot 2
   * with '3', the one digit of 1-9 neither placed nor known wrong, and slot 3
   * stays empty.
   */
  lemma LearnedSlots(slots: seq<Slot>)
    requires GuessShape(Learned, NonZeroDigits, slots)
    ensures slots == [Filled('1'), Filled('2'), Filled('3'), Empty]
  {
    var mid: seq<Slot> :| Placed(Learned, mid) && FillsFrom(Learned, NonZeroDigits, mid, slots);
    PlacedFromLearned(mid);
    assert NonZeroDigits - SlotDigits(mid) - Learned.wrongDigits == {'3'};
    SlotDigitsOfFour(slots);
    assert slots[2] == Filled('3');
    assert slots[3] == Empty;
  }

  /** From `Learned`, every run of the construction joins to "123". */
  lemma ShortGuessIsForced(slots: seq<Slot>)
    requires GuessShape(Learned, NonZeroDigits, slots)
    ensures Join(slots) == "123"
  {
    LearnedSlots(slots);
    JoinWithOneEmpty(slots);
  }

  /**
   * The feedback on "123" is no win against either number by the
   * full-length test, nor against "1203" by the source's test. It teaches
   * '3' at position 2 against "1230", and '3' misplaced against "1203".
   */
  lemma ThirdGuessFeedback(secret: string)
    requires secret == Secret || secret == OtherSecret
    ensures !IsWin(CheckGuess("123", secret), secret)
    ensures secret == OtherSecret ==> !AllCorrect(CheckGuess("123", secret))
    ensures Absorb(Learned, "123", CheckGuess("123", secret)) ==
            if secret == Secret then LearnedLocked else LearnedMisplaced
  {
    var result := CheckGuess("123", secret);
    var third := if secret == Secret then Correct else WrongPosition;
    assert result == [Mark('1', Correct), Mark('2', Correct), Mark('3', third)];
    assert LearnFrom(Learned, "123", result, 1) == Learned;
    assert LearnFrom(Learned, "123", result, 2) == Learned;
    assert result[2].status != Correct ==> !AllCorrect(result);
  }

  /** With '3' found at position 2, stages 1 and 2 lock '1', '2' and '3' and leave slot 3 empty. */
  lemma PlacedFromLocked(mid: seq<Slot>)
    requires Placed(LearnedLocked, mid)
    ensures mid == [Filled('1'), Filled('2'), Filled('3'), Empty]
    ensures SlotDigits(mid) == {'1', '2', '3'}
  {
    assert mid[0] == Filled('1') && mid[1] == Filled('2') && mid[2] == Filled('3');
    SlotDigitsOfFour(mid);
  }

  /** With '3' misplaced, stage 2 puts it into exactly one of slots 2 and 3. */
  lemma PlacedFromMisplaced(mid: seq<Slot>)
    requires Placed(LearnedMisplaced, mid)
    ensures (mid[2] == Filled('3') && mid[3] == Empty) || (mid[2] == Empty && mid[3] == Filled('3'))
    ensures mid[0] == Filled('1') && mid[1] == Filled('2')
    ensures SlotDigits(mid) == {'1', '2', '3'}
  {
    assert mid[0] == Filled('1') && mid[1] == Filled('2');
    assert NoMisplacedLocked(LearnedMisplaced);
    SlotDigitsOfFour(mid);
  }

  /**
   * After "123" against "1230" or "1203", every run of the source's
   * construction joins to "123" again. The guess is in the log, so the
   * retry loop `repeat … while computerGuesses.contains(guess)` never ends.
   */
  lemma RetryNeverEnds(secret: string, slots: seq<Slot>)
    requires secret == Secret || secret == OtherSecret
    requires GuessShape(Absorb(Learned, "123", CheckGuess("123", secret)), NonZeroDigits, slots)
    ensures Join(slots) == "123"
  {
    ThirdGuessFeedback(secret);
    if secret == Secret {
      var mid: seq<Slot> :| Placed(LearnedLocked, mid) && FillsFrom(LearnedLocked, NonZeroDigits, mid, slots);
      PlacedFromLocked(mid);
      NothingLeftToFill(LearnedLocked, NonZeroDigits, mid, slots);
    } else {
      var mid: seq<Slot> :| Placed(LearnedMisplaced, mid) && FillsFrom(LearnedMisplaced, NonZeroDigits, mid, slots);
      PlacedFromMisplaced(mid);
      NothingLeftToFill(LearnedMisplaced, NonZeroDigits, mid, slots);
    }
    JoinWithOneEmpty(slots);
  }

  /**
   * With all ten digits to fill from, the knowledge `Learned` leads to
   * "1203" or "1230": slots 2 and 3 take '0' and '3' in either order.
   */
  lemma FullPoolEscapes(slots: seq<Slot>)
    requires GuessShape(Learned, DecimalDigits, slots)
    ensures Join(slots) == "1203" || Join(slots) == "1230"
  {
    var mid: seq<Slot> :| Placed(Learned, mid) && FillsFrom(Learned, DecimalDigits, mid, slots);
    PlacedFromLearned(mid);
    assert DecimalDigits - SlotDigits(mid) - Learned.wrongDigits == {'0', '3'};
    SlotDigitsOfFour(slots);
    assert slots[2].Filled? && slots[3].Filled?;
    assert slots[2].digit != slots[3].digit;
    if slots[2] == Filled('0') {
      JoinFilled(slots, "1203");
    } else {
      JoinFilled(slots, "1230");
    }
  }
}
