/**
 * The game screen's state and its turn logic: the player's and the
 * computer's numbers, whose turn it is, the opponent's knowledge, the
 * computer's guess log and the player's guess history.
 */
module Session {
  import opened Numbers
  import opened Scoring
  import opened Strategy

  datatype Option<T> = None | Some(value: T)

  /** What a tap on the submit button led to. */
  datatype Outcome =
    | Rejected                                // not a valid number: an alert, nothing else
    | Started                                 // the player's number stored, the computer's chosen
    | PlayerWon                               // the player found the computer's number; the game was reset
    | ComputerTurn(computerGuess: Option<string>)  // the computer guessed (None: no new guess found)
    | NotPlayersTurn                          // the computer's guess is still on screen

  /**
   * The digits the computer fills open slots from. The source's pool
   * `"123456789"` leaves out '0', which can leave a guess short of four digits
   * and the retry loop without a new guess; the game here uses all ten digits.
   */
  const FillDigits: set<char> := DecimalDigits

  /** The last element of a non-empty log. */
  function Last(log: seq<string>): string
    requires log != []
  {
    log[|log| - 1]
  }

  /** No entry of the log occurs twice. */
  predicate NoDuplicates(log: seq<string>)
  {
    forall i, j :: 0 <= i < j < |log| ==> log[i] != log[j]
  }

  class Game {
    var correctDigits: map<nat, char>
    var wrongPositionDigits: set<char>
    var wrongDigits: set<char>
    var playerNumber: string
    var computerNumber: string
    var isGameStarted: bool
    var isPlayerTurn: bool
    var computerGuesses: seq<string>
    var playerGuessHistory: seq<seq<Mark>>
    /** The feedback held by the dismiss closure of the computer's guess popup; None while no popup is up. */
    var shownComputerResult: Option<seq<Mark>>

    /** The opponent's knowledge fields as one value. */
    function Known(): Knowledge
      reads this
    {
      Knowledge(correctDigits, wrongPositionDigits, wrongDigits)
    }

    /** The state of a new game, and of every game after `resetGame`. */
    ghost predicate IsReset()
      reads this
    {
      && playerNumber == "" && computerNumber == ""
      && !isGameStarted && isPlayerTurn
      && computerGuesses == [] && playerGuessHistory == []
      && Known() == NoKnowledge
      && shownComputerResult == None
    }

    /**
     * The game's invariant: before the first valid number nothing is set;
     * afterwards both numbers are valid and the opponent's knowledge agrees
     * with the player's number; the computer never repeats a guess and no
     * guess is longer than 4; a popup shows the feedback on the last guess.
     */
    ghost predicate Valid()
      reads this
    {
      && (!isGameStarted ==> IsReset())
      && (isGameStarted ==>
            IsValidNumber(playerNumber) && IsValidNumber(computerNumber) && Sound(Known(), playerNumber))
      && NoDuplicates(computerGuesses)
      && (forall g :: g in computerGuesses ==> |g| <= 4)
      && (shownComputerResult.Some? ==>
            && isGameStarted && !isPlayerTurn && computerGuesses != []
            && shownComputerResult.value == CheckGuess(Last(computerGuesses), playerNumber))
    }

    /** The screen as it is loaded: no game yet. */
    constructor ()
      ensures Valid() && IsReset()
    {
      correctDigits, wrongPositionDigits, wrongDigits := map[], {}, {};
      playerNumber, computerNumber := "", "";
      isGameStarted, isPlayerTurn := false, true;
      computerGuesses, playerGuessHistory := [], [];
      shownComputerResult := None;
    }

    /** `resetGame`: clears both numbers, the logs and the knowledge; the player's turn again, no game started. */
    method ResetGame()
      modifies this
      ensures Valid() && IsReset()
    {
      playerNumber := "";
      computerNumber := "";
      isGameStarted := false;
      isPlayerTurn := true;
      computerGuesses := [];
      correctDigits := map[];
      wrongPositionDigits := {};
      wrongDigits := {};
      playerGuessHistory := [];
      shownComputerResult := None;
    }

    /**
     * The loop of the analysis half of `makeSmartComputerGuess`: each entry
     * of the feedback updates one of the three knowledge fields.
     */
    method AbsorbFeedback(lastGuess: string, lastGuessResult: seq<Mark>)
      requires |lastGuessResult| <= |lastGuess|
      modifies this`correctDigits, this`wrongPositionDigits, this`wrongDigits
      ensures Known() == Absorb(old(Known()), lastGuess, lastGuessResult)
    {
      for index := 0 to |lastGuessResult|
        invariant Known() == LearnFrom(old(Known()), lastGuess, lastGuessResult, index)
      {
        var digit := lastGuess[index];
        match lastGuessResult[index].status
        case Correct =>
          correctDigits := correctDigits[index := digit];
        case WrongPosition =>
          wrongPositionDigits := wrongPositionDigits + {digit};
        case Incorrect =>
          wrongDigits := wrongDigits + {digit};
      }
    }

    /**
     * The analysis half of `makeSmartComputerGuess`: the feedback on the last
     * computer guess, scored against the player's number, folded into the
     * three knowledge fields.
     */
    method AbsorbLastGuess()
      requires Valid() && isGameStarted && computerGuesses != []
      modifies this`correctDigits, this`wrongPositionDigits, this`wrongDigits
      ensures Known() == Absorb(old(Known()), Last(computerGuesses), CheckGuess(Last(computerGuesses), playerNumber))
      ensures Refines(old(Known()), Known())
      ensures Valid()
    {
      ghost var before := Known();
      var lastGuess := computerGuesses[|computerGuesses| - 1];
      var lastGuessResult := CheckGuess(lastGuess, playerNumber);
      AbsorbKeepsSound(before, lastGuess, playerNumber);
      AbsorbFeedback(lastGuess, lastGuessResult);
    }

    /**
     * `makeSmartComputerGuess`: a random valid number for the first guess;
     * afterwards the feedback on the last guess is absorbed and a guess is
     * built from the knowledge, with fill digits from `FillDigits`.
     */
    method MakeSmartComputerGuess() returns (guess: string)
      requires Valid() && isGameStarted
      modifies this`correctDigits, this`wrongPositionDigits, this`wrongDigits
      ensures Valid()
      ensures |guess| <= 4
      ensures (forall i :: 0 <= i < |playerNumber| ==> playerNumber[i] in DecimalDigits) ==> |guess| == 4
      ensures computerGuesses == [] ==>
                && IsValidNumber(guess) && (forall i :: 0 <= i < |guess| ==> guess[i] in NonZeroDigits)
                && Known() == old(Known())
      ensures computerGuesses != [] ==>
                && Known() == Absorb(old(Known()), Last(computerGuesses), CheckGuess(Last(computerGuesses), playerNumber))
                && Buildable(Known(), FillDigits, guess)
    {
      if computerGuesses == [] {
        guess := GenerateComputerNumber();
        return;
      }
      AbsorbLastGuess();
      var slots := ConstructGuess(Known(), FillDigits);
      guess := Join(slots);
      ShapeFacts(Known(), FillDigits, slots);
      if forall i :: 0 <= i < |playerNumber| ==> playerNumber[i] in DecimalDigits {
        ValidNumberIff(playerNumber);
        FullPoolFillsEverySlot(Known(), playerNumber, slots);
      }
    }

    /** The end of `makeComputerGuess`: the new guess is appended to the log and its feedback goes on screen. */
    method ShowComputerGuess(guess: string)
      requires Valid() && isGameStarted && !isPlayerTurn && shownComputerResult == None
      requires guess !in computerGuesses && |guess| <= 4
      modifies this`computerGuesses, this`shownComputerResult
      ensures Valid()
      ensures computerGuesses == old(computerGuesses) + [guess]
      ensures shownComputerResult == Some(CheckGuess(guess, playerNumber))
    {
      computerGuesses := computerGuesses + [guess];
      shownComputerResult := Some(CheckGuess(guess, playerNumber));
    }

    /**
     * The retry loop of `makeComputerGuess`: guesses are drawn while the
     * last one drawn is already in the log. The source retries without
     * bound; here at most `maxAttempts` draws follow the first.
     */
    method DrawGuess(maxAttempts: nat) returns (attempt: string)
      requires Valid() && isGameStarted && !isPlayerTurn && shownComputerResult == None
      modifies this`correctDigits, this`wrongPositionDigits, this`wrongDigits
      ensures Valid() && |attempt| <= 4
      ensures old(computerGuesses) == [] ==>
                && Known() == old(Known())
                && IsValidNumber(attempt) && (forall i :: 0 <= i < |attempt| ==> attempt[i] in NonZeroDigits)
      ensures old(computerGuesses) != [] ==>
                && Known() == Absorb(old(Known()), Last(computerGuesses), CheckGuess(Last(computerGuesses), playerNumber))
                && Buildable(Known(), FillDigits, attempt)
    {
      ghost var log := computerGuesses;
      ghost var learned := if log == [] then Known() else Absorb(Known(), Last(log), CheckGuess(Last(log), playerNumber));
      attempt := MakeSmartComputerGuess();
      var attempts := 1;
      while attempt in computerGuesses && attempts <= maxAttempts
        invariant Valid() && isGameStarted && !isPlayerTurn && shownComputerResult == None
        invariant computerGuesses == log
        invariant |attempt| <= 4
        invariant Known() == learned
        invariant log == [] ==> IsValidNumber(attempt) && forall i :: 0 <= i < |attempt| ==> attempt[i] in NonZeroDigits
        invariant log != [] ==> Buildable(learned, FillDigits, attempt)
        decreases maxAttempts + 1 - attempts
      {
        AbsorbIdempotent(old(Known()), Last(log), CheckGuess(Last(log), playerNumber));
        attempt := MakeSmartComputerGuess();
        attempts := attempts + 1;
      }
    }

    /**
     * `makeComputerGuess`: draw guesses until one is not in the log, then
     * append it and show its feedback. None means that none of the
     * `maxAttempts` + 1 draws was new.
     */
    method MakeComputerGuess(maxAttempts: nat) returns (guess: Option<string>)
      requires Valid() && isGameStarted && !isPlayerTurn && shownComputerResult == None
      modifies this`correctDigits, this`wrongPositionDigits, this`wrongDigits
      modifies this`computerGuesses, this`shownComputerResult
      ensures Valid()
      ensures old(computerGuesses) == [] ==>
                && Known() == old(Known()) && guess.Some? && IsValidNumber(guess.value)
                && (forall i :: 0 <= i < |guess.value| ==> guess.value[i] in NonZeroDigits)
      ensures old(computerGuesses) != [] ==>
                Known() == Absorb(old(Known()), Last(old(computerGuesses)), CheckGuess(Last(old(computerGuesses)), playerNumber))
      ensures guess.Some? ==>
                && guess.value !in old(computerGuesses)
                && computerGuesses == old(computerGuesses) + [guess.value]
                && shownComputerResult == Some(CheckGuess(guess.value, playerNumber))
                && (old(computerGuesses) != [] ==> Buildable(Known(), FillDigits, guess.value))
      ensures guess.None? ==> computerGuesses == old(computerGuesses) && shownComputerResult == None
    {
      var attempt := DrawGuess(maxAttempts);
      if attempt in computerGuesses {
        guess := None;
        return;
      }
      ShowComputerGuess(attempt);
      guess := Some(attempt);
    }

    /**
     * The first valid number of a game: it becomes the player's secret, the
     * computer picks its own, and the player moves first.
     */
    method StartGame(number: string)
      requires Valid() && !isGameStarted && IsValidNumber(number)
      modifies this
      ensures Valid()
      ensures playerNumber == number && isGameStarted && isPlayerTurn
      ensures IsValidNumber(computerNumber)
      ensures forall i :: 0 <= i < |computerNumber| ==> computerNumber[i] in NonZeroDigits
      ensures computerGuesses == [] && playerGuessHistory == [] && Known() == NoKnowledge
    {
      playerNumber := number;
      computerNumber := GenerateComputerNumber();
      isGameStarted := true;
      isPlayerTurn := true;
    }

    /**
     * A guess of the player's: its feedback goes first in the history; a win
     * resets the game, otherwise the computer takes its turn.
     */
    method TakePlayerGuess(number: string, maxAttempts: nat) returns (outcome: Outcome)
      requires Valid() && isGameStarted && isPlayerTurn && IsValidNumber(number)
      modifies this
      ensures Valid()
      ensures old(IsWin(CheckGuess(number, computerNumber), computerNumber)) ==> outcome == PlayerWon && IsReset()
      ensures !old(IsWin(CheckGuess(number, computerNumber), computerNumber)) ==>
                && outcome.ComputerTurn?
                && playerGuessHistory == [old(CheckGuess(number, computerNumber))] + old(playerGuessHistory)
                && playerNumber == old(playerNumber) && computerNumber == old(computerNumber)
                && isGameStarted && !isPlayerTurn
                && (outcome.computerGuess.Some? ==>
                      && outcome.computerGuess.value !in old(computerGuesses)
                      && computerGuesses == old(computerGuesses) + [outcome.computerGuess.value]
                      && shownComputerResult == Some(CheckGuess(outcome.computerGuess.value, playerNumber))
                      && (old(computerGuesses) == [] ==>
                            && IsValidNumber(outcome.computerGuess.value)
                            && forall i :: 0 <= i < |outcome.computerGuess.value| ==> outcome.computerGuess.value[i] in NonZeroDigits)
                      && (old(computerGuesses) != [] ==> Buildable(Known(), FillDigits, outcome.computerGuess.value)))
                && (outcome.computerGuess.None? ==> computerGuesses == old(computerGuesses) && shownComputerResult == None)
                && (old(computerGuesses) == [] ==> Known() == old(Known()) && outcome.computerGuess.Some?)
                && (old(computerGuesses) != [] ==>
                      Known() == Absorb(old(Known()), Last(old(computerGuesses)), CheckGuess(Last(old(computerGuesses)), old(playerNumber))))
    {
      var guessResult := CheckGuess(number, computerNumber);
      playerGuessHistory := [guessResult] + playerGuessHistory;
      if IsWin(guessResult, computerNumber) {
        ResetGame();
        outcome := PlayerWon;
        return;
      }
      isPlayerTurn := false;
      var computerGuess := MakeComputerGuess(maxAttempts);
      outcome := ComputerTurn(computerGuess);
    }

    /**
     * `submitButtonTapped`, game-state part: an invalid number changes
     * nothing; the first valid number starts the game; later numbers are the
     * player's guesses while it is the player's turn.
     */
    method SubmitButtonTapped(number: string, maxAttempts: nat) returns (outcome: Outcome)
      requires Valid()
      modifies this
      ensures Valid()
      ensures !IsValidNumber(number) ==> outcome == Rejected && unchanged(this)
      ensures IsValidNumber(number) && !old(isGameStarted) ==>
                && outcome == Started
                && playerNumber == number && isGameStarted && isPlayerTurn
                && IsValidNumber(computerNumber)
                && (forall i :: 0 <= i < |computerNumber| ==> computerNumber[i] in NonZeroDigits)
                && computerGuesses == [] && playerGuessHistory == [] && Known() == NoKnowledge
      ensures IsValidNumber(number) && old(isGameStarted) && !old(isPlayerTurn) ==>
                outcome == NotPlayersTurn && unchanged(this)
      ensures IsValidNumber(number) && old(isGameStarted) && old(isPlayerTurn) && old(IsWin(CheckGuess(number, computerNumber), computerNumber)) ==>
                outcome == PlayerWon && IsReset()
      ensures IsValidNumber(number) && old(isGameStarted) && old(isPlayerTurn) && !old(IsWin(CheckGuess(number, computerNumber), computerNumber)) ==>
                && outcome.ComputerTurn?
                && playerGuessHistory == [old(CheckGuess(number, computerNumber))] + old(playerGuessHistory)
                && playerNumber == old(playerNumber) && computerNumber == old(computerNumber)
                && isGameStarted && !isPlayerTurn
                && (outcome.computerGuess.Some? ==>
                      && outcome.computerGuess.value !in old(computerGuesses)
                      && computerGuesses == old(computerGuesses) + [outcome.computerGuess.value]
                      && shownComputerResult == Some(CheckGuess(outcome.computerGuess.value, playerNumber))
                      && (old(computerGuesses) == [] ==>
                            && IsValidNumber(outcome.computerGuess.value)
                            && forall i :: 0 <= i < |outcome.computerGuess.value| ==> outcome.computerGuess.value[i] in NonZeroDigits)
                      && (old(computerGuesses) != [] ==> Buildable(Known(), FillDigits, outcome.computerGuess.value)))
                && (outcome.computerGuess.None? ==> computerGuesses == old(computerGuesses) && shownComputerResult == None)
                && (old(computerGuesses) == [] ==> Known() == old(Known()) && outcome.computerGuess.Some?)
                && (old(computerGuesses) != [] ==>
                      Known() == Absorb(old(Known()), Last(old(computerGuesses)), CheckGuess(Last(old(computerGuesses)), old(playerNumber))))
    {
      if !IsValidNumber(number) {
        outcome := Rejected;
        return;
      }
      if !isGameStarted {
        StartGame(number);
        outcome := Started;
      } else if isPlayerTurn {
        outcome := TakePlayerGuess(number, maxAttempts);
      } else {
        outcome := NotPlayersTurn;
      }
    }

    /**
     * The dismiss continuation of the computer's guess popup: if the shown
     * feedback is a win the game is reset, otherwise it is the player's turn.
     */
    method ComputerTurnFinished() returns (computerWon: bool)
      requires Valid() && shownComputerResult.Some?
      modifies this
      ensures Valid()
      ensures computerWon <==> old(Last(computerGuesses)) == old(playerNumber)
      ensures computerWon ==> IsReset()
      ensures !computerWon ==>
                && isPlayerTurn && shownComputerResult == None
                && playerNumber == old(playerNumber) && computerNumber == old(computerNumber)
                && isGameStarted && Known() == old(Known())
                && computerGuesses == old(computerGuesses) && playerGuessHistory == old(playerGuessHistory)
    {
      var guessResult := shownComputerResult.value;
      WinIff(Last(computerGuesses), playerNumber);
      shownComputerResult := None;
      if IsWin(guessResult, playerNumber) {
        ResetGame();
        computerWon := true;
        return;
      }
      isPlayerTurn := true;
      computerWon := false;
    }
  }
}
