# Number guessing game: a model of the game engine

The game is "Bulls and Cows" against the computer. Each side hides a
four-digit number with four different digits and a first digit other than
'0'. The two sides take turns guessing. Every guess gets one mark per digit:
Correct (right digit, right place), WrongPosition (the digit is elsewhere in
the number) or Incorrect (the digit is absent).

The computer keeps three pieces of knowledge from the feedback on its own
last guess:
- the positions it has found (`correctDigits`);
- digits it knows are present but misplaced (`wrongPositionDigits`);
- digits it knows are absent (`wrongDigits`).

It builds each new guess from that knowledge in three stages:
1. lock the found positions;
2. put misplaced digits into the open slots;
3. fill the remaining slots from 1-9 minus what is already placed and what is known to be absent.

It retries until the guess is new.

This project models the game logic of the iOS screen
`NumberGuessingGame/ViewController.swift` and proves properties of it. Its modules are:

- `Numbers` (`numbers.dfy`): `isValidNumber` and `generateComputerNumber`.
- `Scoring` (`scoring.dfy`): `checkGuess` and the win test.
- `Strategy` (`strategy.dfy`): the knowledge update and the three-stage guess construction of `makeSmartComputerGuess`.
  - The construction works in place on a 4-slot array, as the source does.
  - Its result is characterised stage by stage: `Placed` says what stages 1 and 2 can leave, `FillsFrom` what stage 3 can make of that, and `GuessShape` composes the two. Every run satisfies them.
  - The fill digits are a parameter. The source fills from 1-9; the session fills from 0-9 (see "## Findings").
- `Session` (`session.dfy`): class `Game`, which holds the screen's stored properties.
  - Its methods are `submitButtonTapped`, `makeComputerGuess`, `makeSmartComputerGuess`, `resetGame` and the dismiss continuation of the computer's guess popup.
  - `Valid()` is the invariant every method keeps. Once a game is started, both numbers are valid, the knowledge agrees with the player's number, and the computer's guess log has no repeats.
- `Findings` (`findings.dfy`): a game in which the source declares the computer the winner with a three-digit guess, and games in which its retry loop never ends (see "## Findings").

Randomness (`randomElement`, the iteration order of Swift sets and dictionaries) is modelled as nondeterministic choice (`:|`). Each property is therefore proved for every possible draw.

## Model

| member | source | states |
|---|---|---|
| Numbers.ValidNumberIff | NumberGuessingGame/ViewController.swift:330-338 | `isValidNumber` accepts exactly the strings of length 4 whose first character is not '0' and which have no repeated character (both directions). |
| Numbers.CharSetSize | NumberGuessingGame/ViewController.swift:334 | `Set(number).count` is at most the length. It equals the length exactly when no character repeats. |
| Numbers.ValidNumberExamples | NumberGuessingGame/ViewController.swift:330-338 | "1230" is valid. "0123" (leading zero), "1123" (repeat) and "123" (too short) are not. |
| Numbers.GenerateComputerNumber | NumberGuessingGame/ViewController.swift:150-170 | Every number the computer can pick is valid, and all its digits are in 1-9. |
| Scoring.CheckGuess | NumberGuessingGame/ViewController.swift:274-290 | One mark per guessed digit, carrying that digit. Each mark is Correct iff the digit matches the target at that position. It is WrongPosition iff it does not match there but occurs elsewhere. It is Incorrect iff the target lacks it. |
| Scoring.AllCorrectIffPrefix | NumberGuessingGame/ViewController.swift:260 | The source's win test (`allSatisfy` Correct) holds exactly when the guess is a prefix of the target, the whole target included. |
| Scoring.WinIff | NumberGuessingGame/ViewController.swift:316 | The win test that also demands one mark per target digit holds exactly when the guess equals the target. |
| Scoring.AllCorrectIsWinAtFullLength | NumberGuessingGame/ViewController.swift:311-316 | On a guess as long as the target (every guess of the player), the source's test and the full-length win test agree. |
| Scoring.SelfIsWin | NumberGuessingGame/ViewController.swift:274-290 | Guessing the target itself is a win. |
| Scoring.HitsCountSharedDigits | NumberGuessingGame/ViewController.swift:279-287 | For a guess without repeats, the Correct plus WrongPosition marks number exactly as many as the digits the guess and the target share. |
| Scoring.CheckGuessMixedExample | NumberGuessingGame/ViewController.swift:274-290 | "1243" against "1234" scores Correct, Correct, WrongPosition, WrongPosition. |
| Scoring.CheckGuessMissExample | NumberGuessingGame/ViewController.swift:274-290 | "5678" against "1234" scores four Incorrect marks. |
| Strategy.LearnFromSpec | NumberGuessingGame/ViewController.swift:194-205 | Folding in feedback records the guessed digit at exactly the Correct positions and leaves other recorded positions alone. WrongPosition and Incorrect digits join their sets, and nothing else changes. |
| Strategy.AbsorbIdempotent | NumberGuessingGame/ViewController.swift:189-205 | Folding in the same feedback twice gives the same knowledge as once. This is what each retry of `makeComputerGuess` does. |
| Strategy.AbsorbKeepsSound | NumberGuessingGame/ViewController.swift:190-205 | Feedback scored against the player's number keeps the knowledge true of that number. Nothing known is lost or changed. |
| Strategy.SoundSeparatesAbsent | NumberGuessingGame/ViewController.swift:83-85 | In knowledge true of the player's number, no absent digit is also misplaced or recorded at a position. |
| Strategy.Join | NumberGuessingGame/ViewController.swift:240 | `joined()` drops empty slots. The result has 4 characters exactly when no slot is empty; it then spells the slots in order. It holds exactly the placed digits. |
| Strategy.LockRecordedDigits | NumberGuessingGame/ViewController.swift:208-215 | Afterwards each recorded position holds its digit, every other slot is empty, and the open positions are {0..3} minus the recorded ones. |
| Strategy.PlaceWrongPositionDigits | NumberGuessingGame/ViewController.swift:217-225 | Locked slots are kept. Every digit placed in an open slot is a misplaced digit, different from every other placed digit, locked ones included. When no misplaced digit is also a locked one, no draw is refused, so an open slot stays empty only once every misplaced digit is placed. |
| Strategy.FillOpenSlots | NumberGuessingGame/ViewController.swift:227-238 | Slots filled before stage 3 keep their digits. Each newly filled slot takes a digit of the pool (1-9 in the source) that was neither placed before stage 3 nor known absent, and no two new digits are equal. Slots are filled left to right, so after a slot left empty no later open slot is filled. A slot stays empty only when every pool digit is placed or known absent. |
| Strategy.ConstructGuess | NumberGuessingGame/ViewController.swift:207-240 | Every build is the stage-3 fill of a stage-1-and-2 result, with all the properties of the two rows above (`GuessShape`). |
| Strategy.ShapeFacts | NumberGuessingGame/ViewController.swift:208-238 | In every build, each recorded position holds its digit, and every other digit is a misplaced digit or a pool digit not known absent. No digit repeats outside the recorded positions. A slot is empty only when the pool ran dry. |
| Strategy.MisplacedDigitsUsed | NumberGuessingGame/ViewController.swift:217-225 | With knowledge true of a 4-digit number without repeats, and no misplaced digit that is also recorded, every build holds every misplaced digit. |
| Strategy.FullPoolFillsEverySlot | NumberGuessingGame/ViewController.swift:227-238 | With fill digits 0-9 and knowledge true of a 4-digit number of decimal digits without repeats, no slot stays empty, so the joined guess has 4 digits. |
| Strategy.GuessAvoidsWrongDigits | NumberGuessingGame/ViewController.swift:227-238 | With knowledge true of the player's number, no digit known absent is placed again. |
| Strategy.GuessDigitsDistinct | NumberGuessingGame/ViewController.swift:208-238 | With knowledge true of a number without repeats, the built guess has no repeated digit. |
| Strategy.GuessValidIff | NumberGuessingGame/ViewController.swift:208-240 | With such knowledge, the joined guess is a valid number exactly when no slot stayed empty and slot 0 is not '0'. |
| Session.Game.constructor | NumberGuessingGame/ViewController.swift:83-91 | The initial values of the stored properties: no game, the player's turn, empty logs and knowledge. The invariant holds. |
| Session.Game.ResetGame | NumberGuessingGame/ViewController.swift:351-365 | Both numbers, both logs and the knowledge are cleared. No game is started and it is the player's turn again. The invariant holds. |
| Session.Game.AbsorbFeedback | NumberGuessingGame/ViewController.swift:194-205 | The loop leaves the knowledge fields equal to the old knowledge with the whole feedback folded in. |
| Session.Game.AbsorbLastGuess | NumberGuessingGame/ViewController.swift:189-205 | The knowledge becomes the old knowledge with the feedback on the last computer guess folded in. It refines the old knowledge, and the invariant holds. |
| Session.Game.MakeSmartComputerGuess | NumberGuessingGame/ViewController.swift:183-241 | The first guess is a valid number with digits 1-9 and leaves the knowledge alone. Later guesses absorb the last feedback and are buildable from the new knowledge, with fill digits 0-9. A guess never exceeds 4 characters, and has exactly 4 when the player's number is made of decimal digits. |
| Session.Game.ShowComputerGuess | NumberGuessingGame/ViewController.swift:249-256 | The guess is appended to the log, and the popup holds its feedback against the player's number. |
| Session.Game.DrawGuess | NumberGuessingGame/ViewController.swift:244-247 | However many retries run, the knowledge is the last feedback absorbed once. The final draw is a valid number with digits 1-9 (first guess) or buildable from that knowledge. |
| Session.Game.MakeComputerGuess | NumberGuessingGame/ViewController.swift:243-256 | A guess that is shown is new to the log and is appended to it, and its feedback is on screen. The first guess is always shown and is a valid number with digits 1-9; a later one is buildable from the knowledge after absorbing the last feedback. The log keeps no repeats. |
| Session.Game.StartGame | NumberGuessingGame/ViewController.swift:300-308 | The first valid number becomes the player's number. The computer's number is valid and uses only 1-9. The game is started, with the player to move. |
| Session.Game.TakePlayerGuess | NumberGuessingGame/ViewController.swift:309-327 | The feedback goes first in the history. A win resets the game. Otherwise the turn passes and the knowledge absorbs the feedback on the computer's last guess (none before its first). The computer's guess, always found on its first turn, is appended to its log and its feedback is on screen; with no new guess, nothing is shown. A first guess is a valid number with digits 1-9; a later one is buildable from the new knowledge. |
| Session.Game.SubmitButtonTapped | NumberGuessingGame/ViewController.swift:293-328 | An invalid number changes nothing. Otherwise the tap starts the game, takes the player's guess with the whole new state of the row above, or, while it is not the player's turn, changes nothing. The invariant holds in every case. |
| Session.Game.ComputerTurnFinished | NumberGuessingGame/ViewController.swift:256-270 | The computer wins exactly when its last guess equals the player's number, and the game is then reset. Otherwise it is the player's turn, and nothing else changes. |
| Findings.ShortGuessPassesSourceWinTest | NumberGuessingGame/ViewController.swift:260 | As written, the source's win test accepts the guess "123" against "1230", which is not the player's number. The full-length win test rejects it. |
| Findings.FirstGuessIsValid | NumberGuessingGame/ViewController.swift:184-186 | "4567" meets the generator's whole contract: a valid number with all digits in 1-9. |
| Findings.AfterFirstGuess | NumberGuessingGame/ViewController.swift:189-205 | After "4567" against "1230" or "1203", the computer knows only that 4, 5, 6 and 7 are absent. |
| Findings.AfterSecondGuess | NumberGuessingGame/ViewController.swift:189-205 | After "1289", the computer knows 1 and 2 at positions 0 and 1, and that 4-9 are absent. |
| Findings.SecondGuessBuildable | NumberGuessingGame/ViewController.swift:207-240 | "1289" meets the construction's contract from the knowledge left by "4567": stages 1 and 2 leave four empty slots, and stage 3 may fill them with 1, 2, 8 and 9. |
| Findings.ExampleGameMeetsContracts | NumberGuessingGame/ViewController.swift:183-241 | The two guesses above agree with the contract of each step that makes them, and they leave that knowledge. |
| Findings.LearnedSlots | NumberGuessingGame/ViewController.swift:208-238 | From that knowledge, the source's construction always builds '1', '2', '3' and an empty slot 3: '3' is the only fill digit left. |
| Findings.ShortGuessIsForced | NumberGuessingGame/ViewController.swift:208-240 | From that knowledge, every run of the construction joins to "123". |
| Findings.ThirdGuessFeedback | NumberGuessingGame/ViewController.swift:189-205 | "123" is no win by the full-length test against either number, nor by the source's test against "1203". Its feedback records '3' at position 2 ("1230") or as misplaced ("1203"). |
| Findings.RetryNeverEnds | NumberGuessingGame/ViewController.swift:243-247 | After that feedback, every run of the source's construction joins to "123" again, a guess already in the log. |
| Findings.FullPoolEscapes | NumberGuessingGame/ViewController.swift:227-238 | With fill digits 0-9, the knowledge after "4567" and "1289" leads to "1203" or "1230" instead of "123". |

## Left out

- The user interface: text fields, the collection view of past guesses, alerts, labels, the intro screen, and the popup's timer and animation. `ComputerGuessView.swift`, `GuessCell.swift` and `IntroViewController.swift` are not part of this model.
- The `print` of the computer's number (line 307): a debug output with no effect on the game.
- `possibleNumbers` and `initializePossibleNumbers` (lines 92, 172-181, 357): the set is never filled, so clearing it in `resetGame` has no effect on the game.
- How likely each outcome is: a uniform draw is modelled as an arbitrary choice, so the model proves what can happen, not how often.
- Session.Game.DrawGuess: the source retries without bound. Here at most `maxAttempts` draws follow the first.
- Session.Game.MakeComputerGuess: when all `maxAttempts` + 1 draws repeat a logged guess, it returns None and changes neither the log nor the popup, where the source would keep looping. The game then stays on the computer's turn with no popup, so every later tap with a valid number answers `NotPlayersTurn`.
- Session.Game.MakeSmartComputerGuess: it fills open slots from 0-9 (`Session.FillDigits`), where the source fills from 1-9 (see "## Findings"). The source's fill is `Strategy.ConstructGuess` with `NonZeroDigits`, which the findings lemmas use.
- Which guesses the draws actually reach: the stage predicates state what each stage guarantees, and every run satisfies them. That a given guess such as "1289" is reached by some sequence of draws follows from reading the source, not from a proof.
- Session.Game.SubmitButtonTapped: the number comes as one string. The four text fields, their `joined()` and the fields' digit-only input filter are not modelled, so non-digit characters are not excluded here. `isValidNumber` does not exclude them either.
- Session.Game.ComputerTurnFinished: it decides the computer's win with the corrected full-length test (see "## Findings"). The source's `allSatisfy` test as written is modelled by `Scoring.AllCorrect`.
- Characters stand for the source's one-character `String`s, and an empty slot `""` of the guess under construction is `Strategy.Slot.Empty`.

The model follows the code in these points:
- `generateComputerNumber` removes 0 from the pool before the first draw and never puts it back. So the computer's number never contains '0' (`Numbers.GenerateComputerNumber`). It is not drawn from the nine symbols other than the first digit.
- `isValidNumber` does not check that the characters are decimal digits. `Numbers.IsValidNumber` checks only length, the first character and distinctness.
- The three knowledge categories are not disjoint: a digit learned as misplaced stays in `wrongPositionDigits` after its position is found. Only `wrongDigits` is disjoint from the other two (`Strategy.SoundSeparatesAbsent`).
- The fill pool of stage 3 can run dry when the player's number contains '0' (see "## Findings"). The code then leaves slots empty and does not stop.

## Findings

| source | as written | input that shows it | evidently intended | confidence | as-written member | corrected member |
|---|---|---|---|---|---|---|
| NumberGuessingGame/ViewController.swift:227-260 | The fill pool excludes '0', so a slot can stay empty and `joined()` gives a guess of fewer than 4 digits. The dismiss closure's `allSatisfy` test declares the computer the winner whenever every mark of that shorter result is Correct. | Player's number "1230". The computer guesses "4567" (all Incorrect), then "1289" (1 and 2 Correct, 8 and 9 Incorrect). Its next guess is forced to be "123", which scores three Correct marks, so the computer "wins" without finding the number. | The computer wins only when its guess is the player's number: one Correct mark for each of the 4 target digits. | not executed | Findings.ShortGuessPassesSourceWinTest | Scoring.WinIff |
| NumberGuessingGame/ViewController.swift:227-247 | Once the knowledge forces a short guess that is already in the log, every later build repeats it. `repeat … while computerGuesses.contains(guess)` then never exits, and the screen hangs. | Player's number "1203". The computer guesses "4567", then "1289", then the forced "123", which scores Correct, Correct, WrongPosition. From then on every build joins to "123". | The fill pool holds every digit the player's number can contain, so from sound knowledge every build fills all four slots. | not executed | Findings.RetryNeverEnds | Strategy.FullPoolFillsEverySlot |

`Findings.ExampleGameMeetsContracts` shows that the input is consistent with the contract of every step a run takes. "4567" meets the generator's contract, "1289" meets the construction's contract from what "4567" teaches, and every build after "1289" joins to "123" (`Findings.ShortGuessIsForced`).

The corrected test `Scoring.IsWin` also demands one mark per target digit. The session uses it in `Session.Game.ComputerTurnFinished`, whose contract states that the computer wins exactly when its guess equals the player's number. For the player's guesses, which always have 4 digits, the two tests agree (`Scoring.AllCorrectIsWinAtFullLength`).

The corrected win test alone does not save the "1230" game: "123" is then no win, its feedback records '3' at position 2, and every later build joins to "123" again (`Findings.ThirdGuessFeedback`, `Findings.RetryNeverEnds`). With the source's fill, the model's `MakeComputerGuess` would return None there and the game would be stuck. The session therefore also fills from 0-9 (`Session.FillDigits`). From the knowledge after "4567" and "1289" it then builds "1203" or "1230" (`Findings.FullPoolEscapes`), and whenever the player's number is made of decimal digits every guess has 4 digits (`Session.Game.MakeSmartComputerGuess`). This does not prove that the retry loop always finds a new guess, so `MakeComputerGuess` keeps its bound.
