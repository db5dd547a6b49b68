/**
 * The computer opponent's strategy: what it learns from the feedback on its
 * last guess, and how it builds its next guess from what it knows.
 */
module Strategy {
  import opened Numbers
  import opened Scoring

  /**
   * What the opponent knows about the player's number: the digit confirmed at
   * each position, the digits known to be present elsewhere, and the digits
   * known to be absent.
   */
  datatype Knowledge = Knowledge(
    correctDigits: map<nat, char>,
    wrongPositionDigits: set<char>,
    wrongDigits: set<char>)

  /** The knowledge of a new game: nothing. */
  const NoKnowledge := Knowledge(map[], {}, {})

  /** One entry of the feedback folded into the knowledge. */
  function Learn(k: Knowledge, index: nat, digit: char, status: GuessStatus): Knowledge
  {
    match status
    case Correct => k.(correctDigits := k.correctDigits[index := digit])
    case WrongPosition => k.(wrongPositionDigits := k.wrongPositionDigits + {digit})
    case Incorrect => k.(wrongDigits := k.wrongDigits + {digit})
  }

  /** The first `n` entries of the feedback on `guess` folded in, in order. */
  function LearnFrom(k: Knowledge, guess: string, result: seq<Mark>, n: nat): Knowledge
    requires n <= |result| <= |guess|
  {
    if n == 0 then k
    else Learn(LearnFrom(k, guess, result, n - 1), n - 1, guess[n - 1], result[n - 1].status)
  }

  /** All the feedback on `guess` folded in. */
  function Absorb(k: Knowledge, guess: string, result: seq<Mark>): Knowledge
    requires |result| <= |guess|
  {
    LearnFrom(k, guess, result, |result|)
  }

  /** The positions among the first `n` that were marked Correct. */
  function CorrectPositions(result: seq<Mark>, n: nat): set<nat>
    requires n <= |result|
  {
    set i | 0 <= i < n && result[i].status == Correct
  }

  /** The guessed digits among the first `n` that were marked `status`. */
  function DigitsMarked(guess: string, result: seq<Mark>, n: nat, status: GuessStatus): set<char>
    requires n <= |result| <= |guess|
  {
    set i | 0 <= i < n && result[i].status == status :: guess[i]
  }

  /**
   * What folding in the feedback does, stated without the fold: each Correct
   * position records its digit, the WrongPosition and Incorrect digits join
   * their sets, and nothing else changes.
   */
  lemma {:induction false} LearnFromSpec(k: Knowledge, guess: string, result: seq<Mark>, n: nat)
    requires n <= |result| <= |guess|
    ensures var r := LearnFrom(k, guess, result, n);
      && r.correctDigits.Keys == k.correctDigits.Keys + CorrectPositions(result, n)
      && (forall i :: i in CorrectPositions(result, n) ==> r.correctDigits[i] == guess[i])
      && (forall i :: i in k.correctDigits && i !in CorrectPositions(result, n) ==>
            r.correctDigits[i] == k.correctDigits[i])
      && r.wrongPositionDigits == k.wrongPositionDigits + DigitsMarked(guess, result, n, WrongPosition)
      && r.wrongDigits == k.wrongDigits + DigitsMarked(guess, result, n, Incorrect)
  {
    if n > 0 {
      LearnFromSpec(k, guess, result, n - 1);
      var m := n - 1;
      assert CorrectPositions(result, n) ==
             CorrectPositions(result, m) + (if result[m].status == Correct then {m} else {});
      assert DigitsMarked(guess, result, n, WrongPosition) ==
             DigitsMarked(guess, result, m, WrongPosition) + (if result[m].status == WrongPosition then {guess[m]} else {});
      assert DigitsMarked(guess, result, n, Incorrect) ==
             DigitsMarked(guess, result, m, Incorrect) + (if result[m].status == Incorrect then {guess[m]} else {});
    }
  }

  /** Folding in the same feedback a second time changes nothing (the retry loop does exactly that). */
  lemma AbsorbIdempotent(k: Knowledge, guess: string, result: seq<Mark>)
    requires |result| <= |guess|
    ensures Absorb(Absorb(k, guess, result), guess, result) == Absorb(k, guess, result)
  {
    var once := Absorb(k, guess, result);
    var twice := Absorb(once, guess, result);
    LearnFromSpec(k, guess, result, |result|);
    LearnFromSpec(once, guess, result, |result|);
    assert twice.correctDigits.Keys == once.correctDigits.Keys;
    assert twice.correctDigits == once.correctDigits;
  }

  /**
   * The knowledge agrees with the secret it was learned from: every recorded
   * position holds its digit there, every wrong-position digit is in the
   * secret and no wrong digit is.
   */
  predicate Sound(k: Knowledge, secret: string)
  {
    && (forall i :: i in k.correctDigits ==> 0 <= i < |secret| && secret[i] == k.correctDigits[i])
    && (forall c :: c in k.wrongPositionDigits ==> c in secret)
    && (forall c :: c in k.wrongDigits ==> c !in secret)
  }

  /** `later` keeps everything `earlier` knew: no position forgotten or changed, no digit dropped. */
  ghost predicate Refines(earlier: Knowledge, later: Knowledge)
  {
    && (forall i :: i in earlier.correctDigits ==>
          i in later.correctDigits && later.correctDigits[i] == earlier.correctDigits[i])
    && earlier.wrongPositionDigits <= later.wrongPositionDigits
    && earlier.wrongDigits <= later.wrongDigits
  }

  /**
   * Feedback scored against the secret only adds information: the result still
   * agrees with the secret and keeps everything known before.
   */
  lemma AbsorbKeepsSound(k: Knowledge, guess: string, secret: string)
    requires Sound(k, secret) && |guess| <= |secret|
    ensures Sound(Absorb(k, guess, CheckGuess(guess, secret)), secret)
    ensures Refines(k, Absorb(k, guess, CheckGuess(guess, secret)))
  {
    var result := CheckGuess(guess, secret);
    LearnFromSpec(k, guess, result, |result|);
  }

  /** Sound knowledge never files a digit both as absent and as present. */
  lemma SoundSeparatesAbsent(k: Knowledge, secret: string)
    requires Sound(k, secret)
    ensures k.wrongDigits !! k.wrongPositionDigits
    ensures forall i :: i in k.correctDigits ==> k.correctDigits[i] !in k.wrongDigits
  {
  }

  /** A slot of the guess under construction: `""` in the source, or one digit. */
  datatype Slot = Empty | Filled(digit: char)

  /** The digits already placed. */
  function SlotDigits(slots: seq<Slot>): set<char>
  {
    set p | 0 <= p < |slots| && slots[p].Filled? :: slots[p].digit
  }

  /** `newGuess.joined()`: the placed digits in slot order, empty slots dropped. */
  function Join(slots: seq<Slot>): (s: string)
    ensures |s| <= |slots|
    ensures |s| == |slots| <==> forall p :: 0 <= p < |slots| ==> slots[p].Filled?
    ensures (forall p :: 0 <= p < |slots| ==> slots[p].Filled?) ==>
              forall p :: 0 <= p < |slots| ==> s[p] == slots[p].digit
    ensures forall c :: c in s <==> c in SlotDigits(slots)
  {
    if slots == [] then ""
    else
      var rest := Join(slots[1..]);
      assert forall p :: 1 <= p < |slots| ==> slots[p] == slots[1..][p - 1];
      if slots[0].Filled? then [slots[0].digit] + rest else rest
  }

  /** Slots that are all filled join to their digits in order. */
  lemma JoinFilled(slots: seq<Slot>, s: string)
    requires |slots| == |s|
    requires forall p :: 0 <= p < |slots| ==> slots[p] == Filled(s[p])
    ensures Join(slots) == s
  {
  }

  /** Every recorded position holds its recorded digit. */
  ghost predicate LocksKept(k: Knowledge, slots: seq<Slot>)
  {
    forall i :: i in k.correctDigits ==> 0 <= i < |slots| && slots[i] == Filled(k.correctDigits[i])
  }

  /** Every digit in a slot without a recorded digit is a wrong-position digit. */
  ghost predicate OpenSlotsMisplaced(k: Knowledge, slots: seq<Slot>)
  {
    forall p :: 0 <= p < |slots| && p !in k.correctDigits && slots[p].Filled? ==>
      slots[p].digit in k.wrongPositionDigits
  }

  /** No digit is placed twice, except where two recorded positions repeat one. */
  ghost predicate NoRepeatOutsideLocks(k: Knowledge, slots: seq<Slot>)
  {
    forall a, b :: 0 <= a < b < |slots| && slots[a].Filled? && slots[b].Filled? &&
                   !(a in k.correctDigits && b in k.correctDigits) ==>
      slots[a].digit != slots[b].digit
  }

  /** No wrong-position digit is also a recorded digit, so stage 2 never draws a digit the guess holds. */
  predicate NoMisplacedLocked(k: Knowledge)
  {
    forall i :: i in k.correctDigits ==> k.correctDigits[i] !in k.wrongPositionDigits
  }

  /**
   * When no draw can be refused, stage 2 leaves an open slot empty only once
   * every wrong-position digit is placed.
   */
  ghost predicate MisplacedExhausted(k: Knowledge, slots: seq<Slot>)
  {
    NoMisplacedLocked(k) ==>
      forall p :: 0 <= p < |slots| && p !in k.correctDigits && slots[p] == Empty ==>
        k.wrongPositionDigits <= SlotDigits(slots)
  }

  /** What stages 1 and 2 can leave in the 4-slot array. */
  ghost predicate Placed(k: Knowledge, mid: seq<Slot>)
  {
    && |mid| == 4
    && LocksKept(k, mid)
    && OpenSlotsMisplaced(k, mid)
    && NoRepeatOutsideLocks(k, mid)
    && MisplacedExhausted(k, mid)
  }

  /**
   * What stage 3 can make of `mid` with fill digits from `pool`: placed
   * digits are kept; each newly filled slot takes a different digit of the
   * pool that is neither placed in `mid` nor known wrong; slots are filled
   * left to right; and a slot stays empty only when that supply is used up.
   */
  ghost predicate FillsFrom(k: Knowledge, pool: set<char>, mid: seq<Slot>, slots: seq<Slot>)
  {
    && |slots| == |mid|
    && (forall p :: 0 <= p < |mid| && mid[p].Filled? ==> slots[p] == mid[p])
    && (forall p :: 0 <= p < |mid| && mid[p] == Empty && slots[p].Filled? ==>
          slots[p].digit in pool - SlotDigits(mid) - k.wrongDigits)
    && (forall a, b :: 0 <= a < b < |mid| && mid[a] == Empty && mid[b] == Empty ==>
          slots[a].Filled? && slots[b].Filled? ==> slots[a].digit != slots[b].digit)
    && (forall p, q :: 0 <= p < q < |mid| && slots[p] == Empty ==> slots[q] == mid[q])
    && (forall p :: 0 <= p < |slots| && slots[p] == Empty ==> pool <= k.wrongDigits + SlotDigits(slots))
  }

  /** What a run of the three construction stages can produce from knowledge `k`, with fill digits from `pool`. */
  ghost predicate GuessShape(k: Knowledge, pool: set<char>, slots: seq<Slot>)
  {
    exists mid :: Placed(k, mid) && FillsFrom(k, pool, mid, slots)
  }

  /** The guesses that some run of the construction can join from knowledge `k`. */
  ghost predicate Buildable(k: Knowledge, pool: set<char>, guess: string)
  {
    exists slots :: GuessShape(k, pool, slots) && Join(slots) == guess
  }

  /** Filling an empty slot adds its digit to the placed digits. */
  lemma SlotDigitsFill(slots: seq<Slot>, p: nat, d: char)
    requires p < |slots| && slots[p] == Empty
    ensures SlotDigits(slots[p := Filled(d)]) == SlotDigits(slots) + {d}
  {
    var after := slots[p := Filled(d)];
    assert after[p].digit == d;
    forall c | c in SlotDigits(slots) ensures c in SlotDigits(after) {
      var q :| 0 <= q < |slots| && slots[q].Filled? && slots[q].digit == c;
      assert after[q] == slots[q];
    }
  }

  /** Slots that keep every filled slot of `mid` hold all of its digits. */
  lemma SlotDigitsKept(mid: seq<Slot>, slots: seq<Slot>)
    requires |slots| == |mid|
    requires forall p :: 0 <= p < |mid| && mid[p].Filled? ==> slots[p] == mid[p]
    ensures SlotDigits(mid) <= SlotDigits(slots)
  {
    forall c | c in SlotDigits(mid) ensures c in SlotDigits(slots) {
      var p :| 0 <= p < |mid| && mid[p].Filled? && mid[p].digit == c;
      assert slots[p] == mid[p];
    }
  }

  /** Stage 1 of the construction: each recorded position gets its digit and leaves the open positions. */
  method LockRecordedDigits(k: Knowledge, newGuess: array<Slot>) returns (availablePositions: set<nat>)
    requires newGuess.Length == 4 && forall i :: 0 <= i < 4 ==> newGuess[i] == Empty
    requires forall i :: i in k.correctDigits ==> 0 <= i < 4
    modifies newGuess
    ensures forall i :: 0 <= i < 4 ==>
              newGuess[i] == if i in k.correctDigits then Filled(k.correctDigits[i]) else Empty
    ensures availablePositions == {0, 1, 2, 3} - k.correctDigits.Keys
  {
    availablePositions := {0, 1, 2, 3};
    var toLock := k.correctDigits.Keys;
    while toLock != {}
      invariant toLock <= k.correctDigits.Keys
      invariant availablePositions == {0, 1, 2, 3} - (k.correctDigits.Keys - toLock)
      invariant forall i :: 0 <= i < 4 ==>
                  newGuess[i] == if i in k.correctDigits && i !in toLock then Filled(k.correctDigits[i]) else Empty
      decreases toLock
    {
      var index: nat :| index in toLock;
      newGuess[index] := Filled(k.correctDigits[index]);
      availablePositions := availablePositions - {index};
      toLock := toLock - {index};
    }
  }

  /**
   * Stage 2: each open position, in any order, draws a remaining
   * wrong-position digit and takes it only when the guess does not hold it
   * yet; a slot whose draw is refused stays open.
   */
  method PlaceWrongPositionDigits(k: Knowledge, newGuess: array<Slot>, availablePositions: set<nat>)
    requires newGuess.Length == 4
    requires forall i :: i in k.correctDigits ==> 0 <= i < 4
    requires forall i :: 0 <= i < 4 ==>
               newGuess[i] == if i in k.correctDigits then Filled(k.correctDigits[i]) else Empty
    requires availablePositions == {0, 1, 2, 3} - k.correctDigits.Keys
    modifies newGuess
    ensures LocksKept(k, newGuess[..])
    ensures OpenSlotsMisplaced(k, newGuess[..])
    ensures NoRepeatOutsideLocks(k, newGuess[..])
    ensures MisplacedExhausted(k, newGuess[..])
  {
    var remainingWrongPositionDigits := k.wrongPositionDigits;
    var toVisit := availablePositions;
    while toVisit != {}
      invariant toVisit <= availablePositions
      invariant remainingWrongPositionDigits <= k.wrongPositionDigits
      invariant LocksKept(k, newGuess[..])
      invariant forall p :: p in toVisit ==> newGuess[p] == Empty
      invariant forall p :: 0 <= p < 4 && p !in k.correctDigits && newGuess[p].Filled? ==>
                  newGuess[p].digit in k.wrongPositionDigits && newGuess[p].digit !in remainingWrongPositionDigits
      invariant NoRepeatOutsideLocks(k, newGuess[..])
      invariant k.wrongPositionDigits - remainingWrongPositionDigits <= SlotDigits(newGuess[..])
      invariant NoMisplacedLocked(k) ==>
                  forall p :: p in availablePositions - toVisit && newGuess[p] == Empty ==> remainingWrongPositionDigits == {}
      decreases toVisit
    {
      var position: nat :| position in toVisit;
      if remainingWrongPositionDigits != {} {
        var digit :| digit in remainingWrongPositionDigits;
        if Filled(digit) !in newGuess[..] {
          SlotDigitsFill(newGuess[..], position, digit);
          newGuess[position] := Filled(digit);
          remainingWrongPositionDigits := remainingWrongPositionDigits - {digit};
        } else {
          var q :| 0 <= q < 4 && newGuess[q] == Filled(digit);
          assert q in k.correctDigits && k.correctDigits[q] in k.wrongPositionDigits;
        }
      }
      toVisit := toVisit - {position};
    }
  }

  /**
   * Stage 3: each slot still open, left to right, takes a digit of `pool`
   * (the source's is 1-9) minus the placed digits minus the wrong digits,
   * while any is left.
   */
  method FillOpenSlots(k: Knowledge, pool: set<char>, newGuess: array<Slot>)
    requires newGuess.Length == 4
    modifies newGuess
    ensures FillsFrom(k, pool, old(newGuess[..]), newGuess[..])
  {
    ghost var mid := newGuess[..];
    var usedDigits := SlotDigits(newGuess[..]);
    var availableDigits := pool;
    availableDigits := availableDigits - usedDigits;
    availableDigits := availableDigits - k.wrongDigits;
    for position := 0 to 4
      invariant availableDigits == pool - SlotDigits(newGuess[..]) - k.wrongDigits
      invariant forall p :: 0 <= p < 4 && mid[p].Filled? ==> newGuess[p] == mid[p]
      invariant forall p :: position <= p < 4 ==> newGuess[p] == mid[p]
      invariant SlotDigits(mid) <= SlotDigits(newGuess[..])
      invariant forall p :: 0 <= p < 4 && mid[p] == Empty && newGuess[p].Filled? ==>
                  newGuess[p].digit in pool - SlotDigits(mid) - k.wrongDigits
      invariant forall a, b :: 0 <= a < b < 4 && mid[a] == Empty && mid[b] == Empty ==>
                  newGuess[a].Filled? && newGuess[b].Filled? ==> newGuess[a].digit != newGuess[b].digit
      invariant forall p :: 0 <= p < position && newGuess[p] == Empty ==> availableDigits == {}
      invariant forall p, q :: 0 <= p < q < position && newGuess[p] == Empty ==> newGuess[q] == mid[q]
    {
      if newGuess[position] == Empty {
        if availableDigits != {} {
          var digit :| digit in availableDigits;
          SlotDigitsFill(newGuess[..], position, digit);
          newGuess[position] := Filled(digit);
          availableDigits := availableDigits - {digit};
        }
      }
    }
    forall p | 0 <= p < 4 && newGuess[p] == Empty
      ensures pool <= k.wrongDigits + SlotDigits(newGuess[..])
    {
      assert availableDigits == {};
      forall c | c in pool && c !in k.wrongDigits ensures c in SlotDigits(newGuess[..]) {
        assert c !in availableDigits;
      }
    }
  }

  /**
   * The construction half of `makeSmartComputerGuess`: the three stages on a
   * fresh 4-slot array of empty slots.
   */
  method ConstructGuess(k: Knowledge, pool: set<char>) returns (slots: seq<Slot>)
    requires forall i :: i in k.correctDigits ==> 0 <= i < 4
    ensures GuessShape(k, pool, slots)
  {
    var newGuess := new Slot[4](_ => Empty);
    var availablePositions := LockRecordedDigits(k, newGuess);
    PlaceWrongPositionDigits(k, newGuess, availablePositions);
    ghost var mid := newGuess[..];
    FillOpenSlots(k, pool, newGuess);
    slots := newGuess[..];
    assert Placed(k, mid) && FillsFrom(k, pool, mid, slots);
  }

  /** Every placed digit outside the recorded positions is a wrong-position digit or a pool digit not known wrong. */
  ghost predicate FromKnowledge(k: Knowledge, pool: set<char>, slots: seq<Slot>)
  {
    forall p :: 0 <= p < |slots| && p !in k.correctDigits && slots[p].Filled? ==>
      slots[p].digit in k.wrongPositionDigits || slots[p].digit in pool - k.wrongDigits
  }

  /**
   * What every run of the construction guarantees about its result: the
   * recorded digits stay in place, every other digit is a wrong-position digit
   * or a fill digit, no digit is placed twice outside the recorded positions,
   * and a slot stays empty only when the fill digits ran out.
   */
  lemma ShapeFacts(k: Knowledge, pool: set<char>, slots: seq<Slot>)
    requires GuessShape(k, pool, slots)
    ensures |slots| == 4 && LocksKept(k, slots) && FromKnowledge(k, pool, slots)
    ensures NoRepeatOutsideLocks(k, slots)
    ensures forall p :: 0 <= p < 4 && slots[p] == Empty ==> pool <= k.wrongDigits + SlotDigits(slots)
  {
    var mid: seq<Slot> :| Placed(k, mid) && FillsFrom(k, pool, mid, slots);
    forall a, b | 0 <= a < b < 4 && slots[a].Filled? && slots[b].Filled? && !(a in k.correctDigits && b in k.correctDigits)
      ensures slots[a].digit != slots[b].digit
    {
      if mid[a].Filled? && mid[b].Filled? {
      } else if mid[a].Filled? {
        assert slots[a].digit in SlotDigits(mid);
      } else if mid[b].Filled? {
        assert slots[b].digit in SlotDigits(mid);
      }
    }
  }

  /** With sound knowledge, no placed digit is one known to be absent. */
  lemma GuessAvoidsWrongDigits(k: Knowledge, pool: set<char>, secret: string, slots: seq<Slot>)
    requires Sound(k, secret) && GuessShape(k, pool, slots)
    ensures forall p :: 0 <= p < 4 && slots[p].Filled? ==> slots[p].digit !in k.wrongDigits
  {
    ShapeFacts(k, pool, slots);
  }

  /** With sound knowledge of a secret without repeats, the placed digits are pairwise different. */
  lemma GuessDigitsDistinct(k: Knowledge, pool: set<char>, secret: string, slots: seq<Slot>)
    requires Sound(k, secret) && Distinct(secret) && GuessShape(k, pool, slots)
    ensures forall a, b :: 0 <= a < b < 4 && slots[a].Filled? && slots[b].Filled? ==> slots[a].digit != slots[b].digit
  {
    ShapeFacts(k, pool, slots);
    forall a, b | 0 <= a < b < 4 && slots[a].Filled? && slots[b].Filled?
      ensures slots[a].digit != slots[b].digit
    {
      if a in k.correctDigits && b in k.correctDigits {
        assert slots[a].digit == secret[a] && slots[b].digit == secret[b];
      }
    }
  }

  /**
   * With sound knowledge of a secret without repeats, the joined guess is a
   * valid number exactly when no slot stayed empty and slot 0 is not '0'.
   */
  lemma GuessValidIff(k: Knowledge, pool: set<char>, secret: string, slots: seq<Slot>)
    requires Sound(k, secret) && Distinct(secret) && GuessShape(k, pool, slots)
    ensures IsValidNumber(Join(slots)) <==>
            (forall p :: 0 <= p < 4 ==> slots[p].Filled?) && slots[0] != Filled('0')
  {
    ShapeFacts(k, pool, slots);
    var s := Join(slots);
    ValidNumberIff(s);
    GuessDigitsDistinct(k, pool, secret, slots);
  }

  /**
   * A set of positions has at least as many elements as the digits `f`
   * assigns to them, and exactly as many when no two share a digit.
   */
  lemma {:induction false} ImageSize(positions: set<nat>, f: nat -> char)
    ensures |set p | p in positions :: f(p)| <= |positions|
    ensures (forall a, b :: a in positions && b in positions && a != b ==> f(a) != f(b)) ==>
              |set p | p in positions :: f(p)| == |positions|
    decreases positions
  {
    if positions != {} {
      var x :| x in positions;
      var rest := positions - {x};
      ImageSize(rest, f);
      assert (set p | p in positions :: f(p)) == (set p | p in rest :: f(p)) + {f(x)};
      if forall a, b :: a in positions && b in positions && a != b ==> f(a) != f(b) {
        assert f(x) !in (set p | p in rest :: f(p));
      }
    }
  }

  /** A subset is no larger than its superset. */
  lemma SubsetSize<T>(small: set<T>, large: set<T>)
    requires small <= large
    ensures |small| <= |large|
  {
    assert large == small + (large - small);
  }

  /** A subset as large as its superset is the superset. */
  lemma SubsetOfSameSize<T>(small: set<T>, large: set<T>)
    requires small <= large && |large| <= |small|
    ensures small == large
  {
    assert large == small + (large - small);
  }

  /**
   * When stage 2 filled every open slot of `mid`, with sound knowledge of a
   * 4-digit secret without repeats and no recorded wrong-position digit, the
   * open slots hold every wrong-position digit: each of those digits sits at
   * an open position of the secret, and the open slots hold as many
   * different wrong-position digits as there are open positions.
   */
  lemma OpenSlotsHoldAllMisplaced(k: Knowledge, secret: string, mid: seq<Slot>)
    requires Sound(k, secret) && |secret| == 4 && Distinct(secret) && NoMisplacedLocked(k)
    requires Placed(k, mid)
    requires forall p :: 0 <= p < 4 && p !in k.correctDigits ==> mid[p].Filled?
    ensures k.wrongPositionDigits <= SlotDigits(mid)
  {
    var open := set p: nat | p < 4 && p !in k.correctDigits;
    var placedAt: nat -> char := (p: nat) => if p < 4 && mid[p].Filled? then mid[p].digit else '0';
    var secretAt: nat -> char := (p: nat) => if p < 4 then secret[p] else '0';
    var placed := set p | p in open :: placedAt(p);
    var hidden := set p | p in open :: secretAt(p);
    forall a, b | a in open && b in open && a != b ensures placedAt(a) != placedAt(b) {
      if a < b {
        assert mid[a].digit != mid[b].digit;
      } else {
        assert mid[b].digit != mid[a].digit;
      }
    }
    ImageSize(open, placedAt);
    ImageSize(open, secretAt);
    forall c | c in placed ensures c in k.wrongPositionDigits && c in SlotDigits(mid) {
      var p :| p in open && placedAt(p) == c;
      assert mid[p].Filled?;
    }
    forall c | c in k.wrongPositionDigits ensures c in hidden {
      var q :| 0 <= q < 4 && secret[q] == c;
      assert q in open;
      assert secretAt(q) == c;
    }
    SubsetSize(k.wrongPositionDigits, hidden);
    SubsetOfSameSize(placed, k.wrongPositionDigits);
  }

  /**
   * With sound knowledge of a 4-digit secret without repeats and no
   * wrong-position digit that is also recorded, every run of the
   * construction places every wrong-position digit: stage 2 takes every draw,
   * so it only leaves a slot open once all of them are placed, and if it
   * fills every open slot, those slots already hold them all.
   */
  lemma MisplacedDigitsUsed(k: Knowledge, pool: set<char>, secret: string, slots: seq<Slot>)
    requires Sound(k, secret) && |secret| == 4 && Distinct(secret)
    requires NoMisplacedLocked(k)
    requires GuessShape(k, pool, slots)
    ensures k.wrongPositionDigits <= SlotDigits(slots)
  {
    var mid: seq<Slot> :| Placed(k, mid) && FillsFrom(k, pool, mid, slots);
    SlotDigitsKept(mid, slots);
    if forall p :: 0 <= p < 4 && p !in k.correctDigits ==> mid[p].Filled? {
      OpenSlotsHoldAllMisplaced(k, secret, mid);
    }
  }

  /** Four slots with an empty one hold at most three different digits. */
  lemma DigitsWithEmptySlot(slots: seq<Slot>, p: nat)
    requires |slots| == 4 && p < 4 && slots[p] == Empty
    ensures |SlotDigits(slots)| <= 3
  {
    var filled := set q: nat | q < 4 && slots[q].Filled?;
    var digitAt: nat -> char := (q: nat) => if q < 4 && slots[q].Filled? then slots[q].digit else '0';
    ImageSize(filled, digitAt);
    forall c | c in SlotDigits(slots) ensures c in (set q | q in filled :: digitAt(q)) {
      var q :| 0 <= q < 4 && slots[q].Filled? && slots[q].digit == c;
      assert q in filled;
    }
    SubsetSize(SlotDigits(slots), set q | q in filled :: digitAt(q));
    assert filled <= {0, 1, 2, 3} - {p};
    SubsetSize(filled, {0, 1, 2, 3} - {p});
  }

  /**
   * With a fill pool of all ten decimal digits, sound knowledge of a 4-digit
   * secret without repeats, made of decimal digits, never leaves a slot
   * empty: an empty slot would mean the pool ran dry, so the secret's four
   * digits would all be placed, in at most three slots.
   */
  lemma FullPoolFillsEverySlot(k: Knowledge, secret: string, slots: seq<Slot>)
    requires Sound(k, secret) && |secret| == 4 && Distinct(secret)
    requires forall i :: 0 <= i < 4 ==> secret[i] in DecimalDigits
    requires GuessShape(k, DecimalDigits, slots)
    ensures forall p :: 0 <= p < 4 ==> slots[p].Filled?
    ensures |Join(slots)| == 4
  {
    ShapeFacts(k, DecimalDigits, slots);
    if p :| 0 <= p < 4 && slots[p] == Empty {
      CharSetSize(secret);
      assert CharSet(secret) <= SlotDigits(slots);
      DigitsWithEmptySlot(slots, p);
      SubsetSize(CharSet(secret), SlotDigits(slots));
      assert false;
    }
  }
}
