/** The plain versus screen: each player types the word into their own input and submits it;
    the controller judges each submission. Once the round has a winner the result shows,
    the inputs lock, and the next level follows two seconds later. The two-second timer is a
    pending flag fired by an explicit step. */
module VersusScreen {
  import opened Text
  import opened Types
  import App

  /** The answer a submission sends: the input trimmed and lower-cased. */
  function Normalised(input: string): string
  {
    ToLower(Trim(input))
  }

  /** A submission is judged right exactly when the trimmed input is the word, ignoring case:
      neither surrounding white space nor case can change the verdict. */
  lemma NormalisedVerdict(input: string, target: string)
    ensures App.IsCorrectAnswer(Normalised(input), target) <==> ToLower(Trim(input)) == ToLower(target)
    ensures App.IsCorrectAnswer(Normalised(input), target) <==> App.IsCorrectAnswer(Trim(input), target)
    ensures Normalised(ToLower(input)) == Normalised(input)
    ensures Normalised(Trim(input)) == Normalised(input)
  {
    ToLowerIdempotent(Trim(input));
    TrimLowerCommute(input);
    TrimEnds(input);
    TrimNoop(Trim(input));
  }

  class Screen {
    var input1: string
    var input2: string
    var showResult: bool
    /** The two-second timer that calls `onNextLevel`. */
    var nextPending: bool
    /** The answers passed to `onAnswer`, in order. */
    var submitted: seq<(Side, string)>
    /** How many times `onNextLevel` has been called. */
    var nextCalls: nat

    function InputOf(side: Side): string
      reads this
    {
      if side == One then input1 else input2
    }

    constructor()
      ensures input1 == "" && input2 == "" && !showResult && !nextPending
      ensures submitted == [] && nextCalls == 0
    {
      input1 := "";
      input2 := "";
      showResult := false;
      nextPending := false;
      submitted := [];
      nextCalls := 0;
    }

    /** A player edits their input; the inputs are locked while the result shows. */
    method Type(side: Side, value: string)
      modifies this
      ensures InputOf(side) == (if old(showResult) then old(InputOf(side)) else value)
      ensures InputOf(side.Other()) == old(InputOf(side.Other()))
      ensures showResult == old(showResult) && nextPending == old(nextPending)
      ensures submitted == old(submitted) && nextCalls == old(nextCalls)
    {
      if showResult {
        return;
      }
      if side == One { input1 := value; } else { input2 := value; }
    }

    /** A player submits: blank input, or any input while the result shows, sends nothing;
        otherwise the normalised input goes to the controller. The input is kept. */
    method Submit(side: Side)
      modifies this
      ensures Trim(old(InputOf(side))) == [] || old(showResult) ==> submitted == old(submitted)
      ensures Trim(old(InputOf(side))) != [] && !old(showResult) ==>
        submitted == old(submitted) + [(side, Normalised(old(InputOf(side))))]
      ensures input1 == old(input1) && input2 == old(input2)
      ensures showResult == old(showResult) && nextPending == old(nextPending) && nextCalls == old(nextCalls)
    {
      var input := InputOf(side);
      if Trim(input) != [] && !showResult {
        submitted := submitted + [(side, Normalised(input))];
      }
    }

    /** The round winner changes. A winner shows the result and sets the next-level timer,
        replacing any timer already set; no winner only clears the timer. */
    method WinnerChanged(winner: Option<Side>)
      modifies this
      ensures winner.Some? ==> showResult && nextPending
      ensures winner.None? ==> showResult == old(showResult) && !nextPending
      ensures input1 == old(input1) && input2 == old(input2)
      ensures submitted == old(submitted) && nextCalls == old(nextCalls)
    {
      nextPending := false;
      if winner.Some? {
        showResult := true;
        nextPending := true;
      }
    }

    /** The next-level timer fires: one call of `onNextLevel`. */
    method FireNext()
      requires nextPending
      modifies this
      ensures !nextPending && nextCalls == old(nextCalls) + 1
      ensures input1 == old(input1) && input2 == old(input2)
      ensures showResult == old(showResult) && submitted == old(submitted)
    {
      nextPending := false;
      nextCalls := nextCalls + 1;
    }

    /** A new level: both inputs cleared and the result hidden. */
    method LevelChanged()
      modifies this
      ensures input1 == "" && input2 == "" && !showResult
      ensures nextPending == old(nextPending) && submitted == old(submitted) && nextCalls == old(nextCalls)
    {
      input1 := "";
      input2 := "";
      showResult := false;
    }
  }

  /** However often the winner is announced, one round calls `onNextLevel` once: announcing
      it again replaces the pending timer instead of adding one, and a submission after the
      announcement sends nothing. */
  method OneNextPerRound(s: Screen, side: Side, w: Side)
    modifies s
    ensures s.nextCalls == old(s.nextCalls) + 1 && !s.nextPending
    ensures s.submitted == old(s.submitted)
  {
    s.WinnerChanged(Some(w));
    s.WinnerChanged(Some(w));
    s.Submit(side);
    s.FireNext();
  }
}
