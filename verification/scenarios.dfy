/**
  Concrete rounds of Play Nine, stepped through the handlers one event at a
  time, and the status-ordering facts they illustrate.
*/
module Scenarios {
  import opened Digits
  import opened Game
  import opened GameInvariant

  /** A fresh game: nothing selected or used, five redraws, still playing. */
  lemma FreshGame(stars: int)
    requires IsDigit(stars)
    ensures Initial(stars) == State([], stars, Unchecked, [], 5, Playing)
    ensures Valid(Initial(stars))
  {
  }

  /**
    Target 7: clicking 3 then 4 selects [3, 4], the check is correct, and
    accepting moves them to the used digits while the game goes on.
  */
  lemma CorrectRound(next: int)
    requires IsDigit(next)
    ensures var s := Select(Select(Initial(7), 3), 4);
            && s.selected == [3, 4]
            && Check(s).verdict == Right
            && Accept(Check(s), next) == State([], next, Unchecked, [3, 4], 5, Playing)
  {
    assert Sum([3, 4]) == 7 by {
      assert [3, 4][..1] == [3];
      assert [3][..0] == [];
    }
  }

  /** Target 7: clicking 3 then 5 checks as wrong, and the selection stays. */
  lemma WrongRound()
    ensures var s := Check(Select(Select(Initial(7), 3), 5));
            && s.verdict == Wrong
            && s.selected == [3, 5]
  {
    assert Sum([3, 5]) == 8 by {
      assert [3, 5][..1] == [3];
      assert [3][..0] == [];
    }
  }

  /** Spending the last redraw without nine used digits loses the game and drops the selection. */
  lemma LastRedrawLoses(next: int)
    requires IsDigit(next)
    ensures var s := State([2, 6], 4, Unchecked, [1], 1, Playing);
            && Valid(s)
            && Redraw(s, next) == State([], next, Unchecked, [1], 0, Lost)
  {
  }

  /**
    With digits 1..8 used and target 9, clicking 9, checking and accepting
    uses all nine digits and wins the game.
  */
  lemma LastDigitWins(next: int)
    requires IsDigit(next)
    ensures var s := Check(Select(State([], 9, Unchecked, [1, 2, 3, 4, 5, 6, 7, 8], 5, Playing), 9));
            && s.verdict == Right
            && Accept(s, next).status == Won
            && Accept(s, next).used == [1, 2, 3, 4, 5, 6, 7, 8, 9]
  {
    assert [9][..0] == [];
  }

  /**
    The status update checks for a win before a loss, so a redraw made
    after the game is won keeps it won, even the one that spends the last
    redraw.
  */
  lemma RedrawKeepsWin(s: State, next: int)
    requires Valid(s) && s.status == Won && IsDigit(next)
    ensures Redraw(s, next).status == Won
  {
  }

  /**
    The handlers are not locked once the game is over: after a loss, the
    click handler for a board digit that is neither used nor selected still
    selects it. Only the view's hiding of the digit grid keeps the player
    from doing so.
  */
  lemma LostGameStillSelects(s: State, d: int)
    requires Valid(s) && s.status == Lost && IsDigit(d)
    requires d !in s.used && d !in s.selected
    ensures Select(s, d).selected == s.selected + [d]
    ensures Select(s, d).status == Lost
  {
  }
}
