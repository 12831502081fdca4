# Play Nine round state machine, in Dafny

Play Nine is a one-screen browser puzzle. The player is shown a row of 1 to 9
stars. They click board digits 1..9 until the selected digits add up to the
number of stars. They check the answer and, if it is right, accept it. Accepted
digits are used up. The player may redraw the stars five times per game. The
game is won when all nine digits are used. It is lost when the redraws run out
first.

This project models the `Game` component's state and handlers
(`src/App.js`, lines 131-216). Everything is a pure function on an immutable
record:

- `digits.dfy`, module `Digits`: the board digits 1..9, and the two array
  operations the handlers use. `Sum` is the `reduce` that adds up the
  selection. `Without` is the `filter` that unselects a digit. The module also
  has the counting facts behind the invariant. For example, a duplicate-free
  list of digits has nine elements exactly when it holds every digit.
- `game.dfy`, module `Game`: the six state fields, and the verdict and status
  enums. It defines the target draw (`DrawStars`), `Initial`, `Reset`,
  `Select`, `Unselect`, `Check`, `UpdateStatus`, `Accept` and `Redraw`.
  `Accept` and `Redraw` each include the `updateGameStatus` follow-up, so
  each is one atomic step. A handler that draws a new target takes it as a
  parameter in 1..9.
- `invariant.dfy`, module `GameInvariant`: the invariant `Valid`, and a
  proof that every handler keeps it. It also holds what follows from the
  invariant: the won status means every digit is used, and a correct accept
  adds its target to the used total.
- `session.dfy`, module `Session`: user events dispatched to handlers, and
  runs of events. The view's button gating is stated as a predicate
  (`Offered`). The lemmas show which properties come from that gating and not
  from the handlers.
- `scenarios.dfy`, module `Scenarios`: concrete rounds worked through the
  handlers.

The model follows the code in these places:

- No handler checks `gameStatus`. After a loss, `selectNumber` still selects
  a free digit (`Scenarios.LostGameStillSelects`). Only the view hides the
  grid. With the view's gating, a lost game offers nothing but "Play Again"
  (`Session.LostOffersOnlyPlayAgain`). A won game still offers one thing: the
  redraw button stays on the page, so it can still spend redraws and draw new
  targets (`Session.OverIsTerminal`).
- `updateGameStatus` runs after both accept and redraw, and it checks for a
  win before a loss. So a redraw after a win leaves the game won
  (`Scenarios.RedrawKeepsWin`).
- `usedNumbers` is an array that is concatenated, not a set. The invariant
  proves it never holds a duplicate.
- `acceptAnswer` does not re-check the verdict. Only the view offers accept
  after a correct check. So `Accept` keeps the invariant whatever the verdict
  is (`GameInvariant.AcceptValid`).

## Model

| member | source | states |
|---|---|---|
| Game.DrawStars | src/App.js:137 | `1 + floor(r * 9)` is a digit 1..9 for every `r` in [0, 1) |
| Game.DrawStarsOnto | src/App.js:137 | every target 1..9 is drawn by some `r` in [0, 1) |
| Game.Initial | src/App.js:139-146 | a new game has nothing selected or used, 5 redraws, no verdict, no status, and the freshly drawn target |
| Game.Reset | src/App.js:214-216 | whatever the old state was, a reset gives an empty selection and used list, no verdict, 5 redraws, no status and the freshly drawn target |
| Game.Select | src/App.js:148-156 | a digit that is already selected or used changes nothing. Any other digit is appended at the end and clears the verdict. Target, used digits, redraws and status never change |
| Game.Unselect | src/App.js:158-165 | the digit is removed completely, every other digit keeps its multiplicity, and the verdict is cleared even if the digit was absent. Nothing else changes |
| Game.Check | src/App.js:167-173 | the verdict is right exactly when the selected digits sum to the target, wrong otherwise. No other field changes |
| Game.UpdateStatus | src/App.js:203-212 | nine used digits give won, whatever the redraws. Otherwise zero redraws give lost. Otherwise the status is unchanged. No other field changes |
| Game.Accept | src/App.js:175-185 | used becomes the old used followed by the old selection. Selection and verdict are cleared, the new target is taken, redraws are kept, and the status is updated win-first |
| Game.Redraw | src/App.js:187-201 | with zero redraws nothing changes. Otherwise redraws drop by exactly one, the selection and verdict are cleared, the new target is taken, and used is kept. Redraws never go negative, and the status is updated win-first |
| Digits.Without | src/App.js:160-162 | the filter keeps exactly the elements other than `d`, each as many times as before |
| Digits.WithoutAppend | src/App.js:160-162 | the filter distributes over concatenation, so kept elements keep their relative order |
| Digits.WithoutAt | src/App.js:160-162 | in a duplicate-free list, filtering out the element at position `i` cuts out exactly that position |
| Digits.SumAppend | src/App.js:171 | the reduce-sum of a concatenation is the sum of the parts' sums |
| Digits.SumPermutation | src/App.js:171 | the reduce-sum depends only on the multiset of elements, not on their order |
| Digits.FullIffEveryDigit | src/App.js:104 | a duplicate-free list of board digits has at most 9 elements, and has 9 exactly when it contains every digit 1..9 |
| Digits.SumOfAllDigits | src/App.js:104 | nine distinct board digits sum to 45 in any order |
| GameInvariant.DigitBudget | src/App.js:149-150 | selected plus used never exceed nine digits, and together they are duplicate-free |
| GameInvariant.InitialValid | src/App.js:139-146 | a new game satisfies the invariant |
| GameInvariant.SelectValid | src/App.js:148-156 | selecting a board digit keeps both lists duplicate-free and disjoint, and keeps the verdict and status consistent |
| GameInvariant.UnselectValid | src/App.js:158-165 | unselecting any value keeps the invariant |
| GameInvariant.CheckValid | src/App.js:167-173 | checking keeps the invariant, so a verdict always matches the current selection and target |
| GameInvariant.AcceptValid | src/App.js:175-185 | accepting keeps the invariant without looking at the verdict. The used digits stay duplicate-free, and the status matches the new used digits and the redraws |
| GameInvariant.RedrawValid | src/App.js:187-201 | redrawing keeps the invariant, including 0 <= redraws <= 5 |
| GameInvariant.ResetValid | src/App.js:214-216 | resetting yields a valid state from any state |
| GameInvariant.WonIffEveryDigitUsed | src/App.js:203-206 | in a valid state the status is won exactly when every digit 1..9 has been used |
| GameInvariant.LostIffStuck | src/App.js:207-209 | in a valid state the status is lost exactly when no redraws are left and some digit is unused |
| GameInvariant.WonSumsTo45 | src/App.js:203-206 | the used digits of a won game sum to 45 |
| GameInvariant.AcceptAddsTarget | src/App.js:175-185 | accepting a checked-correct answer raises the used total by exactly the old target |
| GameInvariant.SelectIdempotent | src/App.js:148-156 | selecting the same digit twice equals selecting it once |
| GameInvariant.CheckIdempotent | src/App.js:167-173 | checking twice equals checking once |
| GameInvariant.UnselectCutsOut | src/App.js:158-165 | unselecting the digit at position `i` of a valid selection removes just that position and keeps the order of the rest |
| GameInvariant.CheckIgnoresClickOrder | src/App.js:167-173 | two selections with the same digits, in any click order, get the same verdict |
| Session.ApplyValid | src/App.js:148-216 | every handler, dispatched from its UI event, keeps the invariant |
| Session.RunValid | src/App.js:148-216 | any sequence of handler calls keeps the invariant |
| Session.ReachableValid | src/App.js:132-135 | every state reachable from a new game is valid and has at most nine used digits |
| Session.RunMonotone | src/App.js:178 | until a reset, used digits are only appended to, and the redraw count never increases |
| Session.OfferedSettled | src/App.js:250-258 | under the view's gating, a finished game keeps an empty selection and no verdict |
| Session.OverIsTerminal | src/App.js:61-68 | once the game is over, the only non-reset event the view offers is the redraw of a won game. It spends one redraw and keeps the game won, the used digits, the empty selection and the blank verdict |
| Session.LostOffersOnlyPlayAgain | src/App.js:250-258 | with the view's gating, a lost game offers nothing but "Play Again" |
| Session.OfferedRunSettled | src/App.js:250-258 | in a session driven through the view, a finished game keeps its status and used digits until reset, and a lost game admits no event but "Play Again" |
| Scenarios.FreshGame | src/App.js:139-146 | the initial state is `([], stars, unchecked, [], 5, playing)` and it is valid |
| Scenarios.CorrectRound | src/App.js:148-185 | target 7, select 3 then 4, check gives right, and accept gives used [3, 4] with the game still on |
| Scenarios.WrongRound | src/App.js:167-173 | target 7, select 3 then 5, check gives wrong, and the selection stays [3, 5] |
| Scenarios.LastRedrawLoses | src/App.js:187-209 | spending the last redraw with fewer than nine used digits loses the game and clears the selection |
| Scenarios.LastDigitWins | src/App.js:175-206 | with 1..8 used, target 9, selecting 9, checking and accepting wins the game with all nine digits used |
| Scenarios.RedrawKeepsWin | src/App.js:203-209 | because the win check comes first, a redraw after a win keeps the game won |
| Scenarios.LostGameStillSelects | src/App.js:148-156 | the select handler is not locked after a loss: a free digit is still appended |

## Left out

- Randomness: `Math.random` is replaced by the drawn target, which is passed
  in as a parameter in 1..9. `DrawStars` models the draw over the reals.
  Double-precision rounding of `r * 9` is not modelled.
- React `setState` asynchrony and batching: each handler and its status
  update run as one atomic step. `selectNumber` reads its guards from
  `this.state` but appends through `prevState`. `redraw` likewise reads its
  zero guard from `this.state` but decrements through `prevState`. The two
  differ only when updates are still pending, which the model does not
  represent.
- The presentational components `Stars`, `GameButton`, `Answer`, `Numbers`,
  `GameOver` and `App`, and their styling. Their button gating appears only
  as the `Session.Offered` predicate.
- The lodash, react-bootstrap and FontAwesome libraries. The only use that
  matters is `_.range(1, 10)`, which gives the digit domain 1..9.
- The concrete status strings (" You Won!!", "You Lost!!"). They are the
  `Won` and `Lost` values of an enum.
