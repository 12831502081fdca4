/**
  The round state machine of the Play Nine `Game` component.

  The component keeps six state fields and changes them only in its
  handlers. Each handler is modelled here as a pure function from the old
  state to the new one. The handlers that draw a new target and then run
  the status update as a follow-up are modelled as one atomic step that
  includes that update. Where the component draws a random target, the
  model takes the drawn target as a parameter.
*/
module Game {
  import opened Digits

  /** `answerIsCorrect`: `null` (not checked), `true` or `false`. */
  datatype Verdict = Unchecked | Right | Wrong

  /** `gameStatus`: `null` while playing, then the won or the lost banner. */
  datatype Status = Playing | Won | Lost

  /** The component state, field for field. */
  datatype State = State(
    selected: seq<int>,   // selectedNumbers, in click order
    stars: int,           // randomNumberOfStars, the target sum
    verdict: Verdict,     // answerIsCorrect
    used: seq<int>,       // usedNumbers, in the order they were accepted
    redraws: int,         // availableRedraws
    status: Status        // gameStatus
  )

  /** The redraw budget of a fresh game. */
  const InitialRedraws: int := 5

  /**
    `calcRandomNoOfStars`: `1 + floor(r * 9)` for a random `r` in [0, 1).
    Every draw is a board digit.
  */
  function DrawStars(r: real): (n: int)
    requires 0.0 <= r < 1.0
    ensures IsDigit(n)
  {
    1 + (r * 9.0).Floor
  }

  /** Every target 1..9 can be drawn: `r = (n - 1) / 9` yields `n`. */
  lemma DrawStarsOnto(n: int)
    requires IsDigit(n)
    ensures 0.0 <= (n - 1) as real / 9.0 < 1.0
    ensures DrawStars((n - 1) as real / 9.0) == n
  {
  }

  /**
    `initialState`: nothing selected or used, five redraws, no verdict, no
    status, and the freshly drawn target `stars`.
  */
  function Initial(stars: int): (s: State)
    requires IsDigit(stars)
    ensures s.stars == stars
    ensures |s.selected| == 0 && |s.used| == 0
    ensures s.redraws == InitialRedraws && s.verdict == Unchecked && s.status == Playing
  {
    State([], stars, Unchecked, [], InitialRedraws, Playing)
  }

  /**
    `resetGame`: the previous state is discarded wholesale. Nothing of `s`
    survives: the selection, used digits, verdict, redraw budget and status
    are those of a fresh game, and the target is the new draw.
  */
  function Reset(s: State, stars: int): (r: State)
    requires IsDigit(stars)
    ensures |r.selected| == 0 && |r.used| == 0 && r.verdict == Unchecked
    ensures r.redraws == InitialRedraws && r.status == Playing && r.stars == stars
  {
    Initial(stars)
  }

  /**
    `selectNumber(d)`: a digit that is already selected or already used is
    ignored; any other is appended to the selection, which voids the verdict.
  */
  function Select(s: State, d: int): (r: State)
    ensures r.stars == s.stars && r.used == s.used
    ensures r.redraws == s.redraws && r.status == s.status
    ensures d in s.selected || d in s.used ==> r == s
    ensures d !in s.selected && d !in s.used ==>
              r.selected == s.selected + [d] && r.verdict == Unchecked
    ensures d in r.selected <==> d in s.selected || d !in s.used
  {
    if d in s.selected then s
    else if d in s.used then s
    else s.(selected := s.selected + [d], verdict := Unchecked)
  }

  /**
    `unselectNumber(d)`: every occurrence of `d` leaves the selection, the
    rest keep their count, and the verdict is voided even if `d` was absent.
  */
  function Unselect(s: State, d: int): (r: State)
    ensures r.stars == s.stars && r.used == s.used
    ensures r.redraws == s.redraws && r.status == s.status
    ensures d !in r.selected
    ensures multiset(r.selected) == multiset(s.selected)[d := 0]
    ensures r.verdict == Unchecked
  {
    s.(selected := Without(s.selected, d), verdict := Unchecked)
  }

  /**
    `checkAnswer`: the verdict says whether the selected digits add up to
    the target. No other field changes.
  */
  function Check(s: State): (r: State)
    ensures r.verdict == Right <==> Sum(s.selected) == s.stars
    ensures r.verdict == Wrong <==> Sum(s.selected) != s.stars
    ensures r.(verdict := s.verdict) == s
  {
    s.(verdict := if s.stars == Sum(s.selected) then Right else Wrong)
  }

  /**
    `updateGameStatus`: nine used digits mean the game is won, whatever the
    redraws; otherwise no redraws left means it is lost; otherwise the
    status stays what it was.
  */
  function UpdateStatus(s: State): (r: State)
    ensures r.(status := s.status) == s
    ensures r.status == Won <==> |s.used| == 9 || (s.redraws != 0 && s.status == Won)
    ensures r.status == Lost <==> |s.used| != 9 && (s.redraws == 0 || s.status == Lost)
  {
    if |s.used| == 9 then s.(status := Won)
    else if s.redraws == 0 then s.(status := Lost)
    else s
  }

  /**
    `acceptAnswer` followed by `updateGameStatus`: the selection moves to
    the end of the used digits, a new target is drawn, the redraws stay.
    The handler does not look at the verdict: only the view gates it.
  */
  function Accept(s: State, stars: int): (r: State)
    requires IsDigit(stars)
    ensures r.used == s.used + s.selected
    ensures |r.selected| == 0 && r.verdict == Unchecked
    ensures r.stars == stars && r.redraws == s.redraws
    ensures |r.used| == 9 ==> r.status == Won
    ensures |r.used| != 9 && s.redraws == 0 ==> r.status == Lost
    ensures |r.used| != 9 && s.redraws != 0 ==> r.status == s.status
  {
    UpdateStatus(s.(used := s.used + s.selected, selected := [], verdict := Unchecked, stars := stars))
  }

  /**
    `redraw` followed by `updateGameStatus`: ignored when no redraws are
    left; otherwise one redraw is spent, the selection is dropped and a new
    target is drawn, while the used digits stay.
  */
  function Redraw(s: State, stars: int): (r: State)
    requires IsDigit(stars)
    ensures s.redraws == 0 ==> r == s
    ensures s.redraws != 0 ==> r.redraws == s.redraws - 1
    ensures s.redraws != 0 ==> |r.selected| == 0 && r.verdict == Unchecked && r.stars == stars
    ensures r.used == s.used
    ensures s.redraws >= 0 ==> r.redraws >= 0
    ensures s.redraws != 0 && |s.used| == 9 ==> r.status == Won
    ensures s.redraws == 1 && |s.used| != 9 ==> r.status == Lost
    ensures s.redraws != 1 && |s.used| != 9 ==> r.status == s.status
  {
    if s.redraws == 0 then s
    else UpdateStatus(s.(redraws := s.redraws - 1, selected := [], verdict := Unchecked, stars := stars))
  }
}
