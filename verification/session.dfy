/**
  A Play Nine session: a sequence of user events, each dispatched to the
  handler it triggers.

  The handlers themselves lock nothing: once the game is won or lost they
  still change the state when called. It is only the view that stops
  offering them (the digit grid is replaced by the game-over banner, the
  accept button appears only after a correct check, the check button is
  disabled while nothing is selected, the redraw button is disabled at zero).
  `Offered` states that gating as a predicate, and the lemmas below show
  what the gating buys.
*/
module Session {
  import opened Digits
  import opened Game
  import opened GameInvariant

  /** The user inputs of the round, with the target each draw produces. */
  datatype Event =
    | ClickDigit(d: int)              // a digit of the board grid
    | ClickSelected(d: int)           // a digit of the current answer
    | ClickEquals                     // the "=" button
    | ClickAccept(nextStars: int)     // the check-mark button
    | ClickRedraw(nextStars: int)     // the redraw button
    | PlayAgain(nextStars: int)       // the game-over banner's button

  /** The inputs the page can produce at all: board digits and drawn targets in 1..9. */
  predicate WellFormed(e: Event)
  {
    match e
    case ClickDigit(d) => IsDigit(d)
    case ClickSelected(_) => true
    case ClickEquals => true
    case ClickAccept(n) => IsDigit(n)
    case ClickRedraw(n) => IsDigit(n)
    case PlayAgain(n) => IsDigit(n)
  }

  /** The handler each event triggers, with its status update. */
  function Apply(s: State, e: Event): (r: State)
    requires WellFormed(e)
  {
    match e
    case ClickDigit(d) => Select(s, d)
    case ClickSelected(d) => Unselect(s, d)
    case ClickEquals => Check(s)
    case ClickAccept(n) => Accept(s, n)
    case ClickRedraw(n) => Redraw(s, n)
    case PlayAgain(n) => Reset(s, n)
  }

  /** Every handler keeps the round invariant. */
  lemma ApplyValid(s: State, e: Event)
    requires Valid(s) && WellFormed(e)
    ensures Valid(Apply(s, e))
  {
    match e
    case ClickDigit(d) => SelectValid(s, d);
    case ClickSelected(d) => UnselectValid(s, d);
    case ClickEquals => CheckValid(s);
    case ClickAccept(n) => AcceptValid(s, n);
    case ClickRedraw(n) => RedrawValid(s, n);
    case PlayAgain(n) => ResetValid(s, n);
  }

  /** The state after a sequence of events, oldest first. */
  function Run(s: State, es: seq<Event>): (r: State)
    requires forall i :: 0 <= i < |es| ==> WellFormed(es[i])
    decreases |es|
  {
    if |es| == 0 then s else Run(Apply(s, es[0]), es[1..])
  }

  /** Any sequence of handler calls keeps the round invariant. */
  lemma {:induction false} RunValid(s: State, es: seq<Event>)
    requires Valid(s)
    requires forall i :: 0 <= i < |es| ==> WellFormed(es[i])
    ensures Valid(Run(s, es))
    decreases |es|
  {
    if |es| != 0 {
      ApplyValid(s, es[0]);
      RunValid(Apply(s, es[0]), es[1..]);
    }
  }

  /** Every state a game can reach from its start satisfies the invariant. */
  lemma ReachableValid(stars: int, es: seq<Event>)
    requires IsDigit(stars)
    requires forall i :: 0 <= i < |es| ==> WellFormed(es[i])
    ensures Valid(Run(Initial(stars), es))
    ensures |Run(Initial(stars), es).used| <= 9
  {
    InitialValid(stars);
    RunValid(Initial(stars), es);
    DigitBudget(Run(Initial(stars), es));
  }

  /** Whether `e` is a new game. */
  predicate IsPlayAgain(e: Event)
  {
    e.PlayAgain?
  }

  /**
    Until the player starts over, used digits are only ever appended to and
    the redraw budget only ever goes down.
  */
  lemma {:induction false} RunMonotone(s: State, es: seq<Event>)
    requires forall i :: 0 <= i < |es| ==> WellFormed(es[i]) && !IsPlayAgain(es[i])
    ensures s.used <= Run(s, es).used
    ensures Run(s, es).redraws <= s.redraws
    decreases |es|
  {
    if |es| != 0 {
      var s' := Apply(s, es[0]);
      assert !IsPlayAgain(es[0]);
      assert s.used <= s'.used && s'.redraws <= s.redraws;
      RunMonotone(s', es[1..]);
    }
  }

  /** The events the view offers in state `s`. */
  predicate Offered(s: State, e: Event)
  {
    match e
    case ClickDigit(_) => s.status == Playing
    case ClickSelected(d) => d in s.selected
    case ClickEquals => s.verdict == Unchecked && |s.selected| != 0
    case ClickAccept(_) => s.verdict == Right
    case ClickRedraw(_) => s.redraws != 0
    case PlayAgain(_) => s.status != Playing
  }

  /**
    What the gating adds to the invariant: after the game ends nothing is
    selected and no verdict is shown.
  */
  predicate Settled(s: State)
  {
    Valid(s) && (s.status != Playing ==> |s.selected| == 0 && s.verdict == Unchecked)
  }

  /** The view's gating keeps a settled state settled. */
  lemma OfferedSettled(s: State, e: Event)
    requires Settled(s) && WellFormed(e) && Offered(s, e)
    ensures Settled(Apply(s, e))
  {
    ApplyValid(s, e);
  }

  /**
    Once the game is over, the only event the view still offers other than
    starting over is the redraw button of a won game: a lost game offers
    nothing but "Play Again". That redraw spends one redraw and draws a new
    target, but keeps the game won, the used digits, the empty selection and
    the blank verdict.
  */
  lemma OverIsTerminal(s: State, e: Event)
    requires Settled(s) && s.status != Playing
    requires WellFormed(e) && Offered(s, e) && !IsPlayAgain(e)
    ensures e.ClickRedraw? && s.status == Won
    ensures Apply(s, e).status == Won && Apply(s, e).used == s.used
    ensures Apply(s, e).redraws == s.redraws - 1
    ensures |Apply(s, e).selected| == 0 && Apply(s, e).verdict == Unchecked
  {
  }

  /** A lost game offers nothing but "Play Again". */
  lemma LostOffersOnlyPlayAgain(s: State, e: Event)
    requires Settled(s) && s.status == Lost && Offered(s, e)
    ensures IsPlayAgain(e)
  {
  }

  /** The page's own sessions: each event is one the view offers at that moment. */
  predicate OfferedRun(s: State, es: seq<Event>)
    decreases |es|
  {
    |es| == 0 ||
    (WellFormed(es[0]) && Offered(s, es[0]) && OfferedRun(Apply(s, es[0]), es[1..]))
  }

  /**
    In a session driven through the view, a game that is over stays over
    with the same used digits until the player starts over, and a lost game
    admits no event at all other than starting over.
  */
  lemma {:induction false} OfferedRunSettled(s: State, es: seq<Event>)
    requires Settled(s) && OfferedRun(s, es)
    requires forall i :: 0 <= i < |es| ==> !IsPlayAgain(es[i])
    ensures forall i :: 0 <= i < |es| ==> WellFormed(es[i])
    ensures Settled(Run(s, es))
    ensures s.status != Playing ==> Run(s, es).status == s.status && Run(s, es).used == s.used
    ensures s.status == Lost ==> |es| == 0
    decreases |es|
  {
    if |es| != 0 {
      assert !IsPlayAgain(es[0]);
      if s.status == Lost {
        assert false;
      }
      OfferedSettled(s, es[0]);
      if s.status != Playing {
        OverIsTerminal(s, es[0]);
      }
      var rest := es[1..];
      assert forall i :: 0 <= i < |rest| ==> !IsPlayAgain(rest[i]) by {
        forall i | 0 <= i < |rest| ensures !IsPlayAgain(rest[i]) {
          assert rest[i] == es[i + 1];
        }
      }
      OfferedRunSettled(Apply(s, es[0]), rest);
      forall i | 0 <= i < |es| ensures WellFormed(es[i]) {
        if i > 0 {
          assert es[i] == rest[i - 1];
        }
      }
    }
  }
}
