/**
  The invariant every handler of the Play Nine round keeps, and what
  follows from it.

  Selected and used digits are board digits, each list is duplicate-free and
  the two are disjoint; the target is a board digit; the redraw budget lies
  between 0 and 5; the status is the one the used digits and the remaining
  redraws determine; and a verdict is never stale.
*/
module GameInvariant {
  import opened Digits
  import opened Game

  /**
    The status the used digits and the redraws call for: won once nine
    digits are used, else lost once no redraws are left, else still playing.
  */
  function StatusFor(used: seq<int>, redraws: int): (st: Status)
  {
    if |used| == 9 then Won
    else if redraws == 0 then Lost
    else Playing
  }

  /** The round invariant. */
  predicate Valid(s: State)
  {
    && OnlyDigits(s.selected) && NoDuplicates(s.selected)
    && OnlyDigits(s.used) && NoDuplicates(s.used)
    && Disjoint(s.selected, s.used)
    && IsDigit(s.stars)
    && 0 <= s.redraws <= InitialRedraws
    && s.status == StatusFor(s.used, s.redraws)
    && (s.verdict == Right ==> Sum(s.selected) == s.stars)
    && (s.verdict == Wrong ==> Sum(s.selected) != s.stars)
  }

  /** Selected and used digits together never exceed the nine board digits. */
  lemma DigitBudget(s: State)
    requires Valid(s)
    ensures |s.used| + |s.selected| <= 9
    ensures OnlyDigits(s.used + s.selected) && NoDuplicates(s.used + s.selected)
  {
    ConcatDistinct(s.used, s.selected);
    FullIffEveryDigit(s.used + s.selected);
  }

  /** A fresh game satisfies the invariant. */
  lemma InitialValid(stars: int)
    requires IsDigit(stars)
    ensures Valid(Initial(stars))
  {
  }

  /** Clicking a board digit keeps the invariant. */
  lemma SelectValid(s: State, d: int)
    requires Valid(s) && IsDigit(d)
    ensures Valid(Select(s, d))
  {
  }

  /** Clicking a selected digit off keeps the invariant, whatever the digit. */
  lemma UnselectValid(s: State, d: int)
    requires Valid(s)
    ensures Valid(Unselect(s, d))
  {
    WithoutKeepsShape(s.selected, d);
  }

  /** Checking the answer keeps the invariant, and its verdict is not stale. */
  lemma CheckValid(s: State)
    requires Valid(s)
    ensures Valid(Check(s))
  {
  }

  /**
    Accepting keeps the invariant whatever the verdict was: the selection
    is disjoint from the used digits, so the used digits stay duplicate-free,
    and nine used digits can only be reached by this very accept.
  */
  lemma AcceptValid(s: State, stars: int)
    requires Valid(s) && IsDigit(stars)
    ensures Valid(Accept(s, stars))
  {
    DigitBudget(s);
    FullIffEveryDigit(s.used);
    if |s.used| == 9 {
      assert |s.selected| == 0;
      assert s.used + s.selected == s.used;
    }
  }

  /** Redrawing keeps the invariant; in particular the budget never goes below zero. */
  lemma RedrawValid(s: State, stars: int)
    requires Valid(s) && IsDigit(stars)
    ensures Valid(Redraw(s, stars))
  {
  }

  /** Starting over keeps the invariant. */
  lemma ResetValid(s: State, stars: int)
    requires IsDigit(stars)
    ensures Valid(Reset(s, stars))
  {
  }

  /**
    The won banner means every board digit has been used, and conversely:
    with duplicate-free digits, nine used digits is the same as all of 1..9.
  */
  lemma WonIffEveryDigitUsed(s: State)
    requires Valid(s)
    ensures s.status == Won <==> forall d :: IsDigit(d) ==> d in s.used
  {
    FullIffEveryDigit(s.used);
  }

  /** The lost banner means no redraws are left while some digit is still unused. */
  lemma LostIffStuck(s: State)
    requires Valid(s)
    ensures s.status == Lost <==> s.redraws == 0 && exists d :: IsDigit(d) && d !in s.used
  {
    FullIffEveryDigit(s.used);
  }

  /** A won game has used 1 + 2 + ... + 9 = 45 in total. */
  lemma WonSumsTo45(s: State)
    requires Valid(s) && s.status == Won
    ensures Sum(s.used) == 45
  {
    SumOfAllDigits(s.used);
  }

  /**
    Accepting a checked-correct answer adds exactly the old target to the
    total of the used digits.
  */
  lemma AcceptAddsTarget(s: State, stars: int)
    requires Valid(s) && IsDigit(stars)
    requires s.verdict == Right
    ensures Sum(Accept(s, stars).used) == Sum(s.used) + s.stars
  {
    SumAppend(s.used, s.selected);
  }

  /** Clicking the same digit twice is the same as clicking it once. */
  lemma SelectIdempotent(s: State, d: int)
    ensures Select(Select(s, d), d) == Select(s, d)
  {
  }

  /** Checking twice is the same as checking once. */
  lemma CheckIdempotent(s: State)
    ensures Check(Check(s)) == Check(s)
  {
  }

  /**
    Unselecting a digit that sits at position `i` of a valid selection cuts
    out exactly that position; the other digits keep their order.
  */
  lemma UnselectCutsOut(s: State, i: int)
    requires Valid(s) && 0 <= i < |s.selected|
    ensures Unselect(s, s.selected[i]).selected == s.selected[..i] + s.selected[i + 1..]
  {
    WithoutAt(s.selected, i);
  }

  /** The verdict does not depend on the order in which the digits were clicked. */
  lemma CheckIgnoresClickOrder(s: State, t: State)
    requires multiset(s.selected) == multiset(t.selected) && s.stars == t.stars
    ensures Check(s).verdict == Check(t).verdict
  {
    SumPermutation(s.selected, t.selected);
  }
}
