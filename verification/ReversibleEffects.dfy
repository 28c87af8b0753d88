/**
 * Effects that each come with an undo, performed in one order and undone in another.
 * Nothing here knows what the effects are: when they keep out of each other's way,
 * undoing one of them removes it from the run no matter what was performed after it.
 */
module ReversibleEffects {
  import opened Wrappers
  import opened Sequences

  /** `perform` and `undo` on a world, which effects have an undo, and when one may be performed. */
  datatype Effects<!E, !W> = Effects(
    perform: (E, W) -> W, undo: (E, W) -> Option<W>, reversible: E -> bool, admissible: (E, W) -> bool)

  /** The world after performing `es` in order. */
  function Run<E, W>(fx: Effects<E, W>, w: W, es: seq<E>): (r: W) {
    if es == [] then w else fx.perform(es[|es| - 1], Run(fx, w, es[..|es| - 1]))
  }

  /** Performing `y` does not matter to `x`: neither to its admissibility nor to its undo. */
  ghost predicate Apart<E, W(!new)>(fx: Effects<E, W>, x: E, y: E) {
    forall w {:trigger fx.perform(y, w)} ::
      && (fx.admissible(x, fx.perform(y, w)) <==> fx.admissible(x, w))
      && (fx.undo(x, w).Some? ==> fx.undo(x, fx.perform(y, w)) == Some(fx.perform(y, fx.undo(x, w).value)))
  }

  /** From an admissible world the undo of `x` cancels `x`, and does nothing when `x` was not performed. */
  ghost predicate Invertible<E, W(!new)>(fx: Effects<E, W>, x: E) {
    forall w {:trigger fx.admissible(x, w)} ::
      fx.admissible(x, w) ==> fx.undo(x, fx.perform(x, w)) == Some(w) && fx.undo(x, w) == Some(w)
  }

  /** Every effect is admissible at the start, and different effects are apart. */
  ghost predicate Compatible<E(!new), W(!new)>(fx: Effects<E, W>, w0: W, es: set<E>) {
    && (forall x {:trigger x in es} :: x in es ==> fx.admissible(x, w0) && (fx.reversible(x) ==> Invertible(fx, x)))
    && (forall x, y {:trigger Apart(fx, x, y)} ::
          x in es && y in es && x != y && fx.reversible(x) ==> Apart(fx, x, y))
  }

  lemma {:induction false} AdmissibleThroughout<E(!new), W(!new)>(fx: Effects<E, W>, w0: W, es: seq<E>, e: E)
    requires forall x :: x in es ==> Apart(fx, e, x)
    ensures fx.admissible(e, Run(fx, w0, es)) <==> fx.admissible(e, w0)
  {
    if es != [] {
      var init, last := es[..|es| - 1], es[|es| - 1];
      AdmissibleThroughout(fx, w0, init, e);
      assert last in es && Apart(fx, e, last);
    }
  }

  lemma RunSnoc<E, W>(fx: Effects<E, W>, w0: W, init: seq<E>, last: E)
    ensures Run(fx, w0, init + [last]) == fx.perform(last, Run(fx, w0, init))
  {
    assert (init + [last])[..|init|] == init;
  }

  /** Undoing `e` removes it from the run, wherever it was performed and if it was performed at all. */
  lemma {:induction false} UndoAnywhere<E(!new), W(!new)>(fx: Effects<E, W>, w0: W, es: seq<E>, e: E)
    requires Distinct(es) && fx.reversible(e) && fx.admissible(e, w0) && Invertible(fx, e)
    requires forall x :: x in es && x != e ==> Apart(fx, e, x)
    ensures fx.undo(e, Run(fx, w0, es)) == Some(Run(fx, w0, Filter(es, Except(e))))
  {
    if es != [] {
      var init, last := es[..|es| - 1], es[|es| - 1];
      assert es == init + [last] && last in es;
      assert Distinct(init) && forall x :: x in init ==> x in es;
      FilterSnoc(init, last, Except(e));
      RunSnoc(fx, w0, init, last);
      if last == e {
        FilterAll(init, Except(e));
        AdmissibleThroughout(fx, w0, init, e);
      } else {
        UndoAnywhere(fx, w0, init, e);
        RunSnoc(fx, w0, Filter(init, Except(e)), last);
        assert Apart(fx, e, last);
      }
    }
  }

  /** The same, for an effect compatible with those performed. */
  lemma UndoCompatible<E(!new), W(!new)>(fx: Effects<E, W>, w0: W, es: seq<E>, e: E, all: set<E>)
    requires Distinct(es) && fx.reversible(e) && e in all && (forall x :: x in es ==> x in all)
    requires Compatible(fx, w0, all)
    ensures fx.undo(e, Run(fx, w0, es)) == Some(Run(fx, w0, Filter(es, Except(e))))
  {
    forall x | x in es && x != e ensures Apart(fx, e, x) {
      assert x in all;
    }
    UndoAnywhere(fx, w0, es, e);
  }
}
