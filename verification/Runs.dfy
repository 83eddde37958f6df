/** Runs of a transition system given by its step function, and properties of all their steps. */
module Runs {
  /** The world after some events. */
  ghost function After<W, E>(step: (W, E) -> W, w: W, events: seq<E>): W {
    if events == [] then w else step(After(step, w, events[..|events| - 1]), events[|events| - 1])
  }

  /** Every event meets `p` in the world it happens in. */
  ghost predicate Along<W, E>(step: (W, E) -> W, p: (W, E) -> bool, w: W, events: seq<E>) {
    events == [] ||
    (var before := events[..|events| - 1];
     Along(step, p, w, before) && p(After(step, w, before), events[|events| - 1]))
  }

  lemma More<W, E>(step: (W, E) -> W, p: (W, E) -> bool, w: W, events: seq<E>, e: E)
    ensures After(step, w, events + [e]) == step(After(step, w, events), e)
    ensures Along(step, p, w, events + [e]) <==> Along(step, p, w, events) && p(After(step, w, events), e)
  {
    assert (events + [e])[..|events|] == events;
  }

  lemma {:induction false} Concat<W, E>(step: (W, E) -> W, p: (W, E) -> bool, w: W, events: seq<E>, more: seq<E>)
    ensures After(step, w, events + more) == After(step, After(step, w, events), more)
    ensures Along(step, p, w, events + more) <==>
      Along(step, p, w, events) && Along(step, p, After(step, w, events), more)
    decreases |more|
  {
    if more == [] {
      assert events + more == events;
    } else {
      var before, e := more[..|more| - 1], more[|more| - 1];
      Concat(step, p, w, events, before);
      More(step, p, w, events + before, e);
      assert events + before + [e] == events + more;
    }
  }

  lemma Prefix<W, E>(step: (W, E) -> W, p: (W, E) -> bool, w: W, events: seq<E>, n: nat)
    requires n <= |events| && Along(step, p, w, events)
    ensures Along(step, p, w, events[..n])
  {
    Concat(step, p, w, events[..n], events[n..]);
    assert events[..n] + events[n..] == events;
  }

  /** What every step keeps holds after the run, and every event meets `q` if it does where the
      invariant holds. */
  lemma {:induction false} Keeps<W(!new), E(!new)>(step: (W, E) -> W, p: (W, E) -> bool, q: (W, E) -> bool,
                                                   inv: W -> bool, w: W, events: seq<E>)
    requires inv(w) && Along(step, p, w, events)
    requires forall v, e {:trigger p(v, e)} :: inv(v) && p(v, e) ==> inv(step(v, e)) && q(v, e)
    ensures inv(After(step, w, events)) && Along(step, q, w, events)
  {
    if events != [] { Keeps(step, p, q, inv, w, events[..|events| - 1]); }
  }

  /** The first event that does not meet `p`. */
  lemma {:induction false} FirstBad<W, E>(step: (W, E) -> W, p: (W, E) -> bool, w: W, events: seq<E>)
    returns (n: nat)
    requires !Along(step, p, w, events)
    ensures n < |events| && Along(step, p, w, events[..n]) && !p(After(step, w, events[..n]), events[n])
  {
    var m := |events| - 1;
    if Along(step, p, w, events[..m]) {
      n := m;
    } else {
      n := FirstBad(step, p, w, events[..m]);
      assert events[..m][..n] == events[..n];
    }
  }
}
