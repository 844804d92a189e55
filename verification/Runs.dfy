/** Paths of a step relation, for exhibiting single runs. */
module Runs {

  /** states[i + 1] follows from states[i] by actions[i]. */
  ghost predicate IsPath<S(!new), A(!new)>(from: S, next: (S, A, S) -> bool, states: seq<S>, actions: seq<A>) {
    && |states| == |actions| + 1
    && states[0] == from
    && forall i {:trigger actions[i]} :: 0 <= i < |actions| ==> next(states[i], actions[i], states[i + 1])
  }

  ghost predicate Leads<S(!new), A(!new)>(from: S, next: (S, A, S) -> bool, states: seq<S>, actions: seq<A>, to: S) {
    IsPath(from, next, states, actions) && states[|actions|] == to
  }

  ghost predicate Reaches<S(!new), A(!new)>(from: S, next: (S, A, S) -> bool, to: S) {
    exists states, actions :: Leads(from, next, states, actions, to)
  }

  lemma ReachesSelf<S(!new), A(!new)>(from: S, next: (S, A, S) -> bool)
    ensures Reaches(from, next, from)
  {
    var none: seq<A> := [];
    assert Leads(from, next, [from], none, from);
  }

  lemma ReachesOn<S(!new), A(!new)>(from: S, next: (S, A, S) -> bool, s: S, x: A, to: S)
    requires Reaches(from, next, s) && next(s, x, to)
    ensures Reaches(from, next, to)
  {
    var states, actions :| Leads(from, next, states, actions, s);
    var states', actions' := states + [to], actions + [x];
    forall i {:trigger actions'[i]} | 0 <= i < |actions'|
      ensures next(states'[i], actions'[i], states'[i + 1])
    {
      assert i < |actions| ==> actions'[i] == actions[i];
    }
    assert Leads(from, next, states', actions', to);
  }

  /** A path of one system carried over, step by step, to another that is already under way. */
  lemma Carried<S(!new), A(!new), T(!new), B(!new)>(
      from: S, next: (S, A, S) -> bool, to: S,
      base: T, next': (T, B, T) -> bool, image: S -> T, action: A -> B)
    requires Reaches(from, next, to) && Reaches(base, next', image(from))
    requires forall s, x, s' {:trigger next(s, x, s')} :: next(s, x, s') ==> next'(image(s), action(x), image(s'))
    ensures Reaches(base, next', image(to))
  {
    var states, actions :| Leads(from, next, states, actions, to);
    for i := 0 to |actions|
      invariant Reaches(base, next', image(states[i]))
    {
      assert next(states[i], actions[i], states[i + 1]);
      ReachesOn(base, next', image(states[i]), action(actions[i]), image(states[i + 1]));
    }
  }
}
