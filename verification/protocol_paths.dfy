/** Finite sequences of protocol steps. */
module ProtocolPaths {
  import opened Protocol
  import Paths

  ghost predicate Reaches(s: State, t: State) { Paths.Reaches(Next, s, t) }

  ghost predicate Moves(s: State, step: Step, t: State) { Enabled(s, step) && Apply(s, step) == t }

  lemma Start(s: State)
    ensures Reaches(s, s)
  {
    hide Next;
    Paths.Start(Next, s);
  }

  lemma Follow(s: State, t: State, step: Step, u: State)
    requires Reaches(s, t) && Moves(t, step, u)
    ensures Reaches(s, u)
  {
    hide Enabled, Apply;
    assert Next(t, u);
    hide Next;
    Paths.Extend(Next, s, t, u);
  }

  lemma Extend(s: State, t: State, step: Step)
    requires Reaches(s, t) && Enabled(t, step)
    ensures Reaches(s, Apply(t, step))
  {
    hide Reaches, Enabled, Apply;
    Follow(s, t, step, Apply(t, step));
  }

  lemma Join(s: State, t: State, u: State)
    requires Reaches(s, t) && Reaches(t, u)
    ensures Reaches(s, u)
  {
    hide Next;
    Paths.Join(Next, s, t, u);
  }
}
