/** The loop shared by the loaders of the pass-through modules, whose construction is kept
    only as the record of the arguments it received. */
module Loaders {
  import opened Foreach
  import opened Modules

  /** Constructs the module of each step, in order, until the first TypeError. */
  method ConstructAll(w: World, steps: seq<Step<PassThrough>>) returns (outcome: Outcome)
    modifies w`built, w`calls, w.actionHooks
    ensures outcome == OutcomeOf(steps)
    ensures w.built == old(w.built) + Performed(steps)
  {
    outcome := Completed;
    var i := 0;
    while i < |steps|
      invariant i <= |steps| && forall j :: 0 <= j < i ==> !steps[j].Throws?
      invariant w.built == old(w.built) + Built(steps[..i])
    {
      if steps[i].Throws? {
        outcome := TypeError(i);
        break;
      }
      BuiltSnoc(steps, i);
      if steps[i].New? {
        w.Construct(steps[i].args);
      } else {
        assert Built(steps[..i]) + [] == Built(steps[..i]);
      }
      i := i + 1;
    }
    Stopped(steps, i);
  }
}
