/** `Registration\Sidebars::set`: each element becomes one Sidebar, as it is. */
module SidebarsRegistration {
  import opened Php
  import opened Foreach
  import opened Modules
  import opened Loaders

  /** The Sidebar constructor's `$args` is untyped, so no element raises a TypeError. */
  function Steps(sidebars: seq<Value>): (steps: seq<Step<PassThrough>>)
    ensures |steps| == |sidebars| && forall i :: 0 <= i < |sidebars| ==> steps[i] == New(Sidebar(sidebars[i]))
  {
    seq(|sidebars|, i requires 0 <= i < |sidebars| => New(Sidebar(sidebars[i])))
  }

  /** Every element constructs one Sidebar with that element unchanged, in order. */
  lemma OnePerElement(sidebars: seq<Value>)
    ensures OutcomeOf(Steps(sidebars)) == Completed
    ensures Performed(Steps(sidebars)) == seq(|sidebars|, i requires 0 <= i < |sidebars| => Sidebar(sidebars[i]))
  {
    AllNew(Steps(sidebars));
  }

  /** `Sidebars::set( $sidebars )` */
  method Set(w: World, sidebars: seq<Value>) returns (outcome: Outcome)
    modifies w`built, w`calls, w.actionHooks
    ensures outcome == Completed
    ensures w.built == old(w.built) + seq(|sidebars|, i requires 0 <= i < |sidebars| => Sidebar(sidebars[i]))
  {
    outcome := ConstructAll(w, Steps(sidebars));
    OnePerElement(sidebars);
  }
}
