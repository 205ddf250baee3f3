/** What a loader's `foreach` over its definitions does, step by step: each definition
    either constructs one module, is skipped (`continue`), or raises a TypeError in the
    constructor call, which ends the loop and leaves the earlier constructions in place. */
module Foreach {

  datatype Step<+A> = New(args: A) | Skip | Throws

  /** How a call to a loader's `set` ends: normally, or by the TypeError of definition `at`. */
  datatype Outcome = Completed | TypeError(at: nat)

  /** The number of steps that run before the first TypeError (all of them if none throws). */
  function Halt<A>(steps: seq<Step<A>>): (n: nat)
    ensures n <= |steps|
    ensures forall i :: 0 <= i < n ==> !steps[i].Throws?
    ensures n < |steps| ==> steps[n].Throws?
  {
    if steps == [] || steps[0].Throws? then 0 else 1 + Halt(steps[1..])
  }

  /** The constructor arguments of the steps that construct something, in order. */
  function Built<A>(steps: seq<Step<A>>): (r: seq<A>)
    ensures |r| <= |steps|
    ensures (forall i :: 0 <= i < |steps| ==> steps[i].New?) ==>
              |r| == |steps| && forall i :: 0 <= i < |steps| ==> r[i] == steps[i].args
  {
    if steps == [] then []
    else
      var last := steps[|steps| - 1];
      Built(steps[..|steps| - 1]) + if last.New? then [last.args] else []
  }

  function OutcomeOf<A>(steps: seq<Step<A>>): Outcome
  {
    if Halt(steps) < |steps| then TypeError(Halt(steps)) else Completed
  }

  /** The steps that actually construct something before `set` returns or throws. */
  function Performed<A>(steps: seq<Step<A>>): seq<A>
  {
    Built(steps[..Halt(steps)])
  }

  /** The loop stops at the first throwing step, or after the last step. */
  lemma Stopped<A>(steps: seq<Step<A>>, i: nat)
    requires i <= |steps| && forall j :: 0 <= j < i ==> !steps[j].Throws?
    requires i < |steps| ==> steps[i].Throws?
    ensures Halt(steps) == i && Performed(steps) == Built(steps[..i])
    ensures OutcomeOf(steps) == if i < |steps| then TypeError(i) else Completed
  {
  }

  /** One more step extends the constructions by at most its own. */
  lemma BuiltSnoc<A>(steps: seq<Step<A>>, i: nat)
    requires i < |steps|
    ensures Built(steps[..i + 1]) == Built(steps[..i]) + if steps[i].New? then [steps[i].args] else []
  {
    assert steps[..i + 1][..i] == steps[..i];
  }

  /** A loop that has thrown nothing so far and takes a constructing step still has thrown
      nothing, and has built one more module. */
  lemma PrefixSnoc<A>(steps: seq<Step<A>>, i: nat, done: seq<A>)
    requires i < |steps| && steps[i].New? && (forall j :: 0 <= j < i ==> !steps[j].Throws?)
    requires done == Built(steps[..i])
    ensures forall j :: 0 <= j < i + 1 ==> !steps[j].Throws?
    ensures done + [steps[i].args] == Built(steps[..i + 1])
  {
    BuiltSnoc(steps, i);
  }

  /** When every step constructs, the loop completes and constructs one module per step,
      in order, from that step's arguments. */
  lemma AllNew<A>(steps: seq<Step<A>>)
    requires forall i :: 0 <= i < |steps| ==> steps[i].New?
    ensures OutcomeOf(steps) == Completed
    ensures |Performed(steps)| == |steps| && forall i :: 0 <= i < |steps| ==> Performed(steps)[i] == steps[i].args
  {
    Stopped(steps, |steps|);
    assert steps[..|steps|] == steps;
  }
}
