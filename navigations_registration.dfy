/** `Registration\Navigations::set`: each entry of the array becomes one Navigation, the
    key its location and the value its description. */
module NavigationsRegistration {
  import opened Php
  import opened Foreach
  import opened Registries
  import opened Modules

  /** The arguments of one `new Navigation( $location, $description )` call. */
  datatype NavigationCall = NavigationCall(location: string, description: string)

  /** One entry `$location => $description` of the input, in iteration order. */
  type Entry = (ArrayKey, Value)

  /** One iteration: the description must reach a `string` parameter. */
  function NavigationStep(e: Entry): Step<NavigationCall>
  {
    match AsStringParam(e.1)
    case Some(description) => New(NavigationCall(KeyString(e.0), description))
    case None => Throws
  }

  function Steps(entries: seq<Entry>): (steps: seq<Step<NavigationCall>>)
    ensures |steps| == |entries| && forall i :: 0 <= i < |entries| ==> steps[i] == NavigationStep(entries[i])
  {
    seq(|entries|, i requires 0 <= i < |entries| => NavigationStep(entries[i]))
  }

  /** An entry is never skipped: it constructs a Navigation located at its key and described
      by its value, or raises a TypeError when its value is null, an array or a callback. */
  lemma EntryStep(e: Entry)
    ensures NavigationStep(e).Throws? <==> (e.1.Null? || e.1.Arr? || e.1.Callable?)
    ensures !NavigationStep(e).Skip?
    ensures NavigationStep(e).New? ==> NavigationStep(e).args.location == KeyString(e.0)
    ensures NavigationStep(e).New? ==> Some(NavigationStep(e).args.description) == AsStringParam(e.1)
    ensures e.1.Str? ==> NavigationStep(e) == New(NavigationCall(KeyString(e.0), e.1.s))
  {
  }

  /** An integer key becomes its decimal form as the location. */
  lemma IntKeyLocation(i: int, description: string)
    ensures NavigationStep((IntKey(i), Str(description))) == New(NavigationCall(IntToString(i), description))
  {
  }

  /** Entries with string keys and string values construct one Navigation each, in order,
      with the key and the value unchanged. */
  lemma {:induction false} StringEntries(entries: seq<Entry>)
    requires forall i :: 0 <= i < |entries| ==> entries[i].0.StrKey? && entries[i].1.Str?
    ensures OutcomeOf(Steps(entries)) == Completed
    ensures Performed(Steps(entries)) == seq(|entries|, i requires 0 <= i < |entries| =>
                                               NavigationCall(entries[i].0.s, entries[i].1.s))
  {
    var steps := Steps(entries);
    Stopped(steps, |steps|);
    assert steps[..|steps|] == steps;
  }

  /** The `add_action` call the construction of `nav` makes: its default `init` hook, since
      `set` leaves `register_menu` true. */
  function Attachment(nav: Navigation): WpCall
  {
    WpCall.AddAction("init", Callable(nav, "register_nav_menu"), 10, 1)
  }

  function Attachments(created: seq<Navigation>): seq<WpCall>
  {
    if created == [] then []
    else Attachments(created[..|created| - 1]) + [Attachment(created[|created| - 1])]
  }

  lemma AttachmentsSnoc(created: seq<Navigation>, nav: Navigation)
    ensures Attachments(created + [nav]) == Attachments(created) + [Attachment(nav)]
  {
    assert (created + [nav])[..|created|] == created;
  }

  /** The navigation `nav` and its default hook `hook` were made by the call `c`. */
  ghost predicate Made(c: NavigationCall, nav: Navigation, hook: ActionHook)
  {
    nav.location == c.location && nav.description == c.description && nav.registerMenu &&
    hook.IsDefault("init", Callable(nav, "register_nav_menu"))
  }

  ghost predicate AllMade(done: seq<NavigationCall>, created: seq<Navigation>, hooks: seq<ActionHook>)
  {
    |created| == |done| == |hooks| &&
    forall j :: 0 <= j < |created| ==> Made(done[j], created[j], hooks[j])
  }

  lemma AllMadeSnoc(done: seq<NavigationCall>, created: seq<Navigation>, hooks: seq<ActionHook>,
                    c: NavigationCall, nav: Navigation, hook: ActionHook)
    requires AllMade(done, created, hooks) && Made(c, nav, hook)
    ensures AllMade(done + [c], created + [nav], hooks + [hook])
  {
  }

  /** The call log and the stores `set` changes, at one moment. */
  datatype Snapshot = Snapshot(calls: seq<WpCall>, navigations: map<Key, Navigation>, hooks: map<Key, ActionHook>)

  ghost function SnapshotOf(w: World): Snapshot
    reads w, w.navigations, w.actionHooks
  {
    Snapshot(w.calls, w.navigations.components, w.actionHooks.components)
  }

  /** The snapshot after the construction of `nav`, with default hook `hook`. */
  ghost function After(s: Snapshot, w: World, nav: Navigation, hook: ActionHook): Snapshot
  {
    Snapshot(s.calls + [Attachment(nav)], s.navigations[w.navigations.keyOf(nav) := nav],
             s.hooks[w.actionHooks.keyOf(hook) := hook])
  }

  /** The snapshot reached from `s0` by the constructions, first to last. */
  ghost function Effects(s0: Snapshot, w: World, created: seq<Navigation>, hooks: seq<ActionHook>): Snapshot
    requires |created| == |hooks|
  {
    if created == [] then s0
    else
      var n := |created| - 1;
      After(Effects(s0, w, created[..n], hooks[..n]), w, created[n], hooks[n])
  }

  lemma EffectsSnoc(s0: Snapshot, w: World, created: seq<Navigation>, hooks: seq<ActionHook>,
                    nav: Navigation, hook: ActionHook)
    requires |created| == |hooks|
    ensures Effects(s0, w, created + [nav], hooks + [hook]) == After(Effects(s0, w, created, hooks), w, nav, hook)
  {
    assert (created + [nav])[..|created|] == created;
    assert (hooks + [hook])[..|created|] == hooks;
  }

  /** Starting from `s0`, the constructions of the navigations `created`, with the default
      hooks `hooks`, lead to `s`: each logs the attachment of its hook and is stored in the
      navigation registry, and its hook in the action hook registry. */
  ghost predicate Recorded(s: Snapshot, s0: Snapshot, w: World, created: seq<Navigation>, hooks: seq<ActionHook>)
  {
    s.calls == s0.calls + Attachments(created) &&
    s.navigations == AddAll(s0.navigations, created, w.navigations.keyOf) &&
    s.hooks == AddAll(s0.hooks, hooks, w.actionHooks.keyOf)
  }

  lemma RecordedSnoc(s: Snapshot, s0: Snapshot, w: World, created: seq<Navigation>, hooks: seq<ActionHook>,
                     nav: Navigation, hook: ActionHook)
    requires Recorded(s, s0, w, created, hooks)
    ensures Recorded(After(s, w, nav, hook), s0, w, created + [nav], hooks + [hook])
  {
    AttachmentsSnoc(created, nav);
    AddAllSnoc(s0.navigations, created, nav, w.navigations.keyOf);
    AddAllSnoc(s0.hooks, hooks, hook, w.actionHooks.keyOf);
  }

  /** `Effects` is what `Recorded` states. */
  lemma {:induction false} EffectsRecorded(s0: Snapshot, w: World, created: seq<Navigation>, hooks: seq<ActionHook>)
    requires |created| == |hooks|
    ensures Recorded(Effects(s0, w, created, hooks), s0, w, created, hooks)
    decreases |created|
  {
    if created == [] {
      assert s0.calls + [] == s0.calls;
    } else {
      var n := |created| - 1;
      assert created == created[..n] + [created[n]] && hooks == hooks[..n] + [hooks[n]];
      EffectsRecorded(s0, w, created[..n], hooks[..n]);
      RecordedSnoc(Effects(s0, w, created[..n], hooks[..n]), s0, w, created[..n], hooks[..n], created[n], hooks[n]);
    }
  }

  /** An empty input constructs nothing and changes nothing. */
  lemma EmptyInputChangesNothing(s: Snapshot, s0: Snapshot, w: World, created: seq<Navigation>, hooks: seq<ActionHook>)
    requires AllMade(Performed(Steps([])), created, hooks) && Recorded(s, s0, w, created, hooks)
    ensures created == [] && s == s0
  {
    Stopped(Steps([]), 0);
    assert s.calls == s0.calls + [];
  }

  /** `Navigations::set( $navigations )`: one Navigation per entry, in order, until the first
      TypeError. `created` are the navigations constructed and `hooks` their default hooks. */
  method Set(w: World, navigations: seq<Entry>)
    returns (outcome: Outcome, ghost created: seq<Navigation>, ghost hooks: seq<ActionHook>)
    modifies w.actionHooks, w.navigations, w`calls
    ensures outcome == OutcomeOf(Steps(navigations))
    ensures AllMade(Performed(Steps(navigations)), created, hooks)
    ensures Recorded(SnapshotOf(w), old(SnapshotOf(w)), w, created, hooks)
  {
    ghost var s0 := SnapshotOf(w);
    outcome, created, hooks := Run(w, Steps(navigations));
    EffectsRecorded(s0, w, created, hooks);
  }

  /** After `i` entries the loop has thrown nothing, has made `created` from the calls `done`
      of those entries, and these constructions took `s0` to the current state. */
  ghost predicate ProgressAt(s: Snapshot, w: World, steps: seq<Step<NavigationCall>>, i: nat, s0: Snapshot,
                             done: seq<NavigationCall>, created: seq<Navigation>, hooks: seq<ActionHook>)
  {
    i <= |steps| && (forall j :: 0 <= j < i ==> !steps[j].Throws?) &&
    done == Built(steps[..i]) && AllMade(done, created, hooks) &&
    s == Effects(s0, w, created, hooks)
  }

  ghost predicate Progress(w: World, steps: seq<Step<NavigationCall>>, i: nat, s0: Snapshot, done: seq<NavigationCall>,
                           created: seq<Navigation>, hooks: seq<ActionHook>)
    reads w, w.navigations, w.actionHooks
  {
    ProgressAt(SnapshotOf(w), w, steps, i, s0, done, created, hooks)
  }

  /** Where the loop stops, at the first TypeError or after the last step, the outcome and
      the constructions are those of the whole input. */
  lemma Finish(s: Snapshot, w: World, steps: seq<Step<NavigationCall>>, i: nat, s0: Snapshot,
               done: seq<NavigationCall>, created: seq<Navigation>, hooks: seq<ActionHook>)
    requires ProgressAt(s, w, steps, i, s0, done, created, hooks)
    requires i < |steps| ==> steps[i].Throws?
    ensures OutcomeOf(steps) == if i < |steps| then TypeError(i) else Completed
    ensures AllMade(Performed(steps), created, hooks) && s == Effects(s0, w, created, hooks)
  {
    Stopped(steps, i);
  }

  /** A skipped step leaves the state as it was. */
  lemma AdvanceSkip(s: Snapshot, w: World, steps: seq<Step<NavigationCall>>, i: nat, s0: Snapshot,
                    done: seq<NavigationCall>, created: seq<Navigation>, hooks: seq<ActionHook>)
    requires i < |steps| && steps[i].Skip? && ProgressAt(s, w, steps, i, s0, done, created, hooks)
    ensures ProgressAt(s, w, steps, i + 1, s0, done, created, hooks)
  {
    BuiltSnoc(steps, i);
    assert done + [] == done;
  }

  /** A constructing step extends the constructions by its own. */
  lemma AdvanceNew(s: Snapshot, w: World, steps: seq<Step<NavigationCall>>, i: nat, s0: Snapshot,
                   done: seq<NavigationCall>, created: seq<Navigation>, hooks: seq<ActionHook>, nav: Navigation, hook: ActionHook)
    requires i < |steps| && steps[i].New? && ProgressAt(s, w, steps, i, s0, done, created, hooks)
    requires Made(steps[i].args, nav, hook)
    ensures ProgressAt(After(s, w, nav, hook), w, steps, i + 1, s0, done + [steps[i].args], created + [nav], hooks + [hook])
  {
    PrefixSnoc(steps, i, done);
    EffectsSnoc(s0, w, created, hooks, nav, hook);
    AllMadeSnoc(done, created, hooks, steps[i].args, nav, hook);
  }

  /** The loop of `set` over the steps its entries lead to. */
  method Run(w: World, steps: seq<Step<NavigationCall>>)
    returns (outcome: Outcome, ghost created: seq<Navigation>, ghost hooks: seq<ActionHook>)
    modifies w.actionHooks, w.navigations, w`calls
    ensures outcome == OutcomeOf(steps) && AllMade(Performed(steps), created, hooks)
    ensures SnapshotOf(w) == Effects(old(SnapshotOf(w)), w, created, hooks)
  {
    ghost var s0 := SnapshotOf(w);
    ghost var done := [];
    created, hooks := [], [];
    outcome := Completed;
    var i := 0;
    while i < |steps|
      invariant Progress(w, steps, i, s0, done, created, hooks) && outcome == Completed
    {
      if steps[i].Throws? {
        outcome := TypeError(i);
        break;
      }
      done, created, hooks := Iterate(w, steps, i, s0, done, created, hooks);
      i := i + 1;
    }
    Finish(SnapshotOf(w), w, steps, i, s0, done, created, hooks);
  }

  /** One iteration that does not throw. */
  method Iterate(w: World, steps: seq<Step<NavigationCall>>, i: nat, ghost s0: Snapshot,
                 ghost done: seq<NavigationCall>, ghost created: seq<Navigation>, ghost hooks: seq<ActionHook>)
    returns (ghost done': seq<NavigationCall>, ghost created': seq<Navigation>, ghost hooks': seq<ActionHook>)
    requires i < |steps| && !steps[i].Throws?
    requires Progress(w, steps, i, s0, done, created, hooks)
    modifies w.actionHooks, w.navigations, w`calls
    ensures Progress(w, steps, i + 1, s0, done', created', hooks')
  {
    if steps[i].Skip? {
      AdvanceSkip(SnapshotOf(w), w, steps, i, s0, done, created, hooks);
      done', created', hooks' := done, created, hooks;
    } else {
      ghost var s := SnapshotOf(w);
      var nav;
      ghost var hook;
      nav, hook := Construct(w, steps[i].args);
      AdvanceNew(s, w, steps, i, s0, done, created, hooks, nav, hook);
      done', created', hooks' := done + [steps[i].args], created + [nav], hooks + [hook];
    }
  }

  /** `new Navigation( $location, $description )`: hook and `register_menu` left default. */
  method Construct(w: World, c: NavigationCall) returns (nav: Navigation, ghost hook: ActionHook)
    modifies w.actionHooks, w.navigations, w`calls
    ensures fresh(nav) && Made(c, nav, hook)
    ensures SnapshotOf(w) == After(old(SnapshotOf(w)), w, nav, hook)
  {
    ghost var hooks0 := w.actionHooks.components;
    nav := new Navigation(w, c.location, c.description);
    hook := nav.actionHook;
    AddAllSnoc(hooks0, [], hook, w.actionHooks.keyOf);
  }
}
