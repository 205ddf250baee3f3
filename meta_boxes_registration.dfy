/** `Registration\MetaBoxes::set`: each definition becomes one MetaBox, every argument read
    by name first, by position second, and otherwise defaulted. */
module MetaBoxesRegistration {
  import opened Php
  import opened Foreach
  import opened Registries
  import opened Modules

  /** The arguments of one `new MetaBox( ... )` call. */
  datatype MetaBoxCall = MetaBoxCall(id: string, title: string, callback: Value, screen: Value,
                                     context: string, priority: string, callbackArgs: Value)

  /** The seven locals one iteration resolves. */
  datatype Locals = Locals(id: Value, title: Value, callback: Value, screen: Value, context: Value,
                           priority: Value, callbackArgs: Value)

  function ReadLocals(def: PhpArray): Locals
  {
    Locals(Field(def, "id", 0, Null), Field(def, "title", 1, Null), Field(def, "callback", 2, Null),
           Field(def, "screen", 3, Null), Field(def, "context", 4, Str("advanced")),
           Field(def, "priority", 5, Str("default")), Field(def, "callback_args", 6, Null))
  }

  /** `new MetaBox( ... )` on the locals, or its TypeError: `id`, `title`, `context` and
      `priority` are `string` parameters. */
  function StepOf(l: Locals): Step<MetaBoxCall>
  {
    match (AsStringParam(l.id), AsStringParam(l.title), AsStringParam(l.context), AsStringParam(l.priority))
    case (Some(id), Some(title), Some(context), Some(priority)) =>
      New(MetaBoxCall(id, title, l.callback, l.screen, context, priority, l.callbackArgs))
    case _ => Throws
  }

  /** One iteration of the loop. */
  function MetaBoxStep(def: PhpArray): Step<MetaBoxCall>
  {
    StepOf(ReadLocals(def))
  }

  function Steps(defs: seq<PhpArray>): (steps: seq<Step<MetaBoxCall>>)
    ensures |steps| == |defs| && forall i :: 0 <= i < |defs| ==> steps[i] == MetaBoxStep(defs[i])
  {
    seq(|defs|, i requires 0 <= i < |defs| => MetaBoxStep(defs[i]))
  }

  /** The call written as an associative definition. */
  function AssociativeDefinition(c: MetaBoxCall): PhpArray
  {
    map[StrKey("id") := Str(c.id), StrKey("title") := Str(c.title), StrKey("callback") := c.callback,
        StrKey("screen") := c.screen, StrKey("context") := Str(c.context), StrKey("priority") := Str(c.priority),
        StrKey("callback_args") := c.callbackArgs]
  }

  /** The call written as a positional definition. */
  function PositionalDefinition(c: MetaBoxCall): PhpArray
  {
    map[IntKey(0) := Str(c.id), IntKey(1) := Str(c.title), IntKey(2) := c.callback, IntKey(3) := c.screen,
        IntKey(4) := Str(c.context), IntKey(5) := Str(c.priority), IntKey(6) := c.callbackArgs]
  }

  /** Every constructor call survives being written as an associative definition, null
      callback, screen and arguments included. */
  lemma AssociativeRoundTrip(c: MetaBoxCall)
    ensures MetaBoxStep(AssociativeDefinition(c)) == New(c)
  {
    var def := AssociativeDefinition(c);
    assert ReadLocals(def) == Locals(Str(c.id), Str(c.title), c.callback, c.screen, Str(c.context),
                                     Str(c.priority), c.callbackArgs);
  }

  /** Every constructor call survives being written as a positional definition. */
  lemma PositionalRoundTrip(c: MetaBoxCall)
    ensures MetaBoxStep(PositionalDefinition(c)) == New(c)
  {
    PositionalReads(c);
  }

  lemma PositionalReads(c: MetaBoxCall)
    ensures ReadLocals(PositionalDefinition(c)) ==
              Locals(Str(c.id), Str(c.title), c.callback, c.screen, Str(c.context), Str(c.priority), c.callbackArgs)
  {
  }

  /** A definition with only an id and a title takes the defaults: no callback (so the box
      renders itself), no screen, the `advanced` context and the `default` priority. */
  lemma Defaults(id: string, title: string)
    ensures MetaBoxStep(map[StrKey("id") := Str(id), StrKey("title") := Str(title)]) ==
              New(MetaBoxCall(id, title, Null, Null, "advanced", "default", Null))
  {
    var def := map[StrKey("id") := Str(id), StrKey("title") := Str(title)];
    assert ReadLocals(def) == Locals(Str(id), Str(title), Null, Null, Str("advanced"), Str("default"), Null);
  }

  /** Each argument is resolved on its own, so one definition may mix the two forms. */
  lemma MixedForms(id: string, title: string, context: string)
    ensures MetaBoxStep(map[StrKey("id") := Str(id), IntKey(1) := Str(title), IntKey(4) := Str(context)]) ==
              New(MetaBoxCall(id, title, Null, Null, context, "default", Null))
  {
    var def := map[StrKey("id") := Str(id), IntKey(1) := Str(title), IntKey(4) := Str(context)];
    assert ReadLocals(def) == Locals(Str(id), Str(title), Null, Null, Str(context), Str("default"), Null);
  }

  /** A name key set to null is not set, so the definition reads as if it were missing. */
  lemma NullKeyIsAbsent(def: PhpArray, name: string)
    ensures MetaBoxStep(def[StrKey(name) := Null]) == MetaBoxStep(def - {StrKey(name)})
  {
    assert ReadLocals(def[StrKey(name) := Null]) == ReadLocals(def - {StrKey(name)});
  }

  /** A definition with no id, or no title, under either key passes null to a `string`
      parameter of the constructor, which raises a TypeError. */
  lemma MissingIdOrTitleThrows(def: PhpArray)
    requires (!IsSet(def, StrKey("id")) && !IsSet(def, IntKey(0))) ||
             (!IsSet(def, StrKey("title")) && !IsSet(def, IntKey(1)))
    ensures MetaBoxStep(def) == Throws
  {
    assert ReadLocals(def).id.Null? || ReadLocals(def).title.Null?;
  }

  /** The two `add_action` calls the construction of `box` makes with its default hooks. */
  function Attachments(box: MetaBox): seq<WpCall>
  {
    [WpCall.AddAction("add_meta_boxes", Callable(box, "add_meta_box"), 10, 1),
     WpCall.AddAction("save_post", Callable(box, "update_post_meta"), 10, 1)]
  }

  function AllAttachments(created: seq<MetaBox>): seq<WpCall>
  {
    if created == [] then []
    else AllAttachments(created[..|created| - 1]) + Attachments(created[|created| - 1])
  }

  lemma AllAttachmentsSnoc(created: seq<MetaBox>, box: MetaBox)
    ensures AllAttachments(created + [box]) == AllAttachments(created) + Attachments(box)
  {
    assert (created + [box])[..|created|] == created;
  }

  /** The box `box` and its default hooks `pair` were made by the call `c`. */
  ghost predicate Made(c: MetaBoxCall, box: MetaBox, pair: (ActionHook, ActionHook))
  {
    box.id == c.id && box.title == c.title && box.callbackArg == c.callback && box.screen == c.screen &&
    box.context == c.context && box.priority == c.priority && box.callbackArgs == c.callbackArgs &&
    pair.0.IsDefault("add_meta_boxes", Callable(box, "add_meta_box")) &&
    pair.1.IsDefault("save_post", Callable(box, "update_post_meta"))
  }

  ghost predicate AllMade(done: seq<MetaBoxCall>, created: seq<MetaBox>, hooks: seq<(ActionHook, ActionHook)>)
  {
    |created| == |done| == |hooks| &&
    forall j :: 0 <= j < |created| ==> Made(done[j], created[j], hooks[j])
  }

  lemma AllMadeSnoc(done: seq<MetaBoxCall>, created: seq<MetaBox>, hooks: seq<(ActionHook, ActionHook)>,
                    c: MetaBoxCall, box: MetaBox, pair: (ActionHook, ActionHook))
    requires AllMade(done, created, hooks) && Made(c, box, pair)
    ensures AllMade(done + [c], created + [box], hooks + [pair])
  {
  }

  /** The call log and the stores `set` changes, at one moment. */
  datatype Snapshot = Snapshot(calls: seq<WpCall>, boxes: map<Key, MetaBox>, hooks: map<Key, ActionHook>)

  ghost function SnapshotOf(w: World): Snapshot
    reads w, w.metaBoxes, w.actionHooks
  {
    Snapshot(w.calls, w.metaBoxes.components, w.actionHooks.components)
  }

  /** The snapshot after the construction of `box`, with default hooks `pair`. */
  ghost function After(s: Snapshot, w: World, box: MetaBox, pair: (ActionHook, ActionHook)): Snapshot
  {
    Snapshot(s.calls + Attachments(box), s.boxes[w.metaBoxes.keyOf(box) := box],
             s.hooks[w.actionHooks.keyOf(pair.0) := pair.0][w.actionHooks.keyOf(pair.1) := pair.1])
  }

  /** The snapshot reached from `s0` by the constructions, first to last. */
  ghost function Effects(s0: Snapshot, w: World, created: seq<MetaBox>, hooks: seq<(ActionHook, ActionHook)>): Snapshot
    requires |created| == |hooks|
  {
    if created == [] then s0
    else
      var n := |created| - 1;
      After(Effects(s0, w, created[..n], hooks[..n]), w, created[n], hooks[n])
  }

  lemma EffectsSnoc(s0: Snapshot, w: World, created: seq<MetaBox>, hooks: seq<(ActionHook, ActionHook)>,
                    box: MetaBox, pair: (ActionHook, ActionHook))
    requires |created| == |hooks|
    ensures Effects(s0, w, created + [box], hooks + [pair]) == After(Effects(s0, w, created, hooks), w, box, pair)
  {
    assert (created + [box])[..|created|] == created;
    assert (hooks + [pair])[..|created|] == hooks;
  }

  /** Starting from `s0`, the constructions of the boxes `created`, with the default hooks
      `hooks`, lead to `s`: each logs its two attachments, add first, and is stored in the
      meta box registry, and its two hooks in the action hook registry. */
  ghost predicate Recorded(s: Snapshot, s0: Snapshot, w: World, created: seq<MetaBox>,
                           hooks: seq<(ActionHook, ActionHook)>)
  {
    s.calls == s0.calls + AllAttachments(created) &&
    s.boxes == AddAll(s0.boxes, created, w.metaBoxes.keyOf) &&
    s.hooks == AddAll(s0.hooks, Flatten(hooks), w.actionHooks.keyOf)
  }

  lemma RecordedSnoc(s: Snapshot, s0: Snapshot, w: World, created: seq<MetaBox>, hooks: seq<(ActionHook, ActionHook)>,
                     box: MetaBox, pair: (ActionHook, ActionHook))
    requires Recorded(s, s0, w, created, hooks)
    ensures Recorded(After(s, w, box, pair), s0, w, created + [box], hooks + [pair])
  {
    AllAttachmentsSnoc(created, box);
    AddAllSnoc(s0.boxes, created, box, w.metaBoxes.keyOf);
    AddAllFlattenSnoc(s.hooks, s0.hooks, hooks, pair, w.actionHooks.keyOf);
  }

  /** `Effects` is what `Recorded` states. */
  lemma {:induction false} EffectsRecorded(s0: Snapshot, w: World, created: seq<MetaBox>,
                                           hooks: seq<(ActionHook, ActionHook)>)
    requires |created| == |hooks|
    ensures Recorded(Effects(s0, w, created, hooks), s0, w, created, hooks)
    decreases |created|
  {
    if created == [] {
      assert s0.calls + [] == s0.calls;
    } else {
      var n := |created| - 1;
      assert created == created[..n] + [created[n]] && hooks == hooks[..n] + [hooks[n]];
      EffectsRecorded(s0, w, created[..n], hooks[..n]);
      RecordedSnoc(Effects(s0, w, created[..n], hooks[..n]), s0, w, created[..n], hooks[..n], created[n], hooks[n]);
    }
  }

  /** `MetaBoxes::set( $meta_boxes )`: one MetaBox per definition, in order, until the
      first TypeError. `created` are the boxes constructed and `hooks` their default hooks. */
  method Set(w: World, metaBoxes: seq<PhpArray>)
    returns (outcome: Outcome, ghost created: seq<MetaBox>, ghost hooks: seq<(ActionHook, ActionHook)>)
    modifies w.actionHooks, w.metaBoxes, w`calls
    ensures outcome == OutcomeOf(Steps(metaBoxes))
    ensures AllMade(Performed(Steps(metaBoxes)), created, hooks)
    ensures Recorded(SnapshotOf(w), old(SnapshotOf(w)), w, created, hooks)
  {
    ghost var s0 := SnapshotOf(w);
    outcome, created, hooks := Run(w, Steps(metaBoxes));
    EffectsRecorded(s0, w, created, hooks);
  }

  /** After `i` definitions the loop has thrown nothing, has made `created` from the calls
      `done` of those definitions, and these constructions took `s0` to the current state. */
  ghost predicate ProgressAt(s: Snapshot, w: World, steps: seq<Step<MetaBoxCall>>, i: nat, s0: Snapshot,
                             done: seq<MetaBoxCall>, created: seq<MetaBox>, hooks: seq<(ActionHook, ActionHook)>)
  {
    i <= |steps| && (forall j :: 0 <= j < i ==> !steps[j].Throws?) &&
    done == Built(steps[..i]) && AllMade(done, created, hooks) &&
    s == Effects(s0, w, created, hooks)
  }

  ghost predicate Progress(w: World, steps: seq<Step<MetaBoxCall>>, i: nat, s0: Snapshot, done: seq<MetaBoxCall>,
                           created: seq<MetaBox>, hooks: seq<(ActionHook, ActionHook)>)
    reads w, w.metaBoxes, w.actionHooks
  {
    ProgressAt(SnapshotOf(w), w, steps, i, s0, done, created, hooks)
  }

  /** Where the loop stops, at the first TypeError or after the last step, the outcome and
      the constructions are those of the whole input. */
  lemma Finish(s: Snapshot, w: World, steps: seq<Step<MetaBoxCall>>, i: nat, s0: Snapshot,
               done: seq<MetaBoxCall>, created: seq<MetaBox>, hooks: seq<(ActionHook, ActionHook)>)
    requires ProgressAt(s, w, steps, i, s0, done, created, hooks)
    requires i < |steps| ==> steps[i].Throws?
    ensures OutcomeOf(steps) == if i < |steps| then TypeError(i) else Completed
    ensures AllMade(Performed(steps), created, hooks) && s == Effects(s0, w, created, hooks)
  {
    Stopped(steps, i);
  }

  /** A skipped step leaves the state as it was. */
  lemma AdvanceSkip(s: Snapshot, w: World, steps: seq<Step<MetaBoxCall>>, i: nat, s0: Snapshot,
                    done: seq<MetaBoxCall>, created: seq<MetaBox>, hooks: seq<(ActionHook, ActionHook)>)
    requires i < |steps| && steps[i].Skip? && ProgressAt(s, w, steps, i, s0, done, created, hooks)
    ensures ProgressAt(s, w, steps, i + 1, s0, done, created, hooks)
  {
    BuiltSnoc(steps, i);
    assert done + [] == done;
  }

  /** A constructing step extends the constructions by its own. */
  lemma AdvanceNew(s: Snapshot, w: World, steps: seq<Step<MetaBoxCall>>, i: nat, s0: Snapshot,
                   done: seq<MetaBoxCall>, created: seq<MetaBox>, hooks: seq<(ActionHook, ActionHook)>, box: MetaBox, pair: (ActionHook, ActionHook))
    requires i < |steps| && steps[i].New? && ProgressAt(s, w, steps, i, s0, done, created, hooks)
    requires Made(steps[i].args, box, pair)
    ensures ProgressAt(After(s, w, box, pair), w, steps, i + 1, s0, done + [steps[i].args], created + [box], hooks + [pair])
  {
    PrefixSnoc(steps, i, done);
    EffectsSnoc(s0, w, created, hooks, box, pair);
    AllMadeSnoc(done, created, hooks, steps[i].args, box, pair);
  }

  /** The loop of `set` over the steps its definitions lead to. */
  method Run(w: World, steps: seq<Step<MetaBoxCall>>)
    returns (outcome: Outcome, ghost created: seq<MetaBox>, ghost hooks: seq<(ActionHook, ActionHook)>)
    modifies w.actionHooks, w.metaBoxes, w`calls
    ensures outcome == OutcomeOf(steps) && AllMade(Performed(steps), created, hooks)
    ensures SnapshotOf(w) == Effects(old(SnapshotOf(w)), w, created, hooks)
  {
    ghost var s0 := SnapshotOf(w);
    ghost var done := [];
    created, hooks := [], [];
    outcome := Completed;
    var i := 0;
    while i < |steps|
      invariant Progress(w, steps, i, s0, done, created, hooks) && outcome == Completed
    {
      if steps[i].Throws? {
        outcome := TypeError(i);
        break;
      }
      done, created, hooks := Iterate(w, steps, i, s0, done, created, hooks);
      i := i + 1;
    }
    Finish(SnapshotOf(w), w, steps, i, s0, done, created, hooks);
  }

  /** One iteration that does not throw. */
  method Iterate(w: World, steps: seq<Step<MetaBoxCall>>, i: nat, ghost s0: Snapshot, ghost done: seq<MetaBoxCall>,
                 ghost created: seq<MetaBox>, ghost hooks: seq<(ActionHook, ActionHook)>)
    returns (ghost done': seq<MetaBoxCall>, ghost created': seq<MetaBox>, ghost hooks': seq<(ActionHook, ActionHook)>)
    requires i < |steps| && !steps[i].Throws?
    requires Progress(w, steps, i, s0, done, created, hooks)
    modifies w.actionHooks, w.metaBoxes, w`calls
    ensures Progress(w, steps, i + 1, s0, done', created', hooks')
  {
    if steps[i].Skip? {
      AdvanceSkip(SnapshotOf(w), w, steps, i, s0, done, created, hooks);
      done', created', hooks' := done, created, hooks;
    } else {
      ghost var s := SnapshotOf(w);
      var box;
      ghost var pair;
      box, pair := Construct(w, steps[i].args);
      AdvanceNew(s, w, steps, i, s0, done, created, hooks, box, pair);
      done', created', hooks' := done + [steps[i].args], created + [box], hooks + [pair];
    }
  }

  /** The constructor call of one definition, as `set` writes it: both hooks left default. */
  method Construct(w: World, c: MetaBoxCall) returns (box: MetaBox, ghost pair: (ActionHook, ActionHook))
    modifies w.actionHooks, w.metaBoxes, w`calls
    ensures fresh(box) && Made(c, box, pair)
    ensures SnapshotOf(w) == After(old(SnapshotOf(w)), w, box, pair)
  {
    ghost var hooks0 := w.actionHooks.components;
    box := new MetaBox(w, c.id, c.title, c.callback, c.screen, c.context, c.priority, c.callbackArgs);
    pair := (box.actionHookAdd, box.actionHookSave);
    AddAllPair(hooks0, pair.0, pair.1, w.actionHooks.keyOf);
  }
}
