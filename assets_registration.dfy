/** `Registration\Assets::set`: each asset definition, associative or positional, becomes a
    Style or a Script according to the suffix of its source, or is skipped. */
module AssetsRegistration {
  import opened Php
  import opened Foreach
  import opened Registries
  import opened Modules

  /** The constructor call one definition leads to. */
  datatype AssetCall =
    | NewStyle(handle: string, src: string, deps: Value, ver: Value, media: string, registerOnly: bool)
    | NewScript(handle: string, src: string, deps: Value, ver: Value, inFooter: Value, registerOnly: bool)

  /** The local variables one iteration assigns before it looks at the suffix. */
  datatype Locals = Locals(handle: Value, src: Value, deps: Value, ver: Value, registerOnly: Value,
                           media: Value, inFooter: Value)

  /** A definition is read by name only when both `handle` and `src` are set. */
  predicate IsAssociative(def: PhpArray)
  {
    IsSet(def, StrKey("handle")) && IsSet(def, StrKey("src"))
  }

  function ReadLocals(def: PhpArray): Locals
  {
    if IsAssociative(def) then AssociativeLocals(def) else PositionalLocals(def)
  }

  /** By name: every field but `handle` and `src` has a default. */
  function AssociativeLocals(def: PhpArray): Locals
    requires IsAssociative(def)
  {
    Locals(def[StrKey("handle")], def[StrKey("src")], Coalesce(def, StrKey("deps"), EmptyArray),
           Coalesce(def, StrKey("version"), Bool(false)), Coalesce(def, StrKey("register_only"), Bool(false)),
           Coalesce(def, StrKey("media"), Str("all")), Coalesce(def, StrKey("in_footer"), Bool(false)))
  }

  /** By position: index 4 is the media of a stylesheet and `in_footer` of anything else. */
  function PositionalLocals(def: PhpArray): Locals
  {
    var src := Coalesce(def, IntKey(1), Null);
    var mediaOrInFooter := Coalesce(def, IntKey(4), Null);
    var isStyle := MatchesSuffix(src, ".css") == Some(true);
    Locals(Coalesce(def, IntKey(0), Null), src, Coalesce(def, IntKey(2), EmptyArray),
           Coalesce(def, IntKey(3), Bool(false)), Coalesce(def, IntKey(5), Bool(false)),
           if isStyle then mediaOrInFooter else Str("all"),
           if isStyle then Bool(false) else mediaOrInFooter)
  }

  /** `new Style( $handle, $src, $deps, $ver, $media, $register_only )`, or its TypeError. */
  function StyleStep(l: Locals): Step<AssetCall>
  {
    match (AsStringParam(l.handle), AsStringParam(l.src), AsStringParam(l.media), AsBoolParam(l.registerOnly))
    case (Some(h), Some(s), Some(m), Some(r)) => New(NewStyle(h, s, l.deps, l.ver, m, r))
    case _ => Throws
  }

  /** `new Script( $handle, $src, $deps, $ver, $in_footer, $register_only )`, or its TypeError. */
  function ScriptStep(l: Locals): Step<AssetCall>
  {
    match (AsStringParam(l.handle), AsStringParam(l.src), AsBoolParam(l.registerOnly))
    case (Some(h), Some(s), Some(r)) => New(NewScript(h, s, l.deps, l.ver, l.inFooter, r))
    case _ => Throws
  }

  /** What one iteration does with the locals it has read: the suffix of the source
      chooses the class, a source that is neither a stylesheet nor a script is skipped. */
  function StepOf(l: Locals): (step: Step<AssetCall>)
    ensures step.New? ==> Some(step.args.src) == AsSubject(l.src)
    ensures step.New? ==> (step.args.NewStyle? <==> PatternAtEnd(step.args.src, ".css"))
    ensures step.New? && step.args.NewScript? ==> PatternAtEnd(step.args.src, ".js")
    ensures step.Skip? <==> (var s := AsSubject(l.src);
                             s.Some? && !PatternAtEnd(s.value, ".css") && !PatternAtEnd(s.value, ".js"))
  {
    match MatchesSuffix(l.src, ".css")
    case None => Throws
    case Some(true) => StyleStep(l)
    case Some(false) =>
      if MatchesSuffix(l.src, ".js") == Some(true) then ScriptStep(l) else Skip
  }

  /** The constructor receives every local as its parameter converts it, index 4 as the
      media of a stylesheet or as `in_footer` of a script; the iteration raises a TypeError
      exactly when `preg_match` rejects the source or the chosen constructor rejects one
      of its typed parameters. */
  lemma StepArguments(l: Locals)
    ensures StepOf(l).New? ==>
              (AsStringParam(l.handle) == Some(StepOf(l).args.handle) &&
               AsStringParam(l.src) == Some(StepOf(l).args.src) &&
               AsBoolParam(l.registerOnly) == Some(StepOf(l).args.registerOnly) &&
               StepOf(l).args.deps == l.deps && StepOf(l).args.ver == l.ver)
    ensures StepOf(l).New? && StepOf(l).args.NewStyle? ==> AsStringParam(l.media) == Some(StepOf(l).args.media)
    ensures StepOf(l).New? && StepOf(l).args.NewScript? ==> StepOf(l).args.inFooter == l.inFooter
    ensures StepOf(l).Throws? <==>
              (var s := AsSubject(l.src);
               s.None?
               || (PatternAtEnd(s.value, ".css") &&
                   (AsStringParam(l.handle).None? || AsStringParam(l.src).None? ||
                    AsStringParam(l.media).None? || AsBoolParam(l.registerOnly).None?))
               || (!PatternAtEnd(s.value, ".css") && PatternAtEnd(s.value, ".js") &&
                   (AsStringParam(l.handle).None? || AsStringParam(l.src).None? ||
                    AsBoolParam(l.registerOnly).None?)))
  {
  }

  /** One iteration of the loop. */
  function AssetStep(def: PhpArray): Step<AssetCall>
  {
    StepOf(ReadLocals(def))
  }

  function Steps(defs: seq<PhpArray>): (steps: seq<Step<AssetCall>>)
    ensures |steps| == |defs| && forall i :: 0 <= i < |defs| ==> steps[i] == AssetStep(defs[i])
  {
    seq(|defs|, i requires 0 <= i < |defs| => AssetStep(defs[i]))
  }

  /** A call whose every argument survives being written into a definition: the suffix
      matches its kind and the values `??` would replace are not null. */
  predicate Representable(c: AssetCall)
  {
    !c.deps.Null? && !c.ver.Null? &&
    match c
    case NewStyle(_, src, _, _, _, _) => PatternAtEnd(src, ".css")
    case NewScript(_, src, _, _, inFooter, _) => PatternAtEnd(src, ".js") && !PatternAtEnd(src, ".css") && !inFooter.Null?
  }

  /** The call written as an associative definition. */
  function AssociativeDefinition(c: AssetCall): PhpArray
  {
    match c
    case NewStyle(handle, src, deps, ver, media, registerOnly) =>
      map[StrKey("handle") := Str(handle), StrKey("src") := Str(src), StrKey("deps") := deps,
          StrKey("version") := ver, StrKey("register_only") := Bool(registerOnly), StrKey("media") := Str(media)]
    case NewScript(handle, src, deps, ver, inFooter, registerOnly) =>
      map[StrKey("handle") := Str(handle), StrKey("src") := Str(src), StrKey("deps") := deps,
          StrKey("version") := ver, StrKey("register_only") := Bool(registerOnly), StrKey("in_footer") := inFooter]
  }

  /** The call written as a positional definition. */
  function PositionalDefinition(c: AssetCall): PhpArray
  {
    match c
    case NewStyle(handle, src, deps, ver, media, registerOnly) =>
      map[IntKey(0) := Str(handle), IntKey(1) := Str(src), IntKey(2) := deps, IntKey(3) := ver,
          IntKey(4) := Str(media), IntKey(5) := Bool(registerOnly)]
    case NewScript(handle, src, deps, ver, inFooter, registerOnly) =>
      map[IntKey(0) := Str(handle), IntKey(1) := Str(src), IntKey(2) := deps, IntKey(3) := ver,
          IntKey(4) := inFooter, IntKey(5) := Bool(registerOnly)]
  }

  /** The locals that lead to the call. */
  function CallLocals(c: AssetCall): Locals
  {
    match c
    case NewStyle(handle, src, deps, ver, media, registerOnly) =>
      Locals(Str(handle), Str(src), deps, ver, Bool(registerOnly), Str(media), Bool(false))
    case NewScript(handle, src, deps, ver, inFooter, registerOnly) =>
      Locals(Str(handle), Str(src), deps, ver, Bool(registerOnly), Str("all"), inFooter)
  }

  lemma StyleAssociative(handle: string, src: string, deps: Value, ver: Value, media: string, registerOnly: bool)
    requires !deps.Null? && !ver.Null?
    ensures var def := AssociativeDefinition(NewStyle(handle, src, deps, ver, media, registerOnly));
            IsAssociative(def) && AssociativeLocals(def) == Locals(Str(handle), Str(src), deps, ver, Bool(registerOnly), Str(media), Bool(false))
  {
  }

  lemma StylePositional(handle: string, src: string, deps: Value, ver: Value, media: string, registerOnly: bool)
    requires !deps.Null? && !ver.Null? && PatternAtEnd(src, ".css")
    ensures var def := PositionalDefinition(NewStyle(handle, src, deps, ver, media, registerOnly));
            !IsAssociative(def) && PositionalLocals(def) == Locals(Str(handle), Str(src), deps, ver, Bool(registerOnly), Str(media), Bool(false))
  {
  }

  lemma StyleCallStep(handle: string, src: string, deps: Value, ver: Value, media: string, registerOnly: bool)
    requires Representable(NewStyle(handle, src, deps, ver, media, registerOnly))
    ensures StepOf(CallLocals(NewStyle(handle, src, deps, ver, media, registerOnly))) == New(NewStyle(handle, src, deps, ver, media, registerOnly))
  {
    var l := CallLocals(NewStyle(handle, src, deps, ver, media, registerOnly));
    assert MatchesSuffix(l.src, ".css") == Some(true);
    assert StyleStep(l) == New(NewStyle(handle, src, deps, ver, media, registerOnly));
  }

  lemma ScriptAssociative(handle: string, src: string, deps: Value, ver: Value, inFooter: Value, registerOnly: bool)
    requires !deps.Null? && !ver.Null? && !inFooter.Null?
    ensures var def := AssociativeDefinition(NewScript(handle, src, deps, ver, inFooter, registerOnly));
            IsAssociative(def) && AssociativeLocals(def) == Locals(Str(handle), Str(src), deps, ver, Bool(registerOnly), Str("all"), inFooter)
  {
  }

  lemma ScriptPositional(handle: string, src: string, deps: Value, ver: Value, inFooter: Value, registerOnly: bool)
    requires !deps.Null? && !ver.Null? && !inFooter.Null? && !PatternAtEnd(src, ".css")
    ensures var def := PositionalDefinition(NewScript(handle, src, deps, ver, inFooter, registerOnly));
            !IsAssociative(def) && PositionalLocals(def) == Locals(Str(handle), Str(src), deps, ver, Bool(registerOnly), Str("all"), inFooter)
  {
  }

  lemma ScriptCallStep(handle: string, src: string, deps: Value, ver: Value, inFooter: Value, registerOnly: bool)
    requires PatternAtEnd(src, ".js") && !PatternAtEnd(src, ".css")
    ensures StepOf(CallLocals(NewScript(handle, src, deps, ver, inFooter, registerOnly))) == New(NewScript(handle, src, deps, ver, inFooter, registerOnly))
  {
    var l := CallLocals(NewScript(handle, src, deps, ver, inFooter, registerOnly));
    assert MatchesSuffix(l.src, ".css") == Some(false) && MatchesSuffix(l.src, ".js") == Some(true);
    assert ScriptStep(l) == New(NewScript(handle, src, deps, ver, inFooter, registerOnly));
  }

  lemma CallLocalsRead(c: AssetCall)
    requires Representable(c)
    ensures IsAssociative(AssociativeDefinition(c)) && ReadLocals(AssociativeDefinition(c)) == CallLocals(c)
    ensures !IsAssociative(PositionalDefinition(c)) && ReadLocals(PositionalDefinition(c)) == CallLocals(c)
    ensures StepOf(CallLocals(c)) == New(c)
  {
    if c.NewStyle? {
      StyleAssociative(c.handle, c.src, c.deps, c.ver, c.media, c.registerOnly);
      StylePositional(c.handle, c.src, c.deps, c.ver, c.media, c.registerOnly);
      StyleCallStep(c.handle, c.src, c.deps, c.ver, c.media, c.registerOnly);
    } else {
      ScriptAssociative(c.handle, c.src, c.deps, c.ver, c.inFooter, c.registerOnly);
      ScriptPositional(c.handle, c.src, c.deps, c.ver, c.inFooter, c.registerOnly);
      ScriptCallStep(c.handle, c.src, c.deps, c.ver, c.inFooter, c.registerOnly);
    }
  }

  /** Every constructor call survives being written as an associative definition. */
  lemma AssociativeRoundTrip(c: AssetCall)
    requires Representable(c)
    ensures IsAssociative(AssociativeDefinition(c))
    ensures AssetStep(AssociativeDefinition(c)) == New(c)
  {
    CallLocalsRead(c);
  }

  /** Every constructor call survives being written as a positional definition. */
  lemma PositionalRoundTrip(c: AssetCall)
    requires Representable(c)
    ensures !IsAssociative(PositionalDefinition(c))
    ensures AssetStep(PositionalDefinition(c)) == New(c)
  {
    CallLocalsRead(c);
  }

  /** An associative definition with only a handle and a source takes every other default. */
  lemma AssociativeDefaults(handle: string, src: string)
    ensures var def := map[StrKey("handle") := Str(handle), StrKey("src") := Str(src)];
            (PatternAtEnd(src, ".css") ==>
               AssetStep(def) == New(NewStyle(handle, src, EmptyArray, Bool(false), "all", false))) &&
            (PatternAtEnd(src, ".js") && !PatternAtEnd(src, ".css") ==>
               AssetStep(def) == New(NewScript(handle, src, EmptyArray, Bool(false), Bool(false), false)))
  {
    var def := map[StrKey("handle") := Str(handle), StrKey("src") := Str(src)];
    assert ReadLocals(def) == Locals(Str(handle), Str(src), EmptyArray, Bool(false), Bool(false), Str("all"), Bool(false));
    if PatternAtEnd(src, ".css") {
      StyleCallStep(handle, src, EmptyArray, Bool(false), "all", false);
    } else if PatternAtEnd(src, ".js") {
      ScriptCallStep(handle, src, EmptyArray, Bool(false), Bool(false), false);
    }
  }

  /** Positionally, index 4 is read as `in_footer` for a script and defaults to null. */
  lemma PositionalScriptDefaults(handle: string, src: string)
    requires PatternAtEnd(src, ".js") && !PatternAtEnd(src, ".css")
    ensures AssetStep(map[IntKey(0) := Str(handle), IntKey(1) := Str(src)]) ==
              New(NewScript(handle, src, EmptyArray, Bool(false), Null, false))
  {
    PositionalHandleAndSource(handle, src);
    ScriptCallStep(handle, src, EmptyArray, Bool(false), Null, false);
  }

  lemma PositionalHandleAndSource(handle: string, src: string)
    requires !PatternAtEnd(src, ".css")
    ensures var def := map[IntKey(0) := Str(handle), IntKey(1) := Str(src)];
            !IsAssociative(def) && PositionalLocals(def) == Locals(Str(handle), Str(src), EmptyArray, Bool(false), Bool(false), Str("all"), Null)
  {
  }

  /** A positional stylesheet without index 4 passes a null media to the `string` parameter
      of the Style constructor, which raises a TypeError. */
  lemma PositionalStyleNeedsMedia(def: PhpArray)
    requires !IsAssociative(def) && !IsSet(def, IntKey(4))
    requires IsSet(def, IntKey(1)) && def[IntKey(1)].Str? && PatternAtEnd(def[IntKey(1)].s, ".css")
    ensures AssetStep(def) == Throws
  {
  }

  /** A source set to null is not set: the definition is read positionally instead. */
  lemma NullSourceReadsPositionally(handle: string, handle0: string, src: string, media: string)
    requires PatternAtEnd(src, ".css")
    ensures var def := map[StrKey("handle") := Str(handle), StrKey("src") := Null,
                           IntKey(0) := Str(handle0), IntKey(1) := Str(src), IntKey(4) := Str(media)];
            AssetStep(def) == New(NewStyle(handle0, src, EmptyArray, Bool(false), media, false))
  {
    var def := map[StrKey("handle") := Str(handle), StrKey("src") := Null,
                   IntKey(0) := Str(handle0), IntKey(1) := Str(src), IntKey(4) := Str(media)];
    assert !IsAssociative(def);
    assert ReadLocals(def).src == Str(src);
  }

  /** The suffix test is case-sensitive: an upper-case `.CSS` source is skipped. */
  lemma UpperCaseSuffixSkipped()
    ensures AssetStep(map[StrKey("handle") := Str("main"), StrKey("src") := Str("style.CSS")]) == Skip
  {
    var def := map[StrKey("handle") := Str("main"), StrKey("src") := Str("style.CSS")];
    UpperCaseSuffix();
    assert ReadLocals(def).src == Str("style.CSS");
  }

  lemma UpperCaseSuffix()
    ensures !PatternAtEnd("style.CSS", ".css") && !PatternAtEnd("style.CSS", ".js")
  {
    var s := "style.CSS";
    assert s[|s| - 4..] == ".CSS";
    assert s[|s| - 5..] == "e.CSS";
    assert s[|s| - 3..] == "CSS";
    assert s[|s| - 4..] != ".css";
    assert s[|s| - 5..] != ".css\n";
    assert s[|s| - 3..] != ".js";
    assert s[|s| - 4..] != ".js\n";
  }

  /** The names of the enqueue and register methods of an asset's class. */
  function EnqueueName(a: Asset): string
  {
    if a.kind.StyleKind? then "enqueue_style" else "enqueue_script"
  }

  function RegisterName(a: Asset): string
  {
    if a.kind.StyleKind? then "register_style" else "register_script"
  }

  /** The one `add_action` call the construction of `a` makes: the register hook when its
      `register_only` is truthy, the enqueue hook otherwise (both hooks left default). */
  function Attachment(a: Asset): WpCall
  {
    var name := if Truthy(a.registerOnly) then RegisterName(a) else EnqueueName(a);
    WpCall.AddAction("wp_enqueue_scripts", Callable(a, name), 10, 1)
  }

  function Attachments(created: seq<Asset>): seq<WpCall>
  {
    if created == [] then []
    else Attachments(created[..|created| - 1]) + [Attachment(created[|created| - 1])]
  }

  /** The asset holds the arguments of the call. */
  predicate Holds(a: Asset, c: AssetCall)
  {
    a.handle == c.handle && a.src == c.src && a.deps == c.deps && a.ver == c.ver &&
    match c
    case NewStyle(_, _, _, _, media, registerOnly) => a.kind == StyleKind(media) && a.registerOnly == Bool(registerOnly)
    case NewScript(_, _, _, _, inFooter, _) => a.kind == ScriptKind(inFooter) && a.registerOnly == Null
  }

  /** The two default hooks created for the asset, enqueue first. */
  predicate DefaultHooks(pair: (ActionHook, ActionHook), a: Asset)
  {
    pair.0.IsDefault("wp_enqueue_scripts", Callable(a, EnqueueName(a))) &&
    pair.1.IsDefault("wp_enqueue_scripts", Callable(a, RegisterName(a)))
  }

  /** The asset `a` and its default hooks `pair` were made by the call `c`. */
  ghost predicate Made(c: AssetCall, a: Asset, pair: (ActionHook, ActionHook))
  {
    Holds(a, c) && DefaultHooks(pair, a)
  }

  ghost predicate AllMade(done: seq<AssetCall>, created: seq<Asset>, hooks: seq<(ActionHook, ActionHook)>)
  {
    |created| == |done| == |hooks| &&
    forall j :: 0 <= j < |created| ==> Made(done[j], created[j], hooks[j])
  }

  function OfKind(created: seq<Asset>, style: bool): seq<Asset>
  {
    if created == [] then []
    else
      var last := created[|created| - 1];
      OfKind(created[..|created| - 1], style) + if last.kind.StyleKind? == style then [last] else []
  }

  lemma AttachmentsSnoc(created: seq<Asset>, a: Asset)
    ensures Attachments(created + [a]) == Attachments(created) + [Attachment(a)]
  {
    assert (created + [a])[..|created|] == created;
  }

  lemma OfKindSnoc(created: seq<Asset>, a: Asset, style: bool)
    ensures OfKind(created + [a], style) == OfKind(created, style) + if a.kind.StyleKind? == style then [a] else []
  {
    assert (created + [a])[..|created|] == created;
  }

  /** The stores of the registries `set` changes, and the call log, at one moment. */
  datatype Snapshot = Snapshot(calls: seq<WpCall>, assets: map<Key, Asset>, styles: map<Key, Asset>,
                               scripts: map<Key, Asset>, hooks: map<Key, ActionHook>)

  ghost function SnapshotOf(w: World): Snapshot
    reads w, w.assets, w.styles, w.scripts, w.actionHooks
  {
    Snapshot(w.calls, w.assets.components, w.styles.components, w.scripts.components, w.actionHooks.components)
  }

  /** The snapshot after the construction of `a`, with default hooks `pair`. */
  ghost function After(s: Snapshot, w: World, a: Asset, pair: (ActionHook, ActionHook)): Snapshot
  {
    Snapshot(s.calls + [Attachment(a)],
             s.assets[w.assets.keyOf(a) := a],
             if a.kind.StyleKind? then s.styles[w.styles.keyOf(a) := a] else s.styles,
             if a.kind.StyleKind? then s.scripts else s.scripts[w.scripts.keyOf(a) := a],
             s.hooks[w.actionHooks.keyOf(pair.0) := pair.0][w.actionHooks.keyOf(pair.1) := pair.1])
  }

  /** The snapshot reached from `s0` by the constructions, first to last. */
  ghost function Effects(s0: Snapshot, w: World, created: seq<Asset>, hooks: seq<(ActionHook, ActionHook)>): Snapshot
    requires |created| == |hooks|
  {
    if created == [] then s0
    else
      var n := |created| - 1;
      After(Effects(s0, w, created[..n], hooks[..n]), w, created[n], hooks[n])
  }

  lemma EffectsSnoc(s0: Snapshot, w: World, created: seq<Asset>, hooks: seq<(ActionHook, ActionHook)>,
                    a: Asset, pair: (ActionHook, ActionHook))
    requires |created| == |hooks|
    ensures Effects(s0, w, created + [a], hooks + [pair]) == After(Effects(s0, w, created, hooks), w, a, pair)
  {
    assert (created + [a])[..|created|] == created;
    assert (hooks + [pair])[..|created|] == hooks;
  }

  /** Starting from `s0`, the constructions of the assets `created`, with the default hooks
      `hooks`, lead to `s`: each logs its attachment and is stored in the asset registry and
      in the registry of its kind, and its two hooks in the action hook registry. */
  ghost predicate Recorded(s: Snapshot, s0: Snapshot, w: World, created: seq<Asset>,
                           hooks: seq<(ActionHook, ActionHook)>)
  {
    s.calls == s0.calls + Attachments(created) &&
    s.assets == AddAll(s0.assets, created, w.assets.keyOf) &&
    s.styles == AddAll(s0.styles, OfKind(created, true), w.styles.keyOf) &&
    s.scripts == AddAll(s0.scripts, OfKind(created, false), w.scripts.keyOf) &&
    s.hooks == AddAll(s0.hooks, Flatten(hooks), w.actionHooks.keyOf)
  }

  lemma KindSnoc(m: map<Key, Asset>, m0: map<Key, Asset>, created: seq<Asset>, a: Asset, style: bool,
                 keyOf: Asset -> Key)
    requires m == AddAll(m0, OfKind(created, style), keyOf)
    ensures AddAll(m0, OfKind(created + [a], style), keyOf) ==
              if a.kind.StyleKind? == style then m[keyOf(a) := a] else m
  {
    OfKindSnoc(created, a, style);
    if a.kind.StyleKind? == style {
      AddAllSnoc(m0, OfKind(created, style), a, keyOf);
    } else {
      assert OfKind(created, style) + [] == OfKind(created, style);
    }
  }

  lemma RecordedSnoc(s: Snapshot, s0: Snapshot, w: World, created: seq<Asset>, hooks: seq<(ActionHook, ActionHook)>,
                     a: Asset, pair: (ActionHook, ActionHook))
    requires Recorded(s, s0, w, created, hooks)
    ensures Recorded(After(s, w, a, pair), s0, w, created + [a], hooks + [pair])
  {
    AttachmentsSnoc(created, a);
    AddAllSnoc(s0.assets, created, a, w.assets.keyOf);
    KindSnoc(s.styles, s0.styles, created, a, true, w.styles.keyOf);
    KindSnoc(s.scripts, s0.scripts, created, a, false, w.scripts.keyOf);
    AddAllFlattenSnoc(s.hooks, s0.hooks, hooks, pair, w.actionHooks.keyOf);
  }

  /** `Effects` is what `Recorded` states. */
  lemma {:induction false} EffectsRecorded(s0: Snapshot, w: World, created: seq<Asset>,
                                           hooks: seq<(ActionHook, ActionHook)>)
    requires |created| == |hooks|
    ensures Recorded(Effects(s0, w, created, hooks), s0, w, created, hooks)
    decreases |created|
  {
    if created == [] {
      assert s0.calls + [] == s0.calls;
    } else {
      var n := |created| - 1;
      assert created == created[..n] + [created[n]] && hooks == hooks[..n] + [hooks[n]];
      EffectsRecorded(s0, w, created[..n], hooks[..n]);
      RecordedSnoc(Effects(s0, w, created[..n], hooks[..n]), s0, w, created[..n], hooks[..n], created[n], hooks[n]);
    }
  }

  lemma AllMadeSnoc(done: seq<AssetCall>, created: seq<Asset>, hooks: seq<(ActionHook, ActionHook)>,
                    c: AssetCall, a: Asset, pair: (ActionHook, ActionHook))
    requires AllMade(done, created, hooks) && Made(c, a, pair)
    ensures AllMade(done + [c], created + [a], hooks + [pair])
  {
  }

  /** `Assets::set( $assets )`: the definitions in order, each constructing at most one
      asset, until the first TypeError. `created` are the assets constructed, in order, and
      `hooks` their default hooks. */
  method Set(w: World, assets: seq<PhpArray>)
    returns (outcome: Outcome, ghost created: seq<Asset>, ghost hooks: seq<(ActionHook, ActionHook)>)
    requires w.Valid()
    modifies w.actionHooks, w.assets, w.styles, w.scripts, w`calls
    ensures outcome == OutcomeOf(Steps(assets))
    ensures AllMade(Performed(Steps(assets)), created, hooks)
    ensures Recorded(SnapshotOf(w), old(SnapshotOf(w)), w, created, hooks)
  {
    ghost var s0 := SnapshotOf(w);
    outcome, created, hooks := Run(w, Steps(assets));
    EffectsRecorded(s0, w, created, hooks);
  }

  /** After `i` definitions the loop has thrown nothing, has made `created` from the calls
      `done` of those definitions, and these constructions took `s0` to the current state. */
  ghost predicate ProgressAt(s: Snapshot, w: World, steps: seq<Step<AssetCall>>, i: nat, s0: Snapshot,
                             done: seq<AssetCall>, created: seq<Asset>, hooks: seq<(ActionHook, ActionHook)>)
  {
    i <= |steps| && (forall j :: 0 <= j < i ==> !steps[j].Throws?) &&
    done == Built(steps[..i]) && AllMade(done, created, hooks) &&
    s == Effects(s0, w, created, hooks)
  }

  ghost predicate Progress(w: World, steps: seq<Step<AssetCall>>, i: nat, s0: Snapshot, done: seq<AssetCall>,
                           created: seq<Asset>, hooks: seq<(ActionHook, ActionHook)>)
    reads w, w.assets, w.styles, w.scripts, w.actionHooks
  {
    ProgressAt(SnapshotOf(w), w, steps, i, s0, done, created, hooks)
  }

  /** Where the loop stops, at the first TypeError or after the last step, the outcome and
      the constructions are those of the whole input. */
  lemma Finish(s: Snapshot, w: World, steps: seq<Step<AssetCall>>, i: nat, s0: Snapshot,
               done: seq<AssetCall>, created: seq<Asset>, hooks: seq<(ActionHook, ActionHook)>)
    requires ProgressAt(s, w, steps, i, s0, done, created, hooks)
    requires i < |steps| ==> steps[i].Throws?
    ensures OutcomeOf(steps) == if i < |steps| then TypeError(i) else Completed
    ensures AllMade(Performed(steps), created, hooks) && s == Effects(s0, w, created, hooks)
  {
    Stopped(steps, i);
  }

  /** A skipped step leaves the state as it was. */
  lemma AdvanceSkip(s: Snapshot, w: World, steps: seq<Step<AssetCall>>, i: nat, s0: Snapshot,
                    done: seq<AssetCall>, created: seq<Asset>, hooks: seq<(ActionHook, ActionHook)>)
    requires i < |steps| && steps[i].Skip? && ProgressAt(s, w, steps, i, s0, done, created, hooks)
    ensures ProgressAt(s, w, steps, i + 1, s0, done, created, hooks)
  {
    BuiltSnoc(steps, i);
    assert done + [] == done;
  }

  /** A constructing step extends the constructions by its own. */
  lemma AdvanceNew(s: Snapshot, w: World, steps: seq<Step<AssetCall>>, i: nat, s0: Snapshot,
                   done: seq<AssetCall>, created: seq<Asset>, hooks: seq<(ActionHook, ActionHook)>, a: Asset, pair: (ActionHook, ActionHook))
    requires i < |steps| && steps[i].New? && ProgressAt(s, w, steps, i, s0, done, created, hooks)
    requires Made(steps[i].args, a, pair)
    ensures ProgressAt(After(s, w, a, pair), w, steps, i + 1, s0, done + [steps[i].args], created + [a], hooks + [pair])
  {
    PrefixSnoc(steps, i, done);
    EffectsSnoc(s0, w, created, hooks, a, pair);
    AllMadeSnoc(done, created, hooks, steps[i].args, a, pair);
  }

  /** The loop of `set` over the steps its definitions lead to. */
  method Run(w: World, steps: seq<Step<AssetCall>>)
    returns (outcome: Outcome, ghost created: seq<Asset>, ghost hooks: seq<(ActionHook, ActionHook)>)
    requires w.Valid()
    modifies w.actionHooks, w.assets, w.styles, w.scripts, w`calls
    ensures outcome == OutcomeOf(steps) && AllMade(Performed(steps), created, hooks)
    ensures SnapshotOf(w) == Effects(old(SnapshotOf(w)), w, created, hooks)
  {
    ghost var s0 := SnapshotOf(w);
    ghost var done := [];
    created, hooks := [], [];
    outcome := Completed;
    var i := 0;
    while i < |steps|
      invariant Progress(w, steps, i, s0, done, created, hooks) && outcome == Completed
    {
      if steps[i].Throws? {
        outcome := TypeError(i);
        break;
      }
      done, created, hooks := Iterate(w, steps, i, s0, done, created, hooks);
      i := i + 1;
    }
    Finish(SnapshotOf(w), w, steps, i, s0, done, created, hooks);
  }

  /** One iteration that does not throw: a construction, or a `continue`. */
  method Iterate(w: World, steps: seq<Step<AssetCall>>, i: nat, ghost s0: Snapshot, ghost done: seq<AssetCall>,
                 ghost created: seq<Asset>, ghost hooks: seq<(ActionHook, ActionHook)>)
    returns (ghost done': seq<AssetCall>, ghost created': seq<Asset>, ghost hooks': seq<(ActionHook, ActionHook)>)
    requires w.Valid() && i < |steps| && !steps[i].Throws?
    requires Progress(w, steps, i, s0, done, created, hooks)
    modifies w.actionHooks, w.assets, w.styles, w.scripts, w`calls
    ensures Progress(w, steps, i + 1, s0, done', created', hooks')
  {
    if steps[i].Skip? {
      AdvanceSkip(SnapshotOf(w), w, steps, i, s0, done, created, hooks);
      done', created', hooks' := done, created, hooks;
    } else {
      ghost var s := SnapshotOf(w);
      var a;
      ghost var pair;
      a, pair := Construct(w, steps[i].args);
      AdvanceNew(s, w, steps, i, s0, done, created, hooks, a, pair);
      done', created', hooks' := done + [steps[i].args], created + [a], hooks + [pair];
    }
  }

  /** The constructor call of one definition, as `set` writes it: every hook left default. */
  method Construct(w: World, c: AssetCall) returns (a: Asset, ghost pair: (ActionHook, ActionHook))
    requires w.Valid()
    modifies w.actionHooks, w.assets, w.styles, w.scripts, w`calls
    ensures fresh(a) && Made(c, a, pair)
    ensures SnapshotOf(w) == After(old(SnapshotOf(w)), w, a, pair)
  {
    ghost var hooks0 := w.actionHooks.components;
    if c.NewStyle? {
      a := new Asset.Style(w, c.handle, c.src, c.deps, c.ver, c.media, c.registerOnly);
      assert a.HookCalls(AttachedHooks(a.registerOnly, VoidResult)) ==
               [a.HookOf(if c.registerOnly then RegisterHook else EnqueueHook).Attachment()];
    } else {
      a := new Asset.Script(w, c.handle, c.src, c.deps, c.ver, c.inFooter, c.registerOnly);
    }
    pair := (a.actionHookEnqueue, a.actionHookRegister);
    AddAllPair(hooks0, pair.0, pair.1, w.actionHooks.keyOf);
  }
}
