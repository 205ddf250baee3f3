/** The module classes and the state they act on. WordPress itself is not modelled: every
    call into it is appended to a call log, and the registries hold the constructed modules. */
module Modules {
  import opened Php
  import opened Registries

  /** One call made into WordPress. */
  datatype WpCall =
    | AddAction(hookName: string, callback: Value, priority: int, acceptedArgs: int)
    | EnqueueStyle(handle: string, src: string, deps: Value, ver: Value, media: string)
    | RegisterStyle(handle: string, src: string, deps: Value, ver: Value, media: string)
    | EnqueueScript(handle: string, src: string, deps: Value, ver: Value, args: Value)
    | RegisterScript(handle: string, src: string, deps: Value, ver: Value, args: Value)
    | AddMetaBox(id: string, title: string, callback: Value, screen: Value, context: string,
                 boxPriority: string, callbackArgs: Value)
    | NonceField(action: string, name: string)
    | EchoControl(control: Control, fieldId: Value)
    | UpdatePostMeta(postId: Value, metaKey: string, metaValue: string)
    | RegisterNavMenu(location: string, description: string)

  /** The form control `render_post_meta_box` prints. */
  datatype Control = TextInput | TextArea | UrlInput

  /** A module that only stores its arguments, attaches one hook and adds itself to its
      registry; only its constructor arguments are kept. */
  datatype PassThrough =
    | BlockPatternCategory(categoryName: string, categoryProperties: Value)
    | BlockPattern(patternName: string, patternProperties: Value)
    | BlockType(blockType: string, blockArgs: Value)
    | PostType(postType: string, postTypeArgs: Value)
    | Taxonomy(taxonomy: string, objectType: Value, taxonomyArgs: Value)
    | Shortcode(tag: string, callback: Value)
    | Sidebar(sidebarArgs: Value)

  /** The static state the modules change: the calls made into WordPress, the pass-through
      modules built, and one store per registry class. */
  class World {
    var calls: seq<WpCall>
    var built: seq<PassThrough>
    const actionHooks: Registry<ActionHook>
    const assets: Registry<Asset>
    const styles: Registry<Asset>
    const scripts: Registry<Asset>
    const metaBoxes: Registry<MetaBox>
    const navigations: Registry<Navigation>

    /** Each registry class has a store of its own. */
    ghost predicate Valid()
    {
      assets != styles && assets != scripts && styles != scripts
    }

    constructor (hookKey: ActionHook -> Key, assetKey: Asset -> Key, styleKey: Asset -> Key,
                 scriptKey: Asset -> Key, metaBoxKey: MetaBox -> Key, navigationKey: Navigation -> Key)
      ensures Valid() && calls == [] && built == []
      ensures actionHooks.components == map[] && actionHooks.keyOf == hookKey
      ensures assets.components == map[] && assets.keyOf == assetKey
      ensures styles.components == map[] && styles.keyOf == styleKey
      ensures scripts.components == map[] && scripts.keyOf == scriptKey
      ensures metaBoxes.components == map[] && metaBoxes.keyOf == metaBoxKey
      ensures navigations.components == map[] && navigations.keyOf == navigationKey
    {
      calls := [];
      built := [];
      actionHooks := new Registry(hookKey);
      assets := new Registry(assetKey);
      styles := new Registry(styleKey);
      scripts := new Registry(scriptKey);
      metaBoxes := new Registry(metaBoxKey);
      navigations := new Registry(navigationKey);
    }

    /** Constructing one pass-through module. Its constructor also registers an action hook
        and attaches it; the frame leaves the call log and the hook store open for that, but
        nothing is stated about them. */
    method Construct(m: PassThrough)
      modifies this`built, this`calls, actionHooks
      ensures built == old(built) + [m]
    {
      built := built + [m];
    }
  }

  /** An action hook: what to attach to which WordPress action. Its fields never change
      after construction. */
  class ActionHook {
    const hookName: string
    const callback: Value
    const priority: int
    const acceptedArgs: int

    constructor (w: World, hookName: string, callback: Value, priority: int := 10, acceptedArgs: int := 1)
      modifies w.actionHooks
      ensures this.hookName == hookName && this.callback == callback
      ensures this.priority == priority && this.acceptedArgs == acceptedArgs
      ensures w.actionHooks.components == old(w.actionHooks.components)[w.actionHooks.keyOf(this) := this]
      ensures w.calls == old(w.calls)
    {
      this.hookName := hookName;
      this.callback := callback;
      this.priority := priority;
      this.acceptedArgs := acceptedArgs;
      new;
      Initialize(w);
    }

    /** A hook built with the default priority and argument count. */
    predicate IsDefault(hookName: string, callback: Value)
    {
      this.hookName == hookName && this.callback == callback && priority == 10 && acceptedArgs == 1
    }

    /** The `add_action` call this hook makes. */
    function Attachment(): WpCall
    {
      WpCall.AddAction(hookName, callback, priority, acceptedArgs)
    }

    method Initialize(w: World)
      modifies w.actionHooks
      ensures w.actionHooks.components == old(w.actionHooks.components)[w.actionHooks.keyOf(this) := this]
    {
      var id := w.actionHooks.Add(this);
    }

    method AddAction(w: World)
      modifies w`calls
      ensures w.calls == old(w.calls) + [WpCall.AddAction(hookName, callback, priority, acceptedArgs)]
    {
      w.calls := w.calls + [Attachment()];
    }
  }

  /** The hooks a default hook argument left null creates, in order. */
  function Defaulted(given: ActionHook?, actual: ActionHook?): seq<ActionHook>
    requires actual != null
  {
    if given == null then [actual] else []
  }

  /** The two hooks of an asset. */
  datatype AssetHook = EnqueueHook | RegisterHook

  /** What a call of `ActionHook::add_action` evaluates to: it is declared `void`, so null. */
  const VoidResult: Value := Null

  /** The hooks `Asset::initialize` attaches, in order: the register hook alone when
      `register_only` is truthy, otherwise the enqueue hook followed by the register hook
      only when the first `add_action()` evaluates to a truthy value (the `&&`). */
  function AttachedHooks(registerOnly: Value, firstResult: Value): (plan: seq<AssetHook>)
    ensures Truthy(registerOnly) ==> plan == [RegisterHook]
    ensures !Truthy(registerOnly) ==> |plan| > 0 && plan[0] == EnqueueHook
    ensures !Truthy(registerOnly) ==> (RegisterHook in plan <==> Truthy(firstResult))
    ensures |plan| <= 2
  {
    if Truthy(registerOnly) then [RegisterHook]
    else [EnqueueHook] + if Truthy(firstResult) then [RegisterHook] else []
  }

  /** With `add_action()` returning nothing, exactly one hook is attached: the register hook
      for a register-only asset, the enqueue hook for any other. */
  lemma OneHookAttached(registerOnly: Value)
    ensures AttachedHooks(registerOnly, VoidResult) ==
              [if Truthy(registerOnly) then RegisterHook else EnqueueHook]
  {
  }

  datatype AssetKind = StyleKind(media: string) | ScriptKind(args: Value)

  /** A style or a script: the shared part is `Asset`, the kind says which subclass. */
  class Asset {
    const handle: string
    const src: string
    const deps: Value
    const ver: Value
    /** Declared without a type, so null unless a constructor assigns it. */
    const registerOnly: Value
    const kind: AssetKind
    var actionHookEnqueue: ActionHook?
    var actionHookRegister: ActionHook?

    /** Both hook fields have been assigned, as every constructor does. */
    predicate Hooked()
      reads this
    {
      actionHookEnqueue != null && actionHookRegister != null
    }

    function HookOf(h: AssetHook): ActionHook
      reads this
      requires Hooked()
    {
      if h == EnqueueHook then actionHookEnqueue else actionHookRegister
    }

    /** The `add_action` calls attaching the given hooks, in order. */
    function HookCalls(plan: seq<AssetHook>): seq<WpCall>
      reads this
      requires Hooked()
    {
      if plan == [] then [] else [HookOf(plan[0]).Attachment()] + HookCalls(plan[1..])
    }

    /** `new Style( ... )` */
    constructor Style(w: World, handle: string, src: string, deps: Value := EmptyArray, ver: Value := Bool(false),
                      media: string := "all", registerOnly: bool := false,
                      actionHookEnqueue: ActionHook? := null, actionHookRegister: ActionHook? := null)
      requires w.Valid()
      modifies w.actionHooks, w.assets, w.styles, w`calls
      ensures this.handle == handle && this.src == src && this.deps == deps && this.ver == ver
      ensures kind == StyleKind(media) && this.registerOnly == Bool(registerOnly)
      ensures Hooked()
      ensures actionHookEnqueue != null ==> this.actionHookEnqueue == actionHookEnqueue
      ensures actionHookEnqueue == null ==>
                fresh(this.actionHookEnqueue) && this.actionHookEnqueue.IsDefault("wp_enqueue_scripts", Callable(this, "enqueue_style"))
      ensures actionHookRegister != null ==> this.actionHookRegister == actionHookRegister
      ensures actionHookRegister == null ==>
                fresh(this.actionHookRegister) && this.actionHookRegister.IsDefault("wp_enqueue_scripts", Callable(this, "register_style"))
      ensures w.actionHooks.components == AddAll(old(w.actionHooks.components),
                Defaulted(actionHookEnqueue, this.actionHookEnqueue) + Defaulted(actionHookRegister, this.actionHookRegister),
                w.actionHooks.keyOf)
      ensures w.calls == old(w.calls) + HookCalls(AttachedHooks(this.registerOnly, VoidResult))
      ensures w.assets.components == old(w.assets.components)[w.assets.keyOf(this) := this]
      ensures w.styles.components == old(w.styles.components)[w.styles.keyOf(this) := this]
    {
      this.handle := handle;
      this.src := src;
      this.deps := deps;
      this.ver := ver;
      kind := StyleKind(media);
      this.registerOnly := Bool(registerOnly);
      new;
      ResolveHooks(w, actionHookEnqueue, actionHookRegister, "enqueue_style", "register_style");
      InitializeStyle(w);
    }

    /** `new Script( ... )`: the `register_only` argument is accepted and never stored. */
    constructor Script(w: World, handle: string, src: string, deps: Value := EmptyArray, ver: Value := Bool(false),
                       args: Value := EmptyArray, registerOnly: bool := false,
                       actionHookEnqueue: ActionHook? := null, actionHookRegister: ActionHook? := null)
      requires w.Valid()
      modifies w.actionHooks, w.assets, w.scripts, w`calls
      ensures this.handle == handle && this.src == src && this.deps == deps && this.ver == ver
      ensures kind == ScriptKind(args) && this.registerOnly == Null
      ensures Hooked()
      ensures actionHookEnqueue != null ==> this.actionHookEnqueue == actionHookEnqueue
      ensures actionHookEnqueue == null ==>
                fresh(this.actionHookEnqueue) && this.actionHookEnqueue.IsDefault("wp_enqueue_scripts", Callable(this, "enqueue_script"))
      ensures actionHookRegister != null ==> this.actionHookRegister == actionHookRegister
      ensures actionHookRegister == null ==>
                fresh(this.actionHookRegister) && this.actionHookRegister.IsDefault("wp_enqueue_scripts", Callable(this, "register_script"))
      ensures w.actionHooks.components == AddAll(old(w.actionHooks.components),
                Defaulted(actionHookEnqueue, this.actionHookEnqueue) + Defaulted(actionHookRegister, this.actionHookRegister),
                w.actionHooks.keyOf)
      ensures w.calls == old(w.calls) + [this.actionHookEnqueue.Attachment()]
      ensures w.assets.components == old(w.assets.components)[w.assets.keyOf(this) := this]
      ensures w.scripts.components == old(w.scripts.components)[w.scripts.keyOf(this) := this]
    {
      this.handle := handle;
      this.src := src;
      this.deps := deps;
      this.ver := ver;
      kind := ScriptKind(args);
      this.registerOnly := Null;
      new;
      ResolveHooks(w, actionHookEnqueue, actionHookRegister, "enqueue_script", "register_script");
      InitializeScript(w);
    }

    /** The hook arguments of either constructor: each given hook is kept, each null one is
        replaced by a new hook on `wp_enqueue_scripts` bound to the named method. */
    method ResolveHooks(w: World, actionHookEnqueue: ActionHook?, actionHookRegister: ActionHook?,
                        enqueueMethod: string, registerMethod: string)
      modifies this`actionHookEnqueue, this`actionHookRegister, w.actionHooks
      ensures Hooked()
      ensures actionHookEnqueue != null ==> this.actionHookEnqueue == actionHookEnqueue
      ensures actionHookEnqueue == null ==>
                fresh(this.actionHookEnqueue) && this.actionHookEnqueue.IsDefault("wp_enqueue_scripts", Callable(this, enqueueMethod))
      ensures actionHookRegister != null ==> this.actionHookRegister == actionHookRegister
      ensures actionHookRegister == null ==>
                fresh(this.actionHookRegister) && this.actionHookRegister.IsDefault("wp_enqueue_scripts", Callable(this, registerMethod))
      ensures w.actionHooks.components == AddAll(old(w.actionHooks.components),
                Defaulted(actionHookEnqueue, this.actionHookEnqueue) + Defaulted(actionHookRegister, this.actionHookRegister),
                w.actionHooks.keyOf)
    {
      ghost var hooks0 := w.actionHooks.components;
      if actionHookEnqueue != null {
        this.actionHookEnqueue := actionHookEnqueue;
      } else {
        this.actionHookEnqueue := new ActionHook(w, "wp_enqueue_scripts", Callable(this, enqueueMethod));
      }
      ghost var hooks1 := w.actionHooks.components;
      if actionHookRegister != null {
        this.actionHookRegister := actionHookRegister;
      } else {
        this.actionHookRegister := new ActionHook(w, "wp_enqueue_scripts", Callable(this, registerMethod));
      }
      DefaultedHooks(hooks0, hooks1, w.actionHooks.components, actionHookEnqueue, this.actionHookEnqueue,
                     actionHookRegister, this.actionHookRegister, w.actionHooks.keyOf);
    }

    /** `Asset::initialize`: attach hooks as `register_only` decides, then add to Assets. */
    method InitializeAsset(w: World)
      requires Hooked()
      modifies w`calls, w.assets
      ensures w.calls == old(w.calls) + HookCalls(AttachedHooks(registerOnly, VoidResult))
      ensures w.assets.components == old(w.assets.components)[w.assets.keyOf(this) := this]
    {
      if Truthy(registerOnly) {
        actionHookRegister.AddAction(w);
      } else {
        // `add_action()` evaluates to null, so the right operand of `&&` is not evaluated.
        actionHookEnqueue.AddAction(w);
      }
      var id := w.assets.Add(this);
    }

    /** `Style::initialize` */
    method InitializeStyle(w: World)
      requires w.Valid() && Hooked()
      modifies w`calls, w.assets, w.styles
      ensures w.calls == old(w.calls) + HookCalls(AttachedHooks(registerOnly, VoidResult))
      ensures w.assets.components == old(w.assets.components)[w.assets.keyOf(this) := this]
      ensures w.styles.components == old(w.styles.components)[w.styles.keyOf(this) := this]
    {
      InitializeAsset(w);
      var id := w.styles.Add(this);
    }

    /** `Script::initialize` */
    method InitializeScript(w: World)
      requires w.Valid() && Hooked()
      modifies w`calls, w.assets, w.scripts
      ensures w.calls == old(w.calls) + HookCalls(AttachedHooks(registerOnly, VoidResult))
      ensures w.assets.components == old(w.assets.components)[w.assets.keyOf(this) := this]
      ensures w.scripts.components == old(w.scripts.components)[w.scripts.keyOf(this) := this]
    {
      InitializeAsset(w);
      var id := w.scripts.Add(this);
    }

    method EnqueueStyle(w: World)
      requires kind.StyleKind?
      modifies w`calls
      ensures w.calls == old(w.calls) + [WpCall.EnqueueStyle(handle, src, deps, ver, kind.media)]
    {
      w.calls := w.calls + [WpCall.EnqueueStyle(handle, src, deps, ver, kind.media)];
    }

    method RegisterStyle(w: World)
      requires kind.StyleKind?
      modifies w`calls
      ensures w.calls == old(w.calls) + [WpCall.RegisterStyle(handle, src, deps, ver, kind.media)]
    {
      w.calls := w.calls + [WpCall.RegisterStyle(handle, src, deps, ver, kind.media)];
    }

    method EnqueueScript(w: World)
      requires kind.ScriptKind?
      modifies w`calls
      ensures w.calls == old(w.calls) + [WpCall.EnqueueScript(handle, src, deps, ver, kind.args)]
    {
      w.calls := w.calls + [WpCall.EnqueueScript(handle, src, deps, ver, kind.args)];
    }

    method RegisterScript(w: World)
      requires kind.ScriptKind?
      modifies w`calls
      ensures w.calls == old(w.calls) + [WpCall.RegisterScript(handle, src, deps, ver, kind.args)]
    {
      w.calls := w.calls + [WpCall.RegisterScript(handle, src, deps, ver, kind.args)];
    }
  }

  const NonceAction: string := "custom_post_meta_nonce_action"
  const NonceName: string := "custom_post_meta_nonce"

  /** `$v == $word` for a word that is not numeric, under PHP 8's loose comparison. */
  predicate LooselyEquals(v: Value, word: string)
  {
    match v
    case Null => word == ""
    case Bool(b) => b == Truthy(Str(word))
    case Int(i) => IntToString(i) == word
    case Str(s) => s == word
    case Arr(_) => false
    case Callable(_, _) => false
  }

  /** Under PHP 8 an integer equals a non-numeric word only as its decimal string, which
      starts with a digit or `-`: no integer selects a field type. */
  lemma NumberIsNoWord(v: Value)
    ensures v.Int? ==> !LooselyEquals(v, "text") && !LooselyEquals(v, "textarea") && !LooselyEquals(v, "url")
  {
    if v.Int? {
      IntToStringFirst(v.i);
    }
  }

  /** The `switch` of `render_post_meta_box` over the field type. */
  function FieldControl(fieldType: Value): (c: Option<Control>)
    ensures fieldType.Str? ==> (c == Some(TextInput) <==> fieldType.s == "text")
    ensures fieldType.Str? ==> (c == Some(TextArea) <==> fieldType.s == "textarea")
    ensures fieldType.Str? ==> (c == Some(UrlInput) <==> fieldType.s == "url")
    ensures fieldType == Bool(true) ==> c == Some(TextInput)
    ensures fieldType.Null? || fieldType.Arr? || fieldType == Bool(false) ==> c == None
    ensures fieldType.Int? || fieldType.Callable? ==> c == None
  {
    NumberIsNoWord(fieldType);
    if LooselyEquals(fieldType, "text") then Some(TextInput)
    else if LooselyEquals(fieldType, "textarea") then Some(TextArea)
    else if LooselyEquals(fieldType, "url") then Some(UrlInput)
    else None
  }

  /** `$args['id']`, which reads as null when the key is missing. */
  function FieldId(args: PhpArray): Value
  {
    if StrKey("id") in args then args[StrKey("id")] else Null
  }

  /** The control printed for the box arguments `args`, if any. */
  function ControlCalls(args: PhpArray): seq<WpCall>
  {
    match FieldControl(Coalesce(args, StrKey("field_type"), Str("text")))
    case Some(c) => [WpCall.EchoControl(c, FieldId(args))]
    case None => []
  }

  /** Without a field type the box prints a text input. */
  lemma DefaultFieldIsText(args: PhpArray)
    requires !IsSet(args, StrKey("field_type"))
    ensures ControlCalls(args) == [WpCall.EchoControl(TextInput, FieldId(args))]
  {
  }

  /** At most one control is printed, and none for a field type other than the three. */
  lemma AtMostOneControl(args: PhpArray)
    ensures |ControlCalls(args)| <= 1
    ensures (IsSet(args, StrKey("field_type")) && args[StrKey("field_type")].Str? &&
             args[StrKey("field_type")].s !in {"text", "textarea", "url"}) ==> ControlCalls(args) == []
  {
  }

  /** The two guards of `update_post_meta`: a posted nonce that verifies, and the
      `edit_post` capability for the post. */
  predicate SaveAllowed(postId: Value, post: PhpArray, verifyNonce: (Value, string) -> bool,
                        userCan: (string, Value) -> bool)
  {
    IsSet(post, StrKey(NonceName)) && verifyNonce(post[StrKey(NonceName)], NonceAction)
    && userCan("edit_post", postId)
  }

  /** A meta box on the post edit screen. */
  class MetaBox {
    const id: string
    const title: string
    /** The callback argument as given; the stored callback is `Callback()`. */
    const callbackArg: Value
    const screen: Value
    const context: string
    const priority: string
    const callbackArgs: Value
    var actionHookAdd: ActionHook?
    var actionHookSave: ActionHook?

    /** The stored callback: `$callback ?? [ $this, 'render_post_meta_box' ]`. */
    function Callback(): Value
    {
      if callbackArg.Null? then Callable(this, "render_post_meta_box") else callbackArg
    }

    predicate Hooked()
      reads this
    {
      actionHookAdd != null && actionHookSave != null
    }

    constructor (w: World, id: string, title: string, callback: Value := Null, screen: Value := Null,
                 context: string := "advanced", priority: string := "default", callbackArgs: Value := Null,
                 actionHookAdd: ActionHook? := null, actionHookSave: ActionHook? := null)
      modifies w.actionHooks, w.metaBoxes, w`calls
      ensures this.id == id && this.title == title && this.screen == screen
      ensures this.context == context && this.priority == priority && this.callbackArgs == callbackArgs
      ensures callbackArg == callback
      ensures callback.Null? ==> Callback() == Callable(this, "render_post_meta_box")
      ensures !callback.Null? ==> Callback() == callback
      ensures Hooked()
      ensures actionHookAdd != null ==> this.actionHookAdd == actionHookAdd
      ensures actionHookAdd == null ==>
                fresh(this.actionHookAdd) && this.actionHookAdd.IsDefault("add_meta_boxes", Callable(this, "add_meta_box"))
      ensures actionHookSave != null ==> this.actionHookSave == actionHookSave
      ensures actionHookSave == null ==>
                fresh(this.actionHookSave) && this.actionHookSave.IsDefault("save_post", Callable(this, "update_post_meta"))
      ensures w.actionHooks.components == AddAll(old(w.actionHooks.components),
                Defaulted(actionHookAdd, this.actionHookAdd) + Defaulted(actionHookSave, this.actionHookSave),
                w.actionHooks.keyOf)
      ensures w.calls == old(w.calls) + [this.actionHookAdd.Attachment(), this.actionHookSave.Attachment()]
      ensures w.metaBoxes.components == old(w.metaBoxes.components)[w.metaBoxes.keyOf(this) := this]
    {
      this.id := id;
      this.title := title;
      callbackArg := callback;
      this.screen := screen;
      this.context := context;
      this.priority := priority;
      this.callbackArgs := callbackArgs;
      new;
      ghost var hooks0 := w.actionHooks.components;
      if actionHookAdd != null {
        this.actionHookAdd := actionHookAdd;
      } else {
        this.actionHookAdd := new ActionHook(w, "add_meta_boxes", Callable(this, "add_meta_box"));
      }
      ghost var hooks1 := w.actionHooks.components;
      if actionHookSave != null {
        this.actionHookSave := actionHookSave;
      } else {
        this.actionHookSave := new ActionHook(w, "save_post", Callable(this, "update_post_meta"));
      }
      DefaultedHooks(hooks0, hooks1, w.actionHooks.components, actionHookAdd, this.actionHookAdd,
                     actionHookSave, this.actionHookSave, w.actionHooks.keyOf);
      Initialize(w);
    }

    /** Attach the add hook, then the save hook, then add to MetaBoxes. */
    method Initialize(w: World)
      requires Hooked()
      modifies w`calls, w.metaBoxes
      ensures w.calls == old(w.calls) + [actionHookAdd.Attachment(), actionHookSave.Attachment()]
      ensures w.metaBoxes.components == old(w.metaBoxes.components)[w.metaBoxes.keyOf(this) := this]
    {
      actionHookAdd.AddAction(w);
      actionHookSave.AddAction(w);
      var id := w.metaBoxes.Add(this);
    }

    method AddMetaBox(w: World)
      modifies w`calls
      ensures w.calls == old(w.calls) + [WpCall.AddMetaBox(id, title, Callback(), screen, context, priority, callbackArgs)]
    {
      w.calls := w.calls + [WpCall.AddMetaBox(id, title, Callback(), screen, context, priority, callbackArgs)];
    }

    /** `render_post_meta_box( $post, $args )`: the nonce field, then the control the field
        type selects. */
    method RenderPostMetaBox(w: World, args: PhpArray)
      modifies w`calls
      ensures w.calls == old(w.calls) + [WpCall.NonceField(NonceAction, NonceName)] + ControlCalls(args)
    {
      var fieldId := if StrKey("id") in args then args[StrKey("id")] else Null;
      var fieldType := Coalesce(args, StrKey("field_type"), Str("text"));
      w.calls := w.calls + [WpCall.NonceField(NonceAction, NonceName)];
      if LooselyEquals(fieldType, "text") {
        w.calls := w.calls + [WpCall.EchoControl(TextInput, fieldId)];
      } else if LooselyEquals(fieldType, "textarea") {
        w.calls := w.calls + [WpCall.EchoControl(TextArea, fieldId)];
      } else if LooselyEquals(fieldType, "url") {
        w.calls := w.calls + [WpCall.EchoControl(UrlInput, fieldId)];
      }
    }

    /** `update_post_meta( $post_id )` on the submitted form `post`: nothing unless both
        guards pass, then one write under this box's id of the value posted under the key
        PHP makes of that id. */
    method UpdatePostMeta(w: World, postId: Value, post: PhpArray, verifyNonce: (Value, string) -> bool,
                          userCan: (string, Value) -> bool, sanitize: Value -> string)
      modifies w`calls
      ensures !IsSet(post, StrKey(NonceName)) ==> w.calls == old(w.calls)
      ensures IsSet(post, StrKey(NonceName)) && !verifyNonce(post[StrKey(NonceName)], NonceAction) ==>
                w.calls == old(w.calls)
      ensures !userCan("edit_post", postId) ==> w.calls == old(w.calls)
      ensures SaveAllowed(postId, post, verifyNonce, userCan) && IsSet(post, NormalisedKey(id)) ==>
                w.calls == old(w.calls) + [WpCall.UpdatePostMeta(postId, id, sanitize(post[NormalisedKey(id)]))]
      ensures SaveAllowed(postId, post, verifyNonce, userCan) && !IsSet(post, NormalisedKey(id)) ==>
                w.calls == old(w.calls) + [WpCall.UpdatePostMeta(postId, id, "")]
    {
      if !IsSet(post, StrKey(NonceName)) || !verifyNonce(post[StrKey(NonceName)], NonceAction) {
        return;
      }
      if !userCan("edit_post", postId) {
        return;
      }
      var fieldValue := if IsSet(post, NormalisedKey(id)) then sanitize(post[NormalisedKey(id)]) else "";
      w.calls := w.calls + [WpCall.UpdatePostMeta(postId, id, fieldValue)];
    }
  }

  /** A navigation menu location. */
  class Navigation {
    const location: string
    const description: string
    const registerMenu: bool
    var actionHook: ActionHook?

    constructor (w: World, location: string, description: string, actionHook: ActionHook? := null,
                 registerMenu: bool := true)
      modifies w.actionHooks, w.navigations, w`calls
      ensures this.location == location && this.description == description && this.registerMenu == registerMenu
      ensures this.actionHook != null
      ensures actionHook != null ==> this.actionHook == actionHook
      ensures actionHook == null ==>
                fresh(this.actionHook) && this.actionHook.IsDefault("init", Callable(this, "register_nav_menu"))
      ensures w.actionHooks.components == AddAll(old(w.actionHooks.components),
                Defaulted(actionHook, this.actionHook), w.actionHooks.keyOf)
      ensures w.calls == old(w.calls) + if registerMenu then [this.actionHook.Attachment()] else []
      ensures w.navigations.components == old(w.navigations.components)[w.navigations.keyOf(this) := this]
    {
      this.location := location;
      this.description := description;
      this.registerMenu := registerMenu;
      new;
      if actionHook != null {
        this.actionHook := actionHook;
      } else {
        this.actionHook := new ActionHook(w, "init", Callable(this, "register_nav_menu"));
      }
      Initialize(w);
    }

    /** Attach the hook only when the menu is to be registered; add to Navigations always. */
    method Initialize(w: World)
      requires actionHook != null
      modifies w`calls, w.navigations
      ensures w.calls == old(w.calls) + if registerMenu then [actionHook.Attachment()] else []
      ensures w.navigations.components == old(w.navigations.components)[w.navigations.keyOf(this) := this]
    {
      if registerMenu {
        actionHook.AddAction(w);
      }
      var id := w.navigations.Add(this);
    }

    method RegisterNavMenu(w: World)
      modifies w`calls
      ensures w.calls == old(w.calls) + [WpCall.RegisterNavMenu(location, description)]
    {
      w.calls := w.calls + [WpCall.RegisterNavMenu(location, description)];
    }
  }

  /** Two hook arguments resolved one after the other add the defaulted hooks in order. */
  lemma DefaultedHooks(m0: map<Key, ActionHook>, m1: map<Key, ActionHook>, m2: map<Key, ActionHook>,
                       given1: ActionHook?, actual1: ActionHook, given2: ActionHook?, actual2: ActionHook,
                       keyOf: ActionHook -> Key)
    requires m1 == if given1 == null then m0[keyOf(actual1) := actual1] else m0
    requires m2 == if given2 == null then m1[keyOf(actual2) := actual2] else m1
    ensures m2 == AddAll(m0, Defaulted(given1, actual1) + Defaulted(given2, actual2), keyOf)
  {
    var first := Defaulted(given1, actual1);
    assert m1 == AddAll(m0, first, keyOf);
    if given2 == null {
      AddAllSnoc(m0, first, actual2, keyOf);
    } else {
      assert first + [] == first;
    }
  }
}
