# wp-blueprint-core in Dafny

A model of the core of wp-blueprint-core, a PHP layer over WordPress's registration
functions. The model covers three parts.

- **The keyed registries** (`RegistryTrait`). Each registry class has its own static store,
  a map from an md5 key to a component. The model makes it a `Registry<T>` class with a
  `map<Key, T>` field, updated in place by `Add` and `Remove`. The key function is left
  uninterpreted and is not assumed to be injective. Equal keys overwrite each other.
- **Module construction and hook wiring.** This covers `ActionHook`, `Asset` with its
  subclasses `Style` and `Script`, `MetaBox` and `Navigation`. These are Dafny classes acting
  on a `World`. The `World` holds the log of calls made into WordPress and one store per
  registry class. It also holds the record of the thin pass-through modules constructed.
- **The bulk loaders** (`Registration\*::set`). Each loader reads a loosely shaped PHP array
  into the arguments of one constructor call. The read is a pure function to a `Step`: a
  construction, a skip, or a TypeError. `set` is a `while` loop that carries out the steps in
  order. The loop stops at the first TypeError, and the constructions made before it stay in
  place.

The PHP rules the source relies on are written out in module `Php`:

- `isset` and `??` treat null as absent.
- Truthiness.
- Coercive typing, as the source does not declare strict types. A `string` parameter turns
  null or an array into a TypeError and converts integers and booleans.
- PHP 8 loose comparison against a word.
- PCRE's `$`, which also matches just before a final newline.
- An integer array key reaching a `string` parameter becomes its decimal form.

The model follows PHP 8 semantics, the version the loose comparisons and the TypeErrors
above are taken from.

The registry's doc comments call the key a "unique hash ID"
(`src/Registry/RegistryTrait.php:20` and `:27-33`). The key is the md5 of
`wp_json_encode( $component )`. Every property of `Style`, `Script`, `MetaBox`,
`Navigation` and `ActionHook` is private or protected, so each of them serialises as `{}`.
All components of one class then share one key. Each add overwrites the previous one, and
each store keeps only the last component added to it. The model leaves the key function
uninterpreted and proves what happens when keys collide: see `Registries.AddAllOneKey` and
`Registries.AddAllOneKeySize`.

## Model

| member | source | states |
|---|---|---|
| Registries.Registry.constructor | src/Registry/RegistryTrait.php:24 | a registry starts with an empty store |
| Registries.Registry.Add | src/Registry/RegistryTrait.php:35-39 | returns the component's key and stores the component under it, replacing any earlier entry with that key; the store grows by one exactly when the key is new |
| Registries.Registry.Get | src/Registry/RegistryTrait.php:50-52 | finds a component exactly when the key is present, and then it is the stored one; otherwise null; the store is not changed |
| Registries.Registry.Remove | src/Registry/RegistryTrait.php:62-64 | only that key leaves the store; removing an absent key changes nothing |
| Registries.Registry.GetAll | src/Registry/RegistryTrait.php:74-76 | returns the whole current store and changes nothing |
| Registries.AddAllKeys | src/Registry/RegistryTrait.php:35-39 | after a series of adds, the keys are the old keys plus the keys of the added components |
| Registries.AddAllAppend | src/Registry/RegistryTrait.php:35-39 | adding two batches in one go is adding the first and then the second |
| Registries.AddAllLastWins | src/Registry/RegistryTrait.php:37 | a component added is found under its key unless a later one has the same key |
| Registries.AddAllElsewhere | src/Registry/RegistryTrait.php:37 | a key that no added component has keeps its old presence and value |
| Registries.AddAllOneKey | src/Registry/RegistryTrait.php:36-37 | when every added component has the same key, as when they all serialise alike, the store keeps only the last one under that key |
| Registries.AddAllOneKeySize | src/Registry/RegistryTrait.php:36-37 | starting empty, components sharing one key leave a single entry |
| Registries.GetAfterAdd | src/Registry/RegistryTrait.php:35-64 | after `add(c)`, `get` of its key returns `c` through any adds and removes that do not touch that key |
| Registries.UntouchedKeyKept | src/Registry/RegistryTrait.php:35-64 | a sequence of adds and removes that never touches a key leaves that key's presence and value as they were |
| Php.IsSet | src/Registration/MetaBoxes.php:65 | `isset( $a[ $k ] )`: the key is present and its value is not null |
| Php.Coalesce | src/Registration/Assets.php:78-82 | `$a[ $k ] ?? $default`: the value when it is set, otherwise the default |
| Php.Field | src/Registration/MetaBoxes.php:65-71 | one argument read by name when that key is set, else by position, else the default |
| Php.Truthy | src/Modules/Asset.php:131 | PHP's conversion to bool: null, `false`, `0`, `""`, `"0"` and the empty array are false, every other value true |
| Php.FieldNullIsAbsent | src/Registration/MetaBoxes.php:65-71 | a definition key set to null reads exactly as a missing key, since each read goes through `isset` or `??` |
| Php.FieldReadsOnlyItsKeys | src/Registration/MetaBoxes.php:65-71 | a field read by name, then by position, depends only on those two keys |
| Php.AsStringParam | src/Modules/MetaBox.php:132 | a `string` parameter raises a TypeError exactly for null, an array or a callback; it passes a string unchanged, an integer as its decimal form, `true` as `"1"` and `false` as `""` |
| Php.AsBoolParam | src/Modules/Style.php:51 | a `bool` parameter raises a TypeError exactly for null, an array or a callback; it passes a boolean unchanged and converts any other scalar by truthiness |
| Php.CanonicalInt | src/Modules/MetaBox.php:218 | a string read as an integer key is exactly the decimal form of that integer |
| Php.NormalisedKey | src/Modules/MetaBox.php:218 | the key PHP makes of a string reads back as that string where a string is expected |
| Php.NormalisedIntKey | src/Modules/MetaBox.php:218 | the decimal form of any integer is looked up as that integer key, so `$_POST['42']` and `$_POST[42]` are one entry |
| Php.IntToString | src/Registration/Navigations.php:55-56 | the decimal form PHP gives an integer, with a leading `-` for a negative one |
| Php.KeyString | src/Registration/Navigations.php:55-56 | the string an array key becomes where a `string` is expected: an integer key as its decimal form |
| Php.AsSubject | src/Registration/Assets.php:104 | the subject `preg_match` receives: null as `""`, scalars converted, an array or a callback a TypeError |
| Php.PatternAtEnd | src/Registration/Assets.php:104-106 | `/\.ext$/` matches at the end of the string or just before a final newline, case-sensitively |
| Php.MatchesSuffix | src/Registration/Assets.php:94 | `preg_match` raises a TypeError exactly for an array or callback subject; on a string it is the suffix test, which also accepts a final newline |
| Foreach.Halt | src/Registration/BlockPatterns.php:63-67 | the number of iterations before the first TypeError: every step before it does not throw, and the step at it does |
| Foreach.Built | src/Registration/BlockPatterns.php:63-67 | the constructions of a run of steps in order, skips left out; one per step when every step constructs |
| Foreach.OutcomeOf | src/Registration/BlockPatterns.php:63-67 | a `foreach` ends normally, or with the TypeError of the first step that throws |
| Foreach.Performed | src/Registration/BlockPatterns.php:63-67 | the constructions made before `set` returns or throws |
| Foreach.Stopped | src/Registration/BlockPatterns.php:63-67 | a loop that has thrown nothing before `i` and throws at `i` (or ends there) stops at `i` with the constructions before it |
| Foreach.AllNew | src/Registration/BlockPatterns.php:63-67 | when every step constructs, the loop completes with one construction per step, in order |
| Loaders.ConstructAll | src/Registration/BlockPatterns.php:63-67 | the loop of the pass-through loaders constructs the modules of the steps in order until the first TypeError, which is the outcome |
| Modules.World.Construct | src/Registration/Sidebars.php:62 | constructing a pass-through module appends its arguments to the record of constructed modules |
| Modules.ActionHook.constructor | src/Modules/ActionHook.php:79-85 | the four fields are as given, with priority 10 and one argument by default; the hook is added to the ActionHooks store under its key; no `add_action` call is made |
| Modules.ActionHook.Initialize | src/Modules/ActionHook.php:122-124 | the ActionHooks store gains the hook under its key |
| Modules.ActionHook.AddAction | src/Modules/ActionHook.php:97-99 | one `add_action` call, with hook name, callback, priority and argument count unchanged |
| Modules.AttachedHooks | src/Modules/Asset.php:131 | a truthy `register_only` attaches the register hook alone; otherwise the enqueue hook comes first and the register hook follows if and only if the first call's value is truthy |
| Modules.OneHookAttached | src/Modules/Asset.php:131 | since `add_action()` returns nothing, exactly one hook is attached: register for a register-only asset, enqueue for any other |
| Modules.Asset.InitializeAsset | src/Modules/Asset.php:130-133 | logs the attachments `AttachedHooks` chooses, then adds the asset to the Assets store |
| Modules.Asset.Style | src/Modules/Style.php:51-61 | stores the six data arguments, `register_only` included; a null hook argument is replaced by a new default hook on `wp_enqueue_scripts` bound to `enqueue_style` or `register_style`; the new hooks enter the ActionHooks store in order; one attachment is logged; the style enters the Assets and Styles stores |
| Modules.Asset.Script | src/Modules/Script.php:51-60 | stores handle, src, deps, ver and args, while `register_only` stays null; the default hooks are bound to `enqueue_script` and `register_script`; only the enqueue hook is attached; the script enters the Assets and Scripts stores |
| Modules.Asset.ResolveHooks | src/Modules/Style.php:58-59 | each given hook is kept; each null one becomes a new default hook on `wp_enqueue_scripts` bound to the named method, added to the ActionHooks store enqueue first |
| Modules.Asset.InitializeStyle | src/Modules/Style.php:112-115 | the parent's wiring, then the style also enters the Styles store |
| Modules.Asset.InitializeScript | src/Modules/Script.php:111-114 | the parent's wiring, then the script also enters the Scripts store |
| Modules.Asset.EnqueueStyle | src/Modules/Style.php:73-75 | one `wp_enqueue_style` call with handle, src, deps, ver and media unchanged |
| Modules.Asset.RegisterStyle | src/Modules/Style.php:87-89 | one `wp_register_style` call with handle, src, deps, ver and media unchanged |
| Modules.Asset.EnqueueScript | src/Modules/Script.php:72-74 | one `wp_enqueue_script` call with handle, src, deps, ver and args unchanged |
| Modules.Asset.RegisterScript | src/Modules/Script.php:86-88 | one `wp_register_script` call with handle, src, deps, ver and args unchanged |
| Modules.DefaultedHooks | src/Modules/MetaBox.php:140-141 | resolving two hook arguments one after the other adds the defaulted hooks to the store in order |
| Modules.LooselyEquals | src/Modules/MetaBox.php:183-194 | the `case` comparison of the `switch`: PHP 8 loose equality with a non-numeric word |
| Modules.NumberIsNoWord | src/Modules/MetaBox.php:183-194 | no integer loosely equals `text`, `textarea` or `url`, as its decimal form starts with a digit or `-` |
| Modules.FieldControl | src/Modules/MetaBox.php:183-194 | for a string field type, `text`, `textarea` and `url` each select their own control and nothing else does; `true` loosely equals `text`; null, `false`, arrays, integers and callbacks select none |
| Modules.ControlCalls | src/Modules/MetaBox.php:178-194 | the control printed for the box arguments, with `field_type` defaulting to `text` |
| Modules.SaveAllowed | src/Modules/MetaBox.php:208-215 | the two guards of the save: a posted nonce that verifies, and the `edit_post` capability |
| Modules.DefaultFieldIsText | src/Modules/MetaBox.php:178 | without a field type the box prints a text input |
| Modules.AtMostOneControl | src/Modules/MetaBox.php:183-194 | at most one control is printed, and none for a string type other than the three |
| Modules.MetaBox.constructor | src/Modules/MetaBox.php:132-143 | stores the arguments; a null callback becomes `[$this, 'render_post_meta_box']`; null hooks become defaults on `add_meta_boxes` and `save_post`, added to the store in that order; logs both attachments, add first; enters the MetaBoxes store |
| Modules.MetaBox.Initialize | src/Modules/MetaBox.php:245-249 | attaches the add hook, then the save hook, then adds the box to the MetaBoxes store |
| Modules.MetaBox.AddMetaBox | src/Modules/MetaBox.php:155-165 | one `add_meta_box` call forwarding the seven stored fields in order |
| Modules.MetaBox.RenderPostMetaBox | src/Modules/MetaBox.php:175-195 | the nonce field, then the control the field type selects, if any |
| Modules.MetaBox.UpdatePostMeta | src/Modules/MetaBox.php:206-222 | no write without a posted nonce, with a nonce that fails, or without the `edit_post` capability; otherwise exactly one write under the box's id, of the sanitised value posted under the key PHP makes of that id (an integer key for a numeric id), or of `''` when none is set |
| Modules.Navigation.constructor | src/Modules/Navigation.php:73-79 | stores location and description, with `register_menu` true by default; a null hook becomes a default `init` hook, which enters the ActionHooks store whether or not the menu is registered; the hook is attached only when `register_menu` is true; enters the Navigations store |
| Modules.Navigation.Initialize | src/Modules/Navigation.php:116-122 | attaches the hook only when `register_menu` is true, and adds to the Navigations store in any case |
| Modules.Navigation.RegisterNavMenu | src/Modules/Navigation.php:91-93 | one `register_nav_menu` call with location and description unchanged |
| AssetsRegistration.IsAssociative | src/Registration/Assets.php:74 | a definition is read by name exactly when `handle` and `src` are both set |
| AssetsRegistration.ReadLocals | src/Registration/Assets.php:74-100 | the locals an iteration assigns, by name or by position |
| AssetsRegistration.AssociativeLocals | src/Registration/Assets.php:75-82 | by name: `handle` and `src` as given, the other fields defaulted as at lines 78-82 |
| AssetsRegistration.PositionalLocals | src/Registration/Assets.php:86-100 | by position: index 4 is the media when the source matches `.css` and `in_footer` otherwise |
| AssetsRegistration.StyleStep | src/Registration/Assets.php:105 | `new Style` with its typed parameters converted, or its TypeError |
| AssetsRegistration.ScriptStep | src/Registration/Assets.php:107 | `new Script` with its typed parameters converted, or its TypeError |
| AssetsRegistration.StepOf | src/Registration/Assets.php:104-111 | a construction passes the source as the subject; it is a Style if and only if the source matches `.css`; a Script only when it matches `.js`; a definition is skipped if and only if its source matches neither; the arguments and the TypeError cases are stated by `StepArguments` |
| AssetsRegistration.StepArguments | src/Registration/Assets.php:104-111 | a Style or Script receives the handle, source and register flag as its typed parameters convert them, `deps` and `ver` unchanged, and index 4 as the Style's media or the Script's `in_footer`; an iteration raises a TypeError if and only if the source is an array or callback, or the constructor its suffix chooses rejects one of its typed parameters |
| AssetsRegistration.AssetStep | src/Registration/Assets.php:72-111 | the loop body: read the locals of one definition, then construct, skip or throw |
| AssetsRegistration.CallLocalsRead | src/Registration/Assets.php:74-107 | a call written in either form reads back as exactly its own arguments |
| AssetsRegistration.AssociativeRoundTrip | src/Registration/Assets.php:74-82 | a Style or Script call written by name is read by name and constructs exactly that call |
| AssetsRegistration.PositionalRoundTrip | src/Registration/Assets.php:83-100 | a call written by position is read by position and constructs exactly that call |
| AssetsRegistration.AssociativeDefaults | src/Registration/Assets.php:78-82 | a named definition with only handle and source takes the defaults: empty deps, version false, media `all`, `in_footer` false, not register-only |
| AssetsRegistration.PositionalScriptDefaults | src/Registration/Assets.php:86-100 | a positional `.js` definition with only handle and source constructs a Script with empty deps, version false and null args, as index 4 is read as `in_footer` |
| AssetsRegistration.PositionalStyleNeedsMedia | src/Registration/Assets.php:91-95 | a positional stylesheet without index 4 passes null to Style's `string $media`: a TypeError |
| AssetsRegistration.NullSourceReadsPositionally | src/Registration/Assets.php:74-87 | a named source set to null makes the whole definition positional |
| AssetsRegistration.UpperCaseSuffixSkipped | src/Registration/Assets.php:104-111 | the suffix test is case-sensitive: `style.CSS` is skipped |
| AssetsRegistration.UpperCaseSuffix | src/Registration/Assets.php:94 | `style.CSS` matches neither `/\.css$/` nor `/\.js$/` |
| AssetsRegistration.Set | src/Registration/Assets.php:71-113 | the outcome is that of the definitions in order; each construction holds the arguments of its definition, with default hooks; the call log and the Assets, Styles, Scripts and ActionHooks stores are those the constructions produce, in order |
| AssetsRegistration.Run | src/Registration/Assets.php:72-112 | the loop: stops at the first TypeError; the state reached is the effect of the constructions so far |
| AssetsRegistration.Construct | src/Registration/Assets.php:104-107 | one `new Style` or `new Script` with default hooks: the asset holds the call's arguments, and the state moves by its attachment and store entries |
| MetaBoxesRegistration.ReadLocals | src/Registration/MetaBoxes.php:65-71 | the seven locals, each by name first, by position second, with defaults `advanced` and `default` for context and priority |
| MetaBoxesRegistration.StepOf | src/Registration/MetaBoxes.php:72 | `new MetaBox` with id, title, context and priority converted to strings, or its TypeError |
| MetaBoxesRegistration.MetaBoxStep | src/Registration/MetaBoxes.php:64-72 | the loop body: read the locals of one definition, then construct or throw |
| MetaBoxesRegistration.AssociativeRoundTrip | src/Registration/MetaBoxes.php:65-72 | every constructor call written by name constructs exactly that call, null callback, screen and arguments included |
| MetaBoxesRegistration.PositionalRoundTrip | src/Registration/MetaBoxes.php:65-72 | every constructor call written by position constructs exactly that call |
| MetaBoxesRegistration.PositionalReads | src/Registration/MetaBoxes.php:65-71 | the seven positions read back as the seven arguments |
| MetaBoxesRegistration.Defaults | src/Registration/MetaBoxes.php:65-71 | with only id and title: null callback and screen, context `advanced`, priority `default`, null callback arguments |
| MetaBoxesRegistration.MixedForms | src/Registration/MetaBoxes.php:65-71 | each field is resolved on its own, so names and positions may be mixed |
| MetaBoxesRegistration.NullKeyIsAbsent | src/Registration/MetaBoxes.php:65-71 | a name key set to null falls through to the position or the default |
| MetaBoxesRegistration.MissingIdOrTitleThrows | src/Registration/MetaBoxes.php:65-72 | with no id, or no title, under either key, null reaches a `string` parameter: a TypeError |
| MetaBoxesRegistration.Set | src/Registration/MetaBoxes.php:63-74 | one MetaBox per definition, in order, until the first TypeError; each holds its definition's arguments with default hooks; the log gains two attachments per box; the MetaBoxes and ActionHooks stores are those the constructions produce |
| MetaBoxesRegistration.Run | src/Registration/MetaBoxes.php:64-73 | the loop: stops at the first TypeError; the state reached is the effect of the constructions so far |
| MetaBoxesRegistration.Construct | src/Registration/MetaBoxes.php:72 | one `new MetaBox` with default hooks: the box holds the call's arguments, and the state moves by its attachments and store entries |
| NavigationsRegistration.NavigationStep | src/Registration/Navigations.php:55-56 | the loop body: `new Navigation` located at the key and described by the converted value, or its TypeError |
| NavigationsRegistration.EntryStep | src/Registration/Navigations.php:55-56 | an entry is never skipped; it raises a TypeError if and only if its value is null, an array or a callback; otherwise the location is the key and the description is the value as a `string` parameter converts it |
| NavigationsRegistration.IntKeyLocation | src/Registration/Navigations.php:55-56 | an integer key becomes its decimal form as the location |
| NavigationsRegistration.StringEntries | src/Registration/Navigations.php:54-57 | string entries construct one Navigation each, in order, with key and value unchanged |
| NavigationsRegistration.EmptyInputChangesNothing | src/Registration/Navigations.php:54-57 | an empty input constructs nothing and changes nothing |
| NavigationsRegistration.Set | src/Registration/Navigations.php:54-57 | one Navigation per entry, in order, until the first TypeError; each keeps `register_menu` true and so logs its `init` attachment; the Navigations and ActionHooks stores are those the constructions produce |
| NavigationsRegistration.Run | src/Registration/Navigations.php:55-57 | the loop: stops at the first TypeError; the state reached is the effect of the constructions so far |
| NavigationsRegistration.Construct | src/Registration/Navigations.php:56 | one `new Navigation` with the default hook: location and description as given, and the state moves by one attachment and two store entries |
| BlockPatternCategoriesRegistration.CategoryStep | src/Registration/BlockPatternCategories.php:62-75 | the loop body: name and properties by name when `category_name` is set, otherwise by position, then the construction or its TypeError |
| BlockPatternCategoriesRegistration.RoundTrip | src/Registration/BlockPatternCategories.php:64-75 | a category written by name or by position constructs exactly it; without properties it gets an empty array |
| BlockPatternCategoriesRegistration.AssociativeIgnoresPositions | src/Registration/BlockPatternCategories.php:64-67 | once `category_name` is set, positional entries play no part |
| BlockPatternCategoriesRegistration.PositionalIgnoresPropertiesKey | src/Registration/BlockPatternCategories.php:68-72 | without `category_name` the whole definition is positional, so a `category_properties` key is ignored |
| BlockPatternCategoriesRegistration.MissingNameThrows | src/Registration/BlockPatternCategories.php:71-75 | without a name under either key: a TypeError |
| BlockPatternCategoriesRegistration.NamedCategories | src/Registration/BlockPatternCategories.php:62-76 | definitions that name their category complete, one category each, in order, with that name |
| BlockPatternCategoriesRegistration.Set | src/Registration/BlockPatternCategories.php:61-77 | the constructions of the definitions in order, until the first TypeError |
| BlockPatternsRegistration.PatternStep | src/Registration/BlockPatterns.php:63-66 | the loop body: name and properties each by name then position, then the construction or its TypeError |
| BlockPatternsRegistration.RoundTrip | src/Registration/BlockPatterns.php:64-66 | name and properties written by name, by position or half and half construct exactly that pattern |
| BlockPatternsRegistration.Defaults | src/Registration/BlockPatterns.php:65 | without properties, an empty array |
| BlockPatternsRegistration.NullKeyIsAbsent | src/Registration/BlockPatterns.php:64-65 | a key set to null reads as a missing key |
| BlockPatternsRegistration.MissingNameThrows | src/Registration/BlockPatterns.php:64-66 | without a name under either key: a TypeError |
| BlockPatternsRegistration.OnePerDefinition | src/Registration/BlockPatterns.php:63-67 | definitions with a string name complete, one pattern each, in order |
| BlockPatternsRegistration.Set | src/Registration/BlockPatterns.php:62-68 | the constructions of the definitions in order, until the first TypeError |
| BlockTypesRegistration.BlockTypeStep | src/Registration/BlockTypes.php:63-66 | the loop body: name and args each by name then position, then the construction or its TypeError |
| BlockTypesRegistration.RoundTrip | src/Registration/BlockTypes.php:64-66 | name and args written by name, by position or half and half construct exactly that block type |
| BlockTypesRegistration.Defaults | src/Registration/BlockTypes.php:65 | without args, an empty array |
| BlockTypesRegistration.NullKeyIsAbsent | src/Registration/BlockTypes.php:64-65 | a key set to null reads as a missing key |
| BlockTypesRegistration.MissingNameThrows | src/Registration/BlockTypes.php:64-66 | without a name under either key: a TypeError |
| BlockTypesRegistration.OnePerDefinition | src/Registration/BlockTypes.php:63-67 | definitions with a string name complete, one block type each, in order |
| BlockTypesRegistration.Set | src/Registration/BlockTypes.php:62-68 | the constructions of the definitions in order, until the first TypeError |
| PostTypesRegistration.PostTypeStep | src/Registration/PostTypes.php:62-65 | the loop body: key and args each by name then position, then the construction or its TypeError |
| PostTypesRegistration.RoundTrip | src/Registration/PostTypes.php:63-65 | key and args written by name, by position or half and half construct exactly that post type |
| PostTypesRegistration.Defaults | src/Registration/PostTypes.php:64 | without args, an empty array |
| PostTypesRegistration.NullKeyIsAbsent | src/Registration/PostTypes.php:63-64 | a key set to null reads as a missing key |
| PostTypesRegistration.MissingNameThrows | src/Registration/PostTypes.php:63-65 | without a key under either key: a TypeError |
| PostTypesRegistration.OnePerDefinition | src/Registration/PostTypes.php:62-66 | definitions with a string key complete, one post type each, in order |
| PostTypesRegistration.Set | src/Registration/PostTypes.php:61-67 | the constructions of the definitions in order, until the first TypeError |
| TaxonomiesRegistration.TaxonomyStep | src/Registration/Taxonomies.php:67-71 | the loop body: taxonomy, object type and args each by name then position, then the construction or its TypeError |
| TaxonomiesRegistration.RoundTrip | src/Registration/Taxonomies.php:68-71 | a taxonomy written by name or by position constructs exactly it |
| TaxonomiesRegistration.MixedForms | src/Registration/Taxonomies.php:68-70 | the three fields are resolved on their own, so the forms may be mixed |
| TaxonomiesRegistration.Defaults | src/Registration/Taxonomies.php:69-70 | without object type and args: null and an empty array |
| TaxonomiesRegistration.NullKeyIsAbsent | src/Registration/Taxonomies.php:68-70 | a key set to null reads as a missing key |
| TaxonomiesRegistration.MissingNameThrows | src/Registration/Taxonomies.php:68-71 | without a taxonomy under either key: a TypeError |
| TaxonomiesRegistration.OnePerDefinition | src/Registration/Taxonomies.php:67-72 | definitions with a string taxonomy complete, one taxonomy each, in order |
| TaxonomiesRegistration.Set | src/Registration/Taxonomies.php:66-73 | the constructions of the definitions in order, until the first TypeError |
| ShortcodesRegistration.ShortcodeStep | src/Registration/Shortcodes.php:58-61 | the loop body: tag and callback each by name then position, then the construction or its TypeError |
| ShortcodesRegistration.RoundTrip | src/Registration/Shortcodes.php:59-61 | tag and callback written by name, by position or half and half construct exactly that shortcode |
| ShortcodesRegistration.Defaults | src/Registration/Shortcodes.php:60 | without a callback, null |
| ShortcodesRegistration.NullKeyIsAbsent | src/Registration/Shortcodes.php:59-60 | a key set to null reads as a missing key |
| ShortcodesRegistration.MissingNameThrows | src/Registration/Shortcodes.php:59-61 | without a tag under either key: a TypeError |
| ShortcodesRegistration.OnePerDefinition | src/Registration/Shortcodes.php:58-62 | definitions with a string tag complete, one shortcode each, in order |
| ShortcodesRegistration.Set | src/Registration/Shortcodes.php:57-63 | the constructions of the definitions in order, until the first TypeError |
| SidebarsRegistration.Steps | src/Registration/Sidebars.php:61-63 | one construction per element, from the element unchanged |
| SidebarsRegistration.OnePerElement | src/Registration/Sidebars.php:61-63 | the loop completes with one Sidebar per element, in order, unchanged; none for an empty input |
| SidebarsRegistration.Set | src/Registration/Sidebars.php:60-64 | completes and records one Sidebar per element, in order |

## Left out

- The WordPress functions are left out. `add_action`, `wp_enqueue_*`, `wp_register_*`,
  `add_meta_box`, `register_nav_menu` and `update_post_meta` are entries appended to a call
  log. `wp_nonce_field` and the printed controls are too. `wp_verify_nonce`,
  `current_user_can` and `sanitize_text_field` are function parameters. `$_POST` is an input
  map.
- When WordPress fires the hooks is left out. Only the attachments are logged.
- `md5` and `wp_json_encode`, through `__toString`, are left out: each registry has an
  uninterpreted key function. Nothing is proved that needs distinct keys.
- The HTML that `render_post_meta_box` echoes and its `get_post_meta` read are left out. Only
  the control it chooses is logged.
- The thin pass-through modules are left out. These are BlockPatternCategory, BlockPattern,
  BlockType, PostType, Taxonomy, Shortcode and Sidebar. Their construction is recorded as its
  arguments: their hooks and registry entries are not modelled. The frame of their
  construction still lets it change the call log and the action hook store, so nothing
  is stated about either after a pass-through loader runs.
- The registry declarations under `src/Registry/` other than `RegistryTrait.php`, and
  `RegistryInterface.php`, are not part of this model. They only give each registry class a
  store of its own, which is one `Registry` object per class in `World`.
- Definitions that are not arrays are left out. A loader reading an offset of a scalar or
  null is PHP behaviour outside this model; definitions are `map<ArrayKey, Value>`.
- The loaders receive their input arrays with keys already normalised, as PHP stores
  them. The one lookup by a computed string, `$_POST[ $this->id ]`, goes through
  `NormalisedKey`.
- Php.NormalisedKey: a numeric string outside the 64-bit integer range stays a string key
  in PHP; the model turns every canonical decimal string into an integer key.
- Floats, objects other than the module callbacks, and closures are left out of `Value`.
  Their conversions to string and to bool are therefore not modelled.
- The order of a PHP array is modelled only as the order of the loaders' input sequences.
  A definition is read through its keys only.
- AssetsRegistration.Set: does not state that the assets and hooks it creates are new
  objects. The constructors state it, but the loop's summary keeps only what they hold.
- MetaBoxesRegistration.Set: does not state that the boxes and hooks it creates are new
  objects, for the same reason.
- NavigationsRegistration.Set: does not state that the navigations and hooks it creates are
  new objects, for the same reason.
- Modules.Navigation.constructor: the loader always leaves `register_menu` true. The
  constructor is modelled for both values.
