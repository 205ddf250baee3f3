/** `Registration\Shortcodes::set`: each definition becomes one Shortcode, its `tag` and its
    `callback` each read by name first, by position second, and otherwise defaulted. */
module ShortcodesRegistration {
  import opened Php
  import opened Foreach
  import opened Modules
  import opened Loaders

  /** One iteration: the `tag` must reach a `string` parameter; `callback` defaults to null. */
  function ShortcodeStep(def: PhpArray): Step<PassThrough>
  {
    match AsStringParam(Field(def, "tag", 0, Null))
    case Some(s) => New(Shortcode(s, Field(def, "callback", 1, Null)))
    case None => Throws
  }

  function Steps(defs: seq<PhpArray>): (steps: seq<Step<PassThrough>>)
    ensures |steps| == |defs| && forall i :: 0 <= i < |defs| ==> steps[i] == ShortcodeStep(defs[i])
  {
    seq(|defs|, i requires 0 <= i < |defs| => ShortcodeStep(defs[i]))
  }

  /** A shortcode survives being written by name, by position, or half and half, since the two
      fields are resolved independently. */
  lemma RoundTrip(s: string, value: Value)
    ensures ShortcodeStep(map[StrKey("tag") := Str(s), StrKey("callback") := value]) == New(Shortcode(s, value))
    ensures ShortcodeStep(map[IntKey(0) := Str(s), IntKey(1) := value]) == New(Shortcode(s, value))
    ensures ShortcodeStep(map[StrKey("tag") := Str(s), IntKey(1) := value]) == New(Shortcode(s, value))
    ensures ShortcodeStep(map[IntKey(0) := Str(s), StrKey("callback") := value]) == New(Shortcode(s, value))
  {
  }

  /** Without a `callback` under either key the default is passed. */
  lemma Defaults(s: string)
    ensures ShortcodeStep(map[StrKey("tag") := Str(s)]) == New(Shortcode(s, Null))
    ensures ShortcodeStep(map[IntKey(0) := Str(s)]) == New(Shortcode(s, Null))
  {
  }

  /** A key set to null reads as a missing key. */
  lemma NullKeyIsAbsent(def: PhpArray, k: ArrayKey)
    ensures ShortcodeStep(def[k := Null]) == ShortcodeStep(def - {k})
  {
    FieldNullIsAbsent(def, k, "tag", 0, Null);
    FieldNullIsAbsent(def, k, "callback", 1, Null);
  }

  /** Without a `tag` under either key, null reaches the `string` parameter: a TypeError. */
  lemma MissingNameThrows(def: PhpArray)
    requires !IsSet(def, StrKey("tag")) && !IsSet(def, IntKey(0))
    ensures ShortcodeStep(def) == Throws
  {
  }

  /** Definitions that all give a string `tag` construct one Shortcode each, in order. */
  lemma OnePerDefinition(defs: seq<PhpArray>)
    requires forall i :: 0 <= i < |defs| ==> Field(defs[i], "tag", 0, Null).Str?
    ensures OutcomeOf(Steps(defs)) == Completed
    ensures |Performed(Steps(defs))| == |defs|
    ensures forall i :: 0 <= i < |defs| ==>
              Performed(Steps(defs))[i] == Shortcode(Field(defs[i], "tag", 0, Null).s, Field(defs[i], "callback", 1, Null))
  {
    AllNew(Steps(defs));
  }

  /** `Shortcodes::set( $shortcodes )` */
  method Set(w: World, shortcodes: seq<PhpArray>) returns (outcome: Outcome)
    modifies w`built, w`calls, w.actionHooks
    ensures outcome == OutcomeOf(Steps(shortcodes))
    ensures w.built == old(w.built) + Performed(Steps(shortcodes))
  {
    outcome := ConstructAll(w, Steps(shortcodes));
  }
}
