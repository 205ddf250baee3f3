/** `Registration\PostTypes::set`: each definition becomes one PostType, its `key` and its
    `args` each read by name first, by position second, and otherwise defaulted. */
module PostTypesRegistration {
  import opened Php
  import opened Foreach
  import opened Modules
  import opened Loaders

  /** One iteration: the `key` must reach a `string` parameter; `args` defaults to an empty array. */
  function PostTypeStep(def: PhpArray): Step<PassThrough>
  {
    match AsStringParam(Field(def, "key", 0, Null))
    case Some(s) => New(PostType(s, Field(def, "args", 1, EmptyArray)))
    case None => Throws
  }

  function Steps(defs: seq<PhpArray>): (steps: seq<Step<PassThrough>>)
    ensures |steps| == |defs| && forall i :: 0 <= i < |defs| ==> steps[i] == PostTypeStep(defs[i])
  {
    seq(|defs|, i requires 0 <= i < |defs| => PostTypeStep(defs[i]))
  }

  /** A post type survives being written by name, by position, or half and half, since the two
      fields are resolved independently. */
  lemma RoundTrip(s: string, value: Value)
    requires !value.Null?
    ensures PostTypeStep(map[StrKey("key") := Str(s), StrKey("args") := value]) == New(PostType(s, value))
    ensures PostTypeStep(map[IntKey(0) := Str(s), IntKey(1) := value]) == New(PostType(s, value))
    ensures PostTypeStep(map[StrKey("key") := Str(s), IntKey(1) := value]) == New(PostType(s, value))
    ensures PostTypeStep(map[IntKey(0) := Str(s), StrKey("args") := value]) == New(PostType(s, value))
  {
  }

  /** Without a `args` under either key the default is passed. */
  lemma Defaults(s: string)
    ensures PostTypeStep(map[StrKey("key") := Str(s)]) == New(PostType(s, EmptyArray))
    ensures PostTypeStep(map[IntKey(0) := Str(s)]) == New(PostType(s, EmptyArray))
  {
  }

  /** A key set to null reads as a missing key. */
  lemma NullKeyIsAbsent(def: PhpArray, k: ArrayKey)
    ensures PostTypeStep(def[k := Null]) == PostTypeStep(def - {k})
  {
    FieldNullIsAbsent(def, k, "key", 0, Null);
    FieldNullIsAbsent(def, k, "args", 1, EmptyArray);
  }

  /** Without a `key` under either key, null reaches the `string` parameter: a TypeError. */
  lemma MissingNameThrows(def: PhpArray)
    requires !IsSet(def, StrKey("key")) && !IsSet(def, IntKey(0))
    ensures PostTypeStep(def) == Throws
  {
  }

  /** Definitions that all give a string `key` construct one PostType each, in order. */
  lemma OnePerDefinition(defs: seq<PhpArray>)
    requires forall i :: 0 <= i < |defs| ==> Field(defs[i], "key", 0, Null).Str?
    ensures OutcomeOf(Steps(defs)) == Completed
    ensures |Performed(Steps(defs))| == |defs|
    ensures forall i :: 0 <= i < |defs| ==>
              Performed(Steps(defs))[i] == PostType(Field(defs[i], "key", 0, Null).s, Field(defs[i], "args", 1, EmptyArray))
  {
    AllNew(Steps(defs));
  }

  /** `PostTypes::set( $post_types )` */
  method Set(w: World, postTypes: seq<PhpArray>) returns (outcome: Outcome)
    modifies w`built, w`calls, w.actionHooks
    ensures outcome == OutcomeOf(Steps(postTypes))
    ensures w.built == old(w.built) + Performed(Steps(postTypes))
  {
    outcome := ConstructAll(w, Steps(postTypes));
  }
}
