/** `Registration\BlockPatterns::set`: each definition becomes one BlockPattern, its `name` and its
    `properties` each read by name first, by position second, and otherwise defaulted. */
module BlockPatternsRegistration {
  import opened Php
  import opened Foreach
  import opened Modules
  import opened Loaders

  /** One iteration: the `name` must reach a `string` parameter; `properties` defaults to an empty array. */
  function PatternStep(def: PhpArray): Step<PassThrough>
  {
    match AsStringParam(Field(def, "name", 0, Null))
    case Some(s) => New(BlockPattern(s, Field(def, "properties", 1, EmptyArray)))
    case None => Throws
  }

  function Steps(defs: seq<PhpArray>): (steps: seq<Step<PassThrough>>)
    ensures |steps| == |defs| && forall i :: 0 <= i < |defs| ==> steps[i] == PatternStep(defs[i])
  {
    seq(|defs|, i requires 0 <= i < |defs| => PatternStep(defs[i]))
  }

  /** A block pattern survives being written by name, by position, or half and half, since the two
      fields are resolved independently. */
  lemma RoundTrip(s: string, value: Value)
    requires !value.Null?
    ensures PatternStep(map[StrKey("name") := Str(s), StrKey("properties") := value]) == New(BlockPattern(s, value))
    ensures PatternStep(map[IntKey(0) := Str(s), IntKey(1) := value]) == New(BlockPattern(s, value))
    ensures PatternStep(map[StrKey("name") := Str(s), IntKey(1) := value]) == New(BlockPattern(s, value))
    ensures PatternStep(map[IntKey(0) := Str(s), StrKey("properties") := value]) == New(BlockPattern(s, value))
  {
  }

  /** Without a `properties` under either key the default is passed. */
  lemma Defaults(s: string)
    ensures PatternStep(map[StrKey("name") := Str(s)]) == New(BlockPattern(s, EmptyArray))
    ensures PatternStep(map[IntKey(0) := Str(s)]) == New(BlockPattern(s, EmptyArray))
  {
  }

  /** A key set to null reads as a missing key. */
  lemma NullKeyIsAbsent(def: PhpArray, k: ArrayKey)
    ensures PatternStep(def[k := Null]) == PatternStep(def - {k})
  {
    FieldNullIsAbsent(def, k, "name", 0, Null);
    FieldNullIsAbsent(def, k, "properties", 1, EmptyArray);
  }

  /** Without a `name` under either key, null reaches the `string` parameter: a TypeError. */
  lemma MissingNameThrows(def: PhpArray)
    requires !IsSet(def, StrKey("name")) && !IsSet(def, IntKey(0))
    ensures PatternStep(def) == Throws
  {
  }

  /** Definitions that all give a string `name` construct one BlockPattern each, in order. */
  lemma OnePerDefinition(defs: seq<PhpArray>)
    requires forall i :: 0 <= i < |defs| ==> Field(defs[i], "name", 0, Null).Str?
    ensures OutcomeOf(Steps(defs)) == Completed
    ensures |Performed(Steps(defs))| == |defs|
    ensures forall i :: 0 <= i < |defs| ==>
              Performed(Steps(defs))[i] == BlockPattern(Field(defs[i], "name", 0, Null).s, Field(defs[i], "properties", 1, EmptyArray))
  {
    AllNew(Steps(defs));
  }

  /** `BlockPatterns::set( $block_patterns )` */
  method Set(w: World, blockPatterns: seq<PhpArray>) returns (outcome: Outcome)
    modifies w`built, w`calls, w.actionHooks
    ensures outcome == OutcomeOf(Steps(blockPatterns))
    ensures w.built == old(w.built) + Performed(Steps(blockPatterns))
  {
    outcome := ConstructAll(w, Steps(blockPatterns));
  }
}
