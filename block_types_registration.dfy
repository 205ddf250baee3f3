/** `Registration\BlockTypes::set`: each definition becomes one BlockType, its `name` and its
    `args` each read by name first, by position second, and otherwise defaulted. */
module BlockTypesRegistration {
  import opened Php
  import opened Foreach
  import opened Modules
  import opened Loaders

  /** One iteration: the `name` must reach a `string` parameter; `args` defaults to an empty array. */
  function BlockTypeStep(def: PhpArray): Step<PassThrough>
  {
    match AsStringParam(Field(def, "name", 0, Null))
    case Some(s) => New(BlockType(s, Field(def, "args", 1, EmptyArray)))
    case None => Throws
  }

  function Steps(defs: seq<PhpArray>): (steps: seq<Step<PassThrough>>)
    ensures |steps| == |defs| && forall i :: 0 <= i < |defs| ==> steps[i] == BlockTypeStep(defs[i])
  {
    seq(|defs|, i requires 0 <= i < |defs| => BlockTypeStep(defs[i]))
  }

  /** A block type survives being written by name, by position, or half and half, since the two
      fields are resolved independently. */
  lemma RoundTrip(s: string, value: Value)
    requires !value.Null?
    ensures BlockTypeStep(map[StrKey("name") := Str(s), StrKey("args") := value]) == New(BlockType(s, value))
    ensures BlockTypeStep(map[IntKey(0) := Str(s), IntKey(1) := value]) == New(BlockType(s, value))
    ensures BlockTypeStep(map[StrKey("name") := Str(s), IntKey(1) := value]) == New(BlockType(s, value))
    ensures BlockTypeStep(map[IntKey(0) := Str(s), StrKey("args") := value]) == New(BlockType(s, value))
  {
  }

  /** Without a `args` under either key the default is passed. */
  lemma Defaults(s: string)
    ensures BlockTypeStep(map[StrKey("name") := Str(s)]) == New(BlockType(s, EmptyArray))
    ensures BlockTypeStep(map[IntKey(0) := Str(s)]) == New(BlockType(s, EmptyArray))
  {
  }

  /** A key set to null reads as a missing key. */
  lemma NullKeyIsAbsent(def: PhpArray, k: ArrayKey)
    ensures BlockTypeStep(def[k := Null]) == BlockTypeStep(def - {k})
  {
    FieldNullIsAbsent(def, k, "name", 0, Null);
    FieldNullIsAbsent(def, k, "args", 1, EmptyArray);
  }

  /** Without a `name` under either key, null reaches the `string` parameter: a TypeError. */
  lemma MissingNameThrows(def: PhpArray)
    requires !IsSet(def, StrKey("name")) && !IsSet(def, IntKey(0))
    ensures BlockTypeStep(def) == Throws
  {
  }

  /** Definitions that all give a string `name` construct one BlockType each, in order. */
  lemma OnePerDefinition(defs: seq<PhpArray>)
    requires forall i :: 0 <= i < |defs| ==> Field(defs[i], "name", 0, Null).Str?
    ensures OutcomeOf(Steps(defs)) == Completed
    ensures |Performed(Steps(defs))| == |defs|
    ensures forall i :: 0 <= i < |defs| ==>
              Performed(Steps(defs))[i] == BlockType(Field(defs[i], "name", 0, Null).s, Field(defs[i], "args", 1, EmptyArray))
  {
    AllNew(Steps(defs));
  }

  /** `BlockTypes::set( $block_types )` */
  method Set(w: World, blockTypes: seq<PhpArray>) returns (outcome: Outcome)
    modifies w`built, w`calls, w.actionHooks
    ensures outcome == OutcomeOf(Steps(blockTypes))
    ensures w.built == old(w.built) + Performed(Steps(blockTypes))
  {
    outcome := ConstructAll(w, Steps(blockTypes));
  }
}
