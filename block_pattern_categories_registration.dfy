/** `Registration\BlockPatternCategories::set`: each definition becomes one
    BlockPatternCategory, read wholly by name or wholly by position. */
module BlockPatternCategoriesRegistration {
  import opened Php
  import opened Foreach
  import opened Modules
  import opened Loaders

  /** A definition is read by name if and only if `category_name` is set. */
  predicate IsAssociative(def: PhpArray)
  {
    IsSet(def, StrKey("category_name"))
  }

  /** One iteration: the name must reach a `string` parameter. */
  function CategoryStep(def: PhpArray): Step<PassThrough>
  {
    var name := if IsAssociative(def) then def[StrKey("category_name")] else Coalesce(def, IntKey(0), Null);
    var properties := if IsAssociative(def) then Coalesce(def, StrKey("category_properties"), EmptyArray)
                      else Coalesce(def, IntKey(1), EmptyArray);
    match AsStringParam(name)
    case Some(n) => New(BlockPatternCategory(n, properties))
    case None => Throws
  }

  function Steps(defs: seq<PhpArray>): (steps: seq<Step<PassThrough>>)
    ensures |steps| == |defs| && forall i :: 0 <= i < |defs| ==> steps[i] == CategoryStep(defs[i])
  {
    seq(|defs|, i requires 0 <= i < |defs| => CategoryStep(defs[i]))
  }

  /** A category survives being written in either form; without properties it gets an
      empty array. */
  lemma RoundTrip(name: string, properties: Value)
    requires !properties.Null?
    ensures CategoryStep(map[StrKey("category_name") := Str(name), StrKey("category_properties") := properties]) ==
              New(BlockPatternCategory(name, properties))
    ensures CategoryStep(map[IntKey(0) := Str(name), IntKey(1) := properties]) ==
              New(BlockPatternCategory(name, properties))
    ensures CategoryStep(map[StrKey("category_name") := Str(name)]) == New(BlockPatternCategory(name, EmptyArray))
  {
  }

  /** Once `category_name` is set, positional entries play no part. */
  lemma AssociativeIgnoresPositions(def: PhpArray, positions: PhpArray)
    requires IsAssociative(def) && forall k :: k in positions ==> k.IntKey?
    ensures CategoryStep(def + positions) == CategoryStep(def)
  {
    assert (def + positions)[StrKey("category_name")] == def[StrKey("category_name")];
    assert Coalesce(def + positions, StrKey("category_properties"), EmptyArray) ==
           Coalesce(def, StrKey("category_properties"), EmptyArray);
  }

  /** Without `category_name` the whole definition is positional: a `category_properties`
      key beside a positional name is ignored. */
  lemma PositionalIgnoresPropertiesKey(name: string, properties: Value)
    ensures CategoryStep(map[IntKey(0) := Str(name), StrKey("category_properties") := properties]) ==
              New(BlockPatternCategory(name, EmptyArray))
  {
  }

  /** Without a name under either key, null reaches the `string` parameter: a TypeError. */
  lemma MissingNameThrows(def: PhpArray)
    requires !IsSet(def, StrKey("category_name")) && !IsSet(def, IntKey(0))
    ensures CategoryStep(def) == Throws
  {
  }

  /** A definition that names its category constructs it, and so does a whole input of them. */
  lemma NamedCategories(defs: seq<PhpArray>)
    requires forall i :: 0 <= i < |defs| ==> IsSet(defs[i], StrKey("category_name")) && defs[i][StrKey("category_name")].Str?
    ensures OutcomeOf(Steps(defs)) == Completed
    ensures |Performed(Steps(defs))| == |defs|
    ensures forall i :: 0 <= i < |defs| ==> Performed(Steps(defs))[i].categoryName == defs[i][StrKey("category_name")].s
  {
    AllNew(Steps(defs));
  }

  /** `BlockPatternCategories::set( $block_pattern_categories )` */
  method Set(w: World, blockPatternCategories: seq<PhpArray>) returns (outcome: Outcome)
    modifies w`built, w`calls, w.actionHooks
    ensures outcome == OutcomeOf(Steps(blockPatternCategories))
    ensures w.built == old(w.built) + Performed(Steps(blockPatternCategories))
  {
    outcome := ConstructAll(w, Steps(blockPatternCategories));
  }
}
