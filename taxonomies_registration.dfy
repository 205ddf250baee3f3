/** `Registration\Taxonomies::set`: each definition becomes one Taxonomy, its `taxonomy`,
    `object_type` and `args` each read by name first, by position second, and otherwise
    defaulted. */
module TaxonomiesRegistration {
  import opened Php
  import opened Foreach
  import opened Modules
  import opened Loaders

  /** One iteration: the `taxonomy` must reach a `string` parameter; `object_type` defaults
      to null and `args` to an empty array. */
  function TaxonomyStep(def: PhpArray): Step<PassThrough>
  {
    match AsStringParam(Field(def, "taxonomy", 0, Null))
    case Some(s) => New(Taxonomy(s, Field(def, "object_type", 1, Null), Field(def, "args", 2, EmptyArray)))
    case None => Throws
  }

  function Steps(defs: seq<PhpArray>): (steps: seq<Step<PassThrough>>)
    ensures |steps| == |defs| && forall i :: 0 <= i < |defs| ==> steps[i] == TaxonomyStep(defs[i])
  {
    seq(|defs|, i requires 0 <= i < |defs| => TaxonomyStep(defs[i]))
  }

  /** A taxonomy survives being written by name or by position. */
  lemma RoundTrip(taxonomy: string, objectType: Value, args: Value)
    requires !args.Null?
    ensures TaxonomyStep(map[StrKey("taxonomy") := Str(taxonomy), StrKey("object_type") := objectType,
                             StrKey("args") := args]) == New(Taxonomy(taxonomy, objectType, args))
    ensures TaxonomyStep(map[IntKey(0) := Str(taxonomy), IntKey(1) := objectType, IntKey(2) := args]) ==
              New(Taxonomy(taxonomy, objectType, args))
  {
  }

  /** The three fields are resolved independently, so the forms may be mixed. */
  lemma MixedForms(taxonomy: string, objectType: Value, args: Value)
    requires !args.Null?
    ensures TaxonomyStep(map[IntKey(0) := Str(taxonomy), StrKey("object_type") := objectType, IntKey(2) := args]) ==
              New(Taxonomy(taxonomy, objectType, args))
  {
  }

  /** Without `object_type` and `args` the defaults are passed. */
  lemma Defaults(taxonomy: string)
    ensures TaxonomyStep(map[StrKey("taxonomy") := Str(taxonomy)]) == New(Taxonomy(taxonomy, Null, EmptyArray))
  {
  }

  /** A key set to null reads as a missing key. */
  lemma NullKeyIsAbsent(def: PhpArray, k: ArrayKey)
    ensures TaxonomyStep(def[k := Null]) == TaxonomyStep(def - {k})
  {
    FieldNullIsAbsent(def, k, "taxonomy", 0, Null);
    FieldNullIsAbsent(def, k, "object_type", 1, Null);
    FieldNullIsAbsent(def, k, "args", 2, EmptyArray);
  }

  /** Without a `taxonomy` under either key, null reaches the `string` parameter: a TypeError. */
  lemma MissingNameThrows(def: PhpArray)
    requires !IsSet(def, StrKey("taxonomy")) && !IsSet(def, IntKey(0))
    ensures TaxonomyStep(def) == Throws
  {
  }

  /** Definitions that all give a string `taxonomy` construct one Taxonomy each, in order. */
  lemma OnePerDefinition(defs: seq<PhpArray>)
    requires forall i :: 0 <= i < |defs| ==> Field(defs[i], "taxonomy", 0, Null).Str?
    ensures OutcomeOf(Steps(defs)) == Completed
    ensures |Performed(Steps(defs))| == |defs|
    ensures forall i :: 0 <= i < |defs| ==>
              Performed(Steps(defs))[i] == Taxonomy(Field(defs[i], "taxonomy", 0, Null).s,
                                                    Field(defs[i], "object_type", 1, Null), Field(defs[i], "args", 2, EmptyArray))
  {
    AllNew(Steps(defs));
  }

  /** `Taxonomies::set( $taxonomies )` */
  method Set(w: World, taxonomies: seq<PhpArray>) returns (outcome: Outcome)
    modifies w`built, w`calls, w.actionHooks
    ensures outcome == OutcomeOf(Steps(taxonomies))
    ensures w.built == old(w.built) + Performed(Steps(taxonomies))
  {
    outcome := ConstructAll(w, Steps(taxonomies));
  }
}
