/**
 * The constructor's merge of the caller's `CropOptions` with `defaults`
 * (index.ts). An options object is a map from property name to number; a
 * property counts as missing when it is absent (undefined) or 0, the falsy
 * numbers JavaScript's `!` sees.
 */
module Options {
  import opened Geometry

  /** The properties of `defaults`, in declaration order. */
  const Keys: seq<string> := ["minWidth", "minHeight", "closeCrop", "cornerCrop"]

  const Defaults: map<string, int> :=
    map["minWidth" := 10, "minHeight" := 10, "closeCrop" := 5, "cornerCrop" := 10]

  /** `options[k]` is truthy. */
  predicate Truthy(options: map<string, int>, k: string) {
    k in options && options[k] != 0
  }

  /**
   * The merged options: every property of `defaults` that the caller left
   * falsy takes its default; every other property keeps the caller's value.
   */
  function Merged(given: map<string, int>): (m: map<string, int>)
    ensures m.Keys == given.Keys + Defaults.Keys
    ensures forall k :: Truthy(given, k) ==> m[k] == given[k]
    ensures forall k :: k in Defaults && !Truthy(given, k) ==> m[k] == Defaults[k]
    ensures forall k :: k in given && k !in Defaults ==> m[k] == given[k]
    ensures forall k :: k in Defaults ==> Truthy(m, k)
  {
    map k | k in given.Keys + Defaults.Keys ::
      if k in Defaults && !Truthy(given, k) then Defaults[k] else given[k]
  }

  /** `Keys` lists exactly the properties of `Defaults`. */
  lemma KeysAreDefaults()
    ensures forall k :: k in Defaults <==> k in Keys
  {
  }

  /**
   * The constructor's `for...in` loop over `defaults`: each falsy property
   * is overwritten with its default. The map is a value, so the caller's own
   * options object is not changed.
   */
  method MergeDefaults(given: map<string, int>) returns (options: map<string, int>)
    ensures options == Merged(given)
  {
    KeysAreDefaults();
    options := given;
    for i := 0 to |Keys|
      invariant forall k :: k in options <==> k in given || k in Keys[..i]
      invariant forall k :: k in options ==>
        options[k] == if k in Keys[..i] then Merged(given)[k] else given[k]
    {
      var property := Keys[i];
      assert Keys[..i + 1] == Keys[..i] + [property];
      if !Truthy(options, property) {
        options := options[property := Defaults[property]];
      }
    }
    assert Keys[..|Keys|] == Keys;
  }

  /** Merging an already merged object changes nothing. */
  lemma MergeIsIdempotent(given: map<string, int>)
    ensures Merged(Merged(given)) == Merged(given)
  {
  }

  /** The controller's view of merged options. */
  function ToConfig(options: map<string, int>): Config
    requires forall k :: k in Defaults ==> k in options
  {
    Config(options["minWidth"], options["minHeight"], options["closeCrop"], options["cornerCrop"])
  }

  /** With no options, or with every option 0, the defaults 10, 10, 5, 10 apply. */
  lemma DefaultConfig(given: map<string, int>)
    requires forall k :: k in given ==> given[k] == 0
    ensures ToConfig(Merged(given)) == Config(10, 10, 5, 10)
  {
  }
}
