/** The dispatch key of the registry (Sources/ResourceLoadable/ResourceCategory.swift). Swift
    synthesises `Hashable` for the enum, so two categories are equal exactly when they are the
    same case with the same payload; Dafny's structural datatype equality is that relation, and
    the registry's dictionaries are `map`s keyed by it. */
module Categories {

  datatype Category = Unknown | File | Web | Custom(name: string)

  /** The enum has exactly four cases. */
  lemma ExactlyFourVariants(c: Category)
    ensures c == Unknown || c == File || c == Web || exists name :: c == Custom(name)
  {
    if c.Custom? {
      assert c == Custom(c.name);
    }
  }

  /** `custom(a) == custom(b)` exactly when the names agree, and a custom category never equals
      a well-known one, whatever its name. */
  lemma CustomEquality(a: string, b: string)
    ensures Custom(a) == Custom(b) <==> a == b
    ensures Custom(a) != Unknown && Custom(a) != File && Custom(a) != Web
  {
  }
}
