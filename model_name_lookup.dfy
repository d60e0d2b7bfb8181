/** The model-code to model-name table (Models/ModelNameLookup.cs). */
module ModelNameLookup {
  import opened Primitives

  /** The static dictionary of known model codes. */
  const ModelNames: map<ushort, string> := map[777 := "STS 3215", 2825 := "STS 3250"]

  const UnknownPrefix: string := "Unknown Model "

  /** `GetName`: the table entry, or "Unknown Model " followed by the code in decimal. */
  function GetName(modelNumber: ushort): (name: string)
    ensures modelNumber == 777 ==> name == "STS 3215"
    ensures modelNumber == 2825 ==> name == "STS 3250"
    ensures modelNumber != 777 && modelNumber != 2825 ==> name == UnknownPrefix + Decimal(modelNumber)
    ensures name != []
  {
    if modelNumber in ModelNames then ModelNames[modelNumber] else UnknownPrefix + Decimal(modelNumber)
  }

  /** Different codes never share a name: the name determines the code. */
  lemma GetNameInjective(a: ushort, b: ushort)
    requires GetName(a) == GetName(b)
    ensures a == b
  {
    var na, nb := GetName(a), GetName(b);
    if a !in ModelNames && b !in ModelNames {
      assert Decimal(a) == na[|UnknownPrefix|..];
      assert Decimal(b) == nb[|UnknownPrefix|..];
      DecimalInjective(a, b);
    }
  }
}
