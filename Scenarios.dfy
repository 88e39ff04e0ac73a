/**
 * The three-constant enum exercised by the converter's tests: ONE, TWO and THREE
 * with the labels "One", "Two" and "Three".
 */
module ConverterScenarios {
  import opened Wrappers
  import opened Converter

  datatype TestEnum = ONE | TWO | THREE {

    /** The intrinsic name of the constant, as declared. */
    function Name(): string {
      match this
      case ONE => "ONE"
      case TWO => "TWO"
      case THREE => "THREE"
    }

    /** The label each constant is declared with. */
    function Libelle(): string {
      match this
      case ONE => "One"
      case TWO => "Two"
      case THREE => "Three"
    }
  }

  function TestClass(): (c: EnumClass<TestEnum>)
    ensures c.Valid()
  {
    EnumClass([ONE, TWO, THREE], (e: TestEnum) => e.Name())
  }

  /** A label that no constant has gives an empty result. */
  lemma UnknownLabelIsEmpty()
    ensures GetByGetter(TestClass(), (e: TestEnum) => e.Libelle(), "Four") == None
  {
  }

  /** Every constant is found back from its label. */
  lemma LabelRoundTrip(e: TestEnum)
    ensures GetByGetter(TestClass(), (e: TestEnum) => e.Libelle(), e.Libelle()) == Some(e)
  {
  }

  /** Every constant is found back from its name, through the static and the bound form. */
  method NameRoundTrip(e: TestEnum) returns (r: Option<TestEnum>, bound: Option<TestEnum>)
    ensures r == Some(e) && bound == Some(e)
  {
    var cs := TestClass().constants;
    var i := if e == ONE then 0 else if e == TWO then 1 else 2;
    assert cs[i] == e;
    GetByNameRoundTrip(TestClass(), i);
    r := GetByName(TestClass(), e.Name());
    var converter := new EnumConverter(TestClass());
    bound := converter.GetByName(e.Name());
  }

  /** Every constant is found back from its label by a converter built for the test enum. */
  method BoundLabelRoundTrip(e: TestEnum) returns (bound: Option<TestEnum>)
    ensures bound == Some(e)
  {
    LabelRoundTrip(e);
    var converter := new EnumConverter(TestClass());
    bound := converter.GetByGetter((e: TestEnum) => e.Libelle(), e.Libelle());
  }

  /** Name matching is case-sensitive: "two" names no constant. */
  lemma NameIsCaseSensitive()
    ensures GetByName(TestClass(), "TWO") == Some(TWO)
    ensures GetByName(TestClass(), "two") == None
  {
  }
}
