# enum-converter in Dafny

A model of `EnumConverter`, a utility that converts a name or a getter value
into the matching constant of a Java enum. Both lookups scan the enum's
constants in declaration order. They return the first constant whose getter
value equals the given value, or an empty `Optional` when there is none.
`getByName` is the same scan with the constant's intrinsic name as the getter.
The comparison is exact and case-sensitive. The operations come in two forms:
static ones that take the enum class, and instance ones that forward to them
with the class the converter was built for.

Modelling choices:

- An enum class (`Class<F>` with `getEnumConstants()` and `Enum::name`) is the
  datatype `Converter.EnumClass`: its constants as a sequence in declaration
  order and a function giving each constant's name. `EnumClass.Valid` states
  the Java guarantee that names are pairwise distinct. The lookups do not need
  it; only the name round-trip does.
- A getter (`Function<F, E>`) is a total Dafny function `T -> E`. Java's
  `equals` on the getter's result is Dafny equality on `E`. For `String`
  values, such as names and labels, both are exact character-by-character
  equality.
- `Optional<F>` is `Wrappers.Option`: `Some` for a present value, `None` for
  empty.
- `Stream.of(...).filter(...).findFirst()` is the recursive scan
  `Converter.FirstMatch`, which gives the index of the first match. The
  reference definition `Converter.Matches` is the filter alone. A lemma
  proves that the lookup is the head of the filtered constants.
- The converter class keeps its enum class in a `const` field. The source
  assigns that field once, in the constructor, and never changes it.
- `ConverterScenarios` restates the source's tests on their own
  three-constant enum (ONE, TWO, THREE with labels "One", "Two", "Three").

## Model

| member | source | states |
|---|---|---|
| `Converter.FirstMatch` | src/main/java/com/github/mathiewz/converter/EnumConverter.java:66-68 | a found index is within the constants, its constant matches, and no earlier constant matches; an empty result means no constant matches |
| `Converter.GetByGetter` | src/main/java/com/github/mathiewz/converter/EnumConverter.java:65-69 | a present result is one of the enum's constants and its getter value equals `value`; no constant before it in declaration order matches; the result is empty exactly when no constant's getter value equals `value` |
| `Converter.GetByName` | src/main/java/com/github/mathiewz/converter/EnumConverter.java:52-54 | a present result is a constant whose name is exactly `name`; the result is empty exactly when no constant has that name |
| `Converter.EnumConverter.constructor` | src/main/java/com/github/mathiewz/converter/EnumConverter.java:21-23 | the converter stores the enum class it is given |
| `Converter.EnumConverter.GetByName` | src/main/java/com/github/mathiewz/converter/EnumConverter.java:30-32 | a present result is a constant of the bound class with exactly that name; empty exactly when no constant of the bound class has it |
| `Converter.EnumConverter.GetByGetter` | src/main/java/com/github/mathiewz/converter/EnumConverter.java:41-43 | a present result is a constant of the bound class with that getter value, and no constant before it in declaration order matches; empty exactly when no constant of the bound class has it |
| `Converter.BoundGetByName` | src/main/java/com/github/mathiewz/converter/EnumConverter.java:21-32 | a converter built for a class gives exactly the static `getByName` result on that class |
| `Converter.BoundGetByGetter` | src/main/java/com/github/mathiewz/converter/EnumConverter.java:21-43 | a converter built for a class gives exactly the static `getByGetter` result on that class |
| `Converter.GetByGetterIsFindFirst` | src/main/java/com/github/mathiewz/converter/EnumConverter.java:66-68 | the lookup equals the first constant kept by the filter "getter value equals `value`", and is empty when the filter keeps nothing |
| `Converter.FirstMatchIsHeadOfMatches` | src/main/java/com/github/mathiewz/converter/EnumConverter.java:66-68 | the scan finds nothing exactly when the filter keeps nothing, and what it finds is the filter's first element |
| `Converter.GetByGetterRoundTrip` | src/main/java/com/github/mathiewz/converter/EnumConverter.java:65-69 | when the getter gives distinct values to distinct constants, looking up a constant's own getter value returns that constant |
| `Converter.GetByNameRoundTrip` | src/main/java/com/github/mathiewz/converter/EnumConverter.java:52-54 | in an enum with distinct names, looking up a constant's name returns that constant |
| `Converter.ScanStopsAtFirstMatch` | src/main/java/com/github/mathiewz/converter/EnumConverter.java:66-68 | constants after a match never change the result; constants before every match are passed over, so a match in the later part is found at its shifted index |
| `ConverterScenarios.TestClass` | src/test/java/com/github/mathiewz/converter/EnumConverterTest.java:15-29 | the test enum ONE, TWO, THREE has distinct names |
| `ConverterScenarios.UnknownLabelIsEmpty` | src/test/java/com/github/mathiewz/converter/EnumConverterTest.java:31-42 | looking up the label "Four", which no constant has, gives an empty result |
| `ConverterScenarios.LabelRoundTrip` | src/test/java/com/github/mathiewz/converter/EnumConverterTest.java:44-59 | each test constant is found back from its own label |
| `ConverterScenarios.NameRoundTrip` | src/test/java/com/github/mathiewz/converter/EnumConverterTest.java:61-76 | each test constant is found back from its name, by the static form and by a converter built for the test enum |
| `ConverterScenarios.BoundLabelRoundTrip` | src/test/java/com/github/mathiewz/converter/EnumConverterTest.java:78-94 | each test constant is found back from its own label by a converter built for the test enum |
| `ConverterScenarios.NameIsCaseSensitive` | src/main/java/com/github/mathiewz/converter/EnumConverter.java:27 | "TWO" finds the constant TWO while "two" matches no constant of the test enum |

## Left out

- Reflection: `clazz.getEnumConstants()` and the requirement that `clazz` be an enum class. The model receives the constants and their names directly.
- Null values and exceptions. `getterReference.apply(entry).equals(value)` throws when the getter returns null. An exception thrown by the getter propagates to the caller. Dafny functions are total, so neither case exists in the model. The point where the scan stops is stated instead, by `Converter.ScanStopsAtFirstMatch`.
- The laziness of `Stream`, that is, which getter calls actually happen. Getters are pure here, so only the result is modelled.
- The JUnit harness. Its test cases are restated as lemmas and methods in `ConverterScenarios`.
