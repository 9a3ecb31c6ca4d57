# EnumValues: serialized names of enum constants

A Dafny model of `EnumValues` from the jackson-databind mapper. This helper decides which external string each constant of an enum type is written as. It keeps those strings, compiled into tokens, in a table indexed by ordinal.

The model has three modules:

- `EnumTypes` (`enum_types.dfy`) holds the values the helper works on:
  - `EnumConstant` has a `name()`, a `toString()` form and an ordinal.
  - `EnumClass` has a class name and the constants reflection reports for it. `None` stands for `null`.
  - `AnnotatedClass` has the raw type and the explicit names the annotation introspector finds, one `Option<string>` per constant.
  - `MapperConfig` has the two feature flags, whether an introspector is present, and the token compiler `compileString`.
  - `ToLowerCase` is an ASCII stand-in for `String.toLowerCase()`.
- `EnumNaming` (`enum_naming.dfy`) gives each naming path as a function from the constants, in ordinal order, to names. Its lemmas state the precedence rules:
  - an explicit name beats the default;
  - only `null` means "no explicit name";
  - lowercasing is applied after the choice and only on the declared-name and `toString()` paths;
  - the naming-strategy path neither consults explicit names nor lowercases.
- `EnumValuesModel` (`enum_values.dfy`) holds the class `EnumValues`:
  - `_enumClass`, `_values`, `_textual` (an `array`) and the cached map `_asMap` are its fields.
  - The static factories fill a fresh token array in loops. Each factory is proved to produce exactly the compiled names of its path.
  - The accessors are functions.
  - `InternalMap` builds the constant-to-token map once and caches it.

The object invariant `Valid()` says four things:
- the constants are the class's own;
- constant `i` has ordinal `i`;
- there is one token per constant;
- a cached map is always the map of the current tokens.

What the code checks, and so what the model checks:
- Only `null` is tested for a missing explicit name (lines 67 and 100). Any other explicit name wins, the empty string included (`EmptyOverrideWins`).
- Only a `null` constant array throws (lines 123 and 171). An enum class with zero constants builds a table on every path. Its `internalMap()` then throws `IllegalArgumentException`, because the `EnumMap` copy of an empty map fails at line 210, and nothing is cached.
- Lengths are never checked (lines 138-151). The two lowest-level factories rely on their callers to supply one token or name per constant, so the model states this as a precondition.
- `constructFromName` dereferences the introspector without a null check. A missing introspector is modelled as `Failure(NullPointer)`. This error is raised after the constants check, the order in which the code reaches it. `constructFromToString` does check for null, and then falls back to `toString()` for every constant.

## Model

| member | source | states |
|---|---|---|
| `EnumTypes.ToLowerCase` | src/main/java/tools/jackson/databind/util/EnumValues.java:71 | lowercasing keeps the length of the name |
| `EnumTypes.ToLowerCaseAt` | src/main/java/tools/jackson/databind/util/EnumValues.java:104-106 | each character is lowercased where it stands |
| `EnumTypes.ToLowerCaseIdempotent` | src/main/java/tools/jackson/databind/util/EnumValues.java:104-106 | lowercasing an already lowercased name changes nothing |
| `EnumNaming.DefaultedName` | src/main/java/tools/jackson/databind/util/EnumValues.java:66-72 | the explicit name when non-null, else the default; lowercased exactly when the flag is set, and then already lowercase |
| `EnumNaming.NamesFromName` | src/main/java/tools/jackson/databind/util/EnumValues.java:63-64 | the declared-name path yields exactly one name per constant |
| `EnumNaming.NamesFromToString` | src/main/java/tools/jackson/databind/util/EnumValues.java:97-98 | the toString() path yields exactly one name per constant |
| `EnumNaming.NoExplicitNames` | src/main/java/tools/jackson/databind/util/EnumValues.java:91 | a fresh names array has one (null) slot per constant |
| `EnumNaming.NamesUsingStrategy` | src/main/java/tools/jackson/databind/util/EnumValues.java:126-127 | the strategy path yields one name per constant |
| `EnumNaming.LowerAll` | src/main/java/tools/jackson/databind/util/EnumValues.java:71 | lowercasing every name keeps their number |
| `EnumNaming.CompileAll` | src/main/java/tools/jackson/databind/util/EnumValues.java:139-141 | compiling yields one token per name |
| `EnumNaming.OverrideWins` | src/main/java/tools/jackson/databind/util/EnumValues.java:64-74 | with an explicit name, both annotated paths yield that name, lowercased iff the flag is set, whatever name() and toString() are |
| `EnumNaming.EmptyOverrideWins` | src/main/java/tools/jackson/databind/util/EnumValues.java:99-103 | only null means "no explicit name": an empty explicit name yields the empty name on both paths |
| `EnumNaming.DefaultWithoutOverride` | src/main/java/tools/jackson/databind/util/EnumValues.java:98-107 | without an explicit name, the declared-name path uses name() and the toString() path uses toString(), lowercased iff the flag is set |
| `EnumNaming.LowercaseAppliesToChosenName` | src/main/java/tools/jackson/databind/util/EnumValues.java:66-72 | the names with the lowercase flag on are exactly the flag-off names lowercased, explicit names included |
| `EnumNaming.LowercasedNamesAreStable` | src/main/java/tools/jackson/databind/util/EnumValues.java:99-106 | with the lowercase flag on, every name produced is already lowercase |
| `EnumNaming.ToStringPathMatchesNamePath` | src/main/java/tools/jackson/databind/util/EnumValues.java:39-44 | when toString() is name() for every constant, the feature flag choosing the path does not change the names |
| `EnumNaming.IdentityStrategyIsPlainNamePath` | src/main/java/tools/jackson/databind/util/EnumValues.java:126-129 | the identity strategy gives the declared-name path's result with no explicit names and no lowercasing |
| `EnumNaming.ColorsLowercased` | src/main/java/tools/jackson/databind/util/EnumValues.java:64-74 | RED, GREEN, BLUE with the lowercase flag on become red, green, blue |
| `EnumNaming.ColorsReversed` | src/main/java/tools/jackson/databind/util/EnumValues.java:126-130 | a reversing strategy gives DER, NEERG, EULB, used unchanged |
| `EnumValuesModel.MapView` | src/main/java/tools/jackson/databind/util/EnumValues.java:206-209 | putting each constant with the token at its ordinal gives at most one entry per constant |
| `EnumValuesModel.MapViewPairs` | src/main/java/tools/jackson/databind/util/EnumValues.java:206-209 | the built map pairs constant i with token i and has no other keys |
| `EnumValuesModel.MapViewSize` | src/main/java/tools/jackson/databind/util/EnumValues.java:206-210 | the built map has one entry per constant |
| `EnumValuesModel.EnumConstants` | src/main/java/tools/jackson/databind/util/EnumValues.java:169-175 | fails with IllegalArgument and the class name exactly when reflection reports no constant array, and returns that array otherwise |
| `EnumValuesModel.ExplicitNames` | src/main/java/tools/jackson/databind/util/EnumValues.java:91-94 | one slot per constant; without an introspector every slot is empty |
| `EnumValuesModel.EnumValues.constructor` | src/main/java/tools/jackson/databind/util/EnumValues.java:28-33 | the table keeps the class, takes the constants from it, keeps the given token array and starts with no cached map |
| `EnumValuesModel.EnumValues.Construct` | src/main/java/tools/jackson/databind/util/EnumValues.java:39-44 | the toString() path is taken exactly when WRITE_ENUMS_USING_TO_STRING is on, the declared-name path otherwise; IllegalArgument when there are no constants, NullPointer on the declared-name path without an introspector |
| `EnumValuesModel.EnumValues.ConstructFromName` | src/main/java/tools/jackson/databind/util/EnumValues.java:49-76 | IllegalArgument when there are no constants; otherwise NullPointer without an introspector; otherwise a fresh table whose tokens are the compiled declared-path names, in ordinal order |
| `EnumValuesModel.EnumValues.ConstructFromToString` | src/main/java/tools/jackson/databind/util/EnumValues.java:81-110 | IllegalArgument when there are no constants; otherwise a fresh table whose tokens are the compiled toString()-path names, with every constant defaulting when there is no introspector |
| `EnumValuesModel.EnumValues.ConstructUsingEnumNamingStrategy` | src/main/java/tools/jackson/databind/util/EnumValues.java:120-131 | IllegalArgument when there are no constants; otherwise tokens are the strategy applied to each name(), compiled, whatever the lowercase flag |
| `EnumValuesModel.EnumValues.ConstructFromExternalValues` | src/main/java/tools/jackson/databind/util/EnumValues.java:136-144 | token i is the compiled string i of the given list, and there are as many tokens as strings |
| `EnumValuesModel.EnumValues.ConstructFromTextual` | src/main/java/tools/jackson/databind/util/EnumValues.java:149-152 | the table holds the given token array itself |
| `EnumValuesModel.EnumValues.SerializedValueFor` | src/main/java/tools/jackson/databind/util/EnumValues.java:183-185 | the token of a constant is the one at the constant's own position, and it agrees with the cached map |
| `EnumValuesModel.EnumValues.Values` | src/main/java/tools/jackson/databind/util/EnumValues.java:187-189 | one token per constant, token i being the one looked up for constant i |
| `EnumValuesModel.EnumValues.Enums` | src/main/java/tools/jackson/databind/util/EnumValues.java:194-196 | the class's constants, each at the index of its ordinal |
| `EnumValuesModel.EnumValues.GetEnumClass` | src/main/java/tools/jackson/databind/util/EnumValues.java:215 | the class whose constants are those of Enums() |
| `EnumValuesModel.EnumValues.InternalMap` | src/main/java/tools/jackson/databind/util/EnumValues.java:202-213 | IllegalArgument("Specified map is empty") exactly when there are no constants, with nothing cached; otherwise the map pairs every constant with the token at its ordinal and nothing else, it is cached, and a cached map is returned unchanged; only the cache field changes |

## Left out

- `ToLowerCase` lowercases ASCII letters only. Java's locale-dependent Unicode case mapping is not modelled.
- The token compiler is an arbitrary total function from strings to tokens (`MapperConfig.compileString`). `SerializableString` escaping and interning belong to the token compiler, which is not part of this model.
- Annotation introspection is given as data: the explicit names `findEnumValues` would report, one per constant. Exceptions thrown by the introspector or by a naming strategy are not modelled; both are total here.
- `ClassUtil.findEnumType(cls).getEnumConstants()` and `cls.getEnumConstants()` are the same value here. For an enum constant with a body, the two can refer to different classes in Java. The unchecked `_enumClass` cast is the identity.
- `ConstructFromTextual` requires a non-null constant array and one token per constant. The code does not check either condition. With a `null` constant array, Java builds a table whose `enums()` and `internalMap()` throw later. With a length mismatch, it builds a misaligned table.
- `EnumValues.constructor` requires a non-null constant array and one token per constant, like `ConstructFromTextual`. The private Java constructor checks neither condition.
- `ConstructFromExternalValues` requires a non-null constant array and one string per constant, for the same reason. The code does not check either condition.
- `SerializedValueFor` requires the key to be a constant of the table's class. Java accepts any enum constant, and then reads whatever token sits at that ordinal or throws.
- `Values` returns a sequence snapshot. The `Arrays.asList` view that writes through to the token array is not modelled.
- `Enums` returns a sequence snapshot of the constants, not an `Arrays.asList` view.
- `InternalMap` returns an unordered Dafny map. The ordinal iteration order of `EnumMap` is not modelled.
- `ConstructFromTextual` keeps the caller's array, as the code does. `Valid()` requires the cached map to agree with the current tokens. The model does not follow what happens when the caller changes the array after construction.
- The benign race on `_asMap` between threads is not modelled; `InternalMap` is sequential memoisation. Java serialisation (`Serializable`, the `transient` field) is also left out.
