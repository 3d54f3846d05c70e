# Variable schema and value coercion

A Dafny model of the variable schema of an authoring/runtime platform
(`src/r/definitions/variables/VariableTypes.ts`):

- the closed set of variable kinds (`number`, `boolean`, `string`), the
  default value of each kind and the `isVariableType` type guard that turns
  an untyped token into a kind;
- the registry of predefined (system) variables: the
  `predefinedVariableDefaults` record (name to id and kind) and the
  `predefinedVariableIdToName` record (id back to name), two separately
  written object literals that must stay inverse to each other;
- `convertVarValueToType`, which coerces an untyped JavaScript value into the
  representation of a declared kind.

Layout:

- `js_object.dfy` (module `JsObject`): an object literal is a list of entries
  folded left to right, a repeated key overwriting the earlier one
  (`FromEntries`). The model reads own keys only; inherited properties are
  not modelled (see "## Left out").
- `js_values.dfy` (module `JsValues`): the primitive values an untyped
  variable value can hold, and ECMA-262's ToBoolean (section 7.1.2), ToNumber
  (section 7.1.4), Number::toString and the `toString()` methods of
  primitives. Parsing a numeric string and printing the digits of a positive
  number are IEEE 754 matters; they are the two functions of a
  `NumberConversions` value passed in by the caller.
- `variable_types.dfy` (module `VariableTypes`): the schema itself and the
  coercion.

Both records of the registry are modelled as their literal entries, in
source order, evaluated by `FromEntries` (descriptions dropped and ids kept
as numbers; see "## Left out"). The registry's invariants are proved about
what the literals evaluate to, so a duplicated or mismatched id or name in
either literal would make a proof fail. The kinds written beside each name
are data and no lemma constrains them.

Two behaviours of the code are worth stating outright:

- The doc comment at `VariableTypes.ts:80-84` gives `id < 0` as the marker of
  a predefined variable. The tables leave -1 and -4 to -7 unused, so the
  marker does not single out registered ids (`PredefinedMarkerSound`).
- The string kind tests truthiness, so `0`, `NaN` and `false` also become
  `""` (`ConvertToString`, `ConvertExamples`). A boolean stored this way
  still reads back as itself (`BooleanStringRoundTrip`).

## Model

| member | source | states |
|---|---|---|
| `JsObject.FromEntries` | src/r/definitions/variables/VariableTypes.ts:87-107 | the object an object literal evaluates to has exactly the keys written in the literal |
| `JsObject.FromEntriesLookup` | src/r/definitions/variables/VariableTypes.ts:110-124 | when no key is written twice, every entry of the literal is found under its key with its value |
| `JsObject.FromEntriesSize` | src/r/definitions/variables/VariableTypes.ts:110-124 | when no key is written twice, the object has one property per entry |
| `JsValues.ToBoolean` | src/r/definitions/variables/VariableTypes.ts:133 | `Boolean(value)` is false exactly for null, undefined, false, NaN, 0 and "" |
| `JsValues.ToNumber` | src/r/definitions/variables/VariableTypes.ts:136 | `Number(value)` returns a number unchanged, and for every non-string keeps its truthiness |
| `JsValues.NumberToString` | src/r/definitions/variables/VariableTypes.ts:135 | a number's `toString()` is never empty (given a printer that prints digits) and starts with '-' for a negative finite number |
| `JsValues.ToStringMethod` | src/r/definitions/variables/VariableTypes.ts:135 | `value.toString()` needs a value that is not null or undefined; it returns a string unchanged, gives "true" exactly for `true`, and is non-empty for non-strings |
| `VariableTypes.ParseVariableType` | src/r/definitions/variables/VariableTypes.ts:32-34 | the enum lookup finds a kind only under that kind's own name, and finds none for a token that names no kind |
| `VariableTypes.IsVariableType` | src/r/definitions/variables/VariableTypes.ts:32-34 | the type guard holds exactly for "number", "boolean" and "string" (case-sensitive, nothing else) |
| `VariableTypes.ParseTypeNameRoundTrip` | src/r/definitions/variables/VariableTypes.ts:9-13 | each kind's name parses back to that kind, and no two kinds share a name |
| `VariableTypes.VariableTypeDefaultsTyped` | src/r/definitions/variables/VariableTypes.ts:15-19 | every kind has a default, the default is of the kind's own type, and it is falsy |
| `VariableTypes.DefaultIsConversionOfNull` | src/r/definitions/variables/VariableTypes.ts:15-19 | each kind's default (0, false, "") is exactly what null coerces to under that kind |
| `VariableTypes.NameOfInjective` | src/r/definitions/variables/VariableTypes.ts:54-69 | the thirteen predefined names are distinct strings, so keying the tables by the enum's constructors rather than by those strings loses nothing |
| `VariableTypes.PredefinedLiteralsAgree` | src/r/definitions/variables/VariableTypes.ts:87-124 | for every name, the id written beside it in the id literal is the id its defaults entry carries, wherever each entry stands |
| `VariableTypes.PredefinedIdEntriesNameOnce` | src/r/definitions/variables/VariableTypes.ts:110-124 | the id literal names each predefined variable in exactly one entry |
| `VariableTypes.PredefinedDefaultsKeysDistinct` | src/r/definitions/variables/VariableTypes.ts:87-107 | the defaults literal writes no name twice, so no entry is overwritten |
| `VariableTypes.PredefinedIdKeysDistinct` | src/r/definitions/variables/VariableTypes.ts:110-124 | the id literal writes no id twice, so no entry is overwritten |
| `VariableTypes.PredefinedDefaultsTotal` | src/r/definitions/variables/VariableTypes.ts:87-107 | every predefined name has an entry in the defaults record |
| `VariableTypes.PredefinedIdsNegative` | src/r/definitions/variables/VariableTypes.ts:80-107 | every predefined id is negative |
| `VariableTypes.PredefinedIdsDistinct` | src/r/definitions/variables/VariableTypes.ts:88-106 | two different predefined names never share an id |
| `VariableTypes.PredefinedNameRoundTrip` | src/r/definitions/variables/VariableTypes.ts:87-124 | for every name, the id table maps its id back to that name |
| `VariableTypes.PredefinedIdRoundTrip` | src/r/definitions/variables/VariableTypes.ts:110-124 | for every id in the id table, the named variable's defaults carry that id |
| `VariableTypes.PredefinedIdTableDomain` | src/r/definitions/variables/VariableTypes.ts:110-124 | the id table's keys are exactly the ids of the defaults record |
| `VariableTypes.PredefinedTablesSize` | src/r/definitions/variables/VariableTypes.ts:87-124 | each table holds exactly 13 entries |
| `VariableTypes.PredefinedNameById` | src/r/definitions/variables/VariableTypes.ts:110-124 | looking up an id gives a name whose id it is, or nothing when no predefined variable has that id |
| `VariableTypes.PredefinedMarkerSound` | src/r/definitions/variables/VariableTypes.ts:80-84 | every registered id satisfies the `id < 0` marker, but -1 satisfies it without being registered |
| `VariableTypes.ConvertVarValueToType` | src/r/definitions/variables/VariableTypes.ts:126-137 | the coercion is total on the modelled inputs and its result always has the requested kind |
| `VariableTypes.ConvertToBoolean` | src/r/definitions/variables/VariableTypes.ts:129-133 | a string gives true exactly when it is "true"; any other value gives its truthiness |
| `VariableTypes.ConvertToString` | src/r/definitions/variables/VariableTypes.ts:135 | falsy values give "", strings pass through unchanged, `true` gives "true", and (given a printer that prints digits) "" results exactly from falsy values |
| `VariableTypes.ConvertToNumber` | src/r/definitions/variables/VariableTypes.ts:136 | true gives 1, false and null give 0, undefined gives NaN, a number passes through, a string is parsed |
| `VariableTypes.ConvertFixesOwnKind` | src/r/definitions/variables/VariableTypes.ts:126-137 | a value that already has the requested kind comes back unchanged |
| `VariableTypes.ConvertIdempotent` | src/r/definitions/variables/VariableTypes.ts:126-137 | coercing a coerced value again to the same kind changes nothing |
| `VariableTypes.BooleanStringRoundTrip` | src/r/definitions/variables/VariableTypes.ts:129-135 | a boolean coerced to the string kind and back to the boolean kind is the same boolean |
| `VariableTypes.ConvertExamples` | src/r/definitions/variables/VariableTypes.ts:129-135 | "false", "True", "1" and "yes" give false; 0, false, NaN and null give "" under the string kind |

## Left out

- `VariableTypes.IsVariableType`: models own-key lookup only. In JavaScript, `VariableType[token]` also finds inherited `Object.prototype` members, so the guard also holds for "toString", "constructor", "valueOf" and similar names; the model's guard rejects them.
- `VariableTypes.ParseVariableType`: the same own-key restriction as `IsVariableType`.
- String-to-number parsing and the digits printed for a positive finite number are IEEE 754 double matters. They are the `parse` and `format` functions of `NumberConversions`, so `ConvertToNumber` says nothing about which number a numeric string denotes ("3.5", "abc"), and `ConvertToString` says nothing about the digits of a number such as 42.
- Negative zero is not distinguished from zero; both are falsy and print as "0", so the coercion treats them alike.
- Objects, arrays, functions, symbols and bigints as input values: the untyped input ranges over the primitives null, undefined, booleans, numbers and strings.
- A `varType` outside the enum, for which the switch returns `undefined`: the kind is a closed datatype, so that case cannot arise.
- The `description` strings of the predefined variables: free text with no behaviour.
- The keys of `predefinedVariableIdToName` are numbers here; JavaScript stores them as the strings "-2", "-3", and so on.
- Looking up the defaults record by an arbitrary string: names form a closed datatype, so an unknown name cannot be written.
- `VarCategory`, `DeviceVar`, `IVariableDefinition`, `VarsMap` and `ArrayOfValues`: type declarations with no behaviour.
- `src/r/definitions/BaseCogObject` is not part of this model.
- `src/r/recordTypes/Brain.ts`: a two-member enum and a constant record of defaults, with no operation to model.
