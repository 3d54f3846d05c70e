/**
 * The variable schema of the authoring platform: the closed set of variable
 * kinds with their defaults, the registry of predefined (system) variables
 * with their fixed negative ids, and the coercion of an untyped value into
 * a declared kind.
 */
module VariableTypes {
  import opened JsObject
  import opened JsValues

  // ---------------------------------------------------------------------
  // Variable kinds
  // ---------------------------------------------------------------------

  datatype VariableType = Number | Boolean | String

  /** The string each kind stands for at run time (the enum's value). */
  function TypeName(k: VariableType): string
  {
    match k
    case Number => "number"
    case Boolean => "boolean"
    case String => "string"
  }

  /**
   * The own keys of the compiled `VariableType` enum object. A string enum
   * has no reverse mapping, so its keys are exactly the three names.
   */
  const VariableTypeEnum: map<string, VariableType> :=
    map["number" := Number, "boolean" := Boolean, "string" := String]

  /**
   * The kind a token names, if any. Lookup is by own key and case-sensitive.
   * (In JavaScript the enum object also inherits `toString`, `constructor`
   * and the other `Object.prototype` members; see README.)
   */
  function ParseVariableType(token: string): (r: Option<VariableType>)
    ensures r.Some? ==> TypeName(r.value) == token
    ensures r.None? ==> forall k: VariableType :: TypeName(k) != token
  {
    Get(VariableTypeEnum, token)
  }

  /** The type guard: the token is one of the three kind names, exactly. */
  predicate IsVariableType(token: string)
    ensures IsVariableType(token) <==> token == "number" || token == "boolean" || token == "string"
  {
    ParseVariableType(token).Some?
  }

  /** Parsing undoes naming, and no two kinds share a name. */
  lemma ParseTypeNameRoundTrip(k: VariableType)
    ensures ParseVariableType(TypeName(k)) == Some(k)
    ensures forall k' :: TypeName(k') == TypeName(k) ==> k' == k
  {
    assert TypeName(k) in VariableTypeEnum;
  }

  // ---------------------------------------------------------------------
  // Variable values and per-kind defaults
  // ---------------------------------------------------------------------

  /** A typed variable value: number, boolean or string and nothing else. */
  datatype VarValue = NumValue(n: JsNumber) | BoolValue(b: bool) | StrValue(s: string)

  /** The kind of a typed value (its `typeof`). */
  function KindOf(v: VarValue): VariableType
  {
    match v
    case NumValue(_) => Number
    case BoolValue(_) => Boolean
    case StrValue(_) => String
  }

  /** A typed value seen as an untyped JavaScript value. */
  function AsJs(v: VarValue): (j: JsValue)
    ensures !j.Null? && !j.Undefined?
  {
    match v
    case NumValue(n) => Num(n)
    case BoolValue(b) => Bool(b)
    case StrValue(s) => Str(s)
  }

  /** The entries of the `variableTypeDefaults` literal, in source order. */
  const VariableTypeDefaultsEntries: seq<(VariableType, VarValue)> :=
    [(Number, NumValue(Finite(0.0))), (Boolean, BoolValue(false)), (String, StrValue(""))]

  const VariableTypeDefaults: map<VariableType, VarValue> := FromEntries(VariableTypeDefaultsEntries)

  /** Every kind has a default, of the kind's own type, and every default is falsy. */
  lemma VariableTypeDefaultsTyped(k: VariableType)
    ensures k in VariableTypeDefaults
    ensures KindOf(VariableTypeDefaults[k]) == k
    ensures !ToBoolean(AsJs(VariableTypeDefaults[k]))
  {
    var i := match k case Number => 0 case Boolean => 1 case String => 2;
    FromEntriesLookup(VariableTypeDefaultsEntries, i);
  }

  // ---------------------------------------------------------------------
  // Predefined variables
  // ---------------------------------------------------------------------

  datatype PredefinedVariableName =
    | VIdentifierVar
    | FirstnameVar
    | DeviceVar
    | BrowserVar
    | VrmodeVar
    | Score
    | Lang
    | ScormProgress
    | ScormSuspendData
    | ScormScore
    | LastnameVar
    | FullnameVar
    | PlayerCountVar

  /** The enum's value, which is also the variable's name and its key in `predefinedVariableDefaults`. */
  function NameOf(n: PredefinedVariableName): string
  {
    match n
    case VIdentifierVar => "v_identifier_var"
    case FirstnameVar => "firstname_var"
    case DeviceVar => "device_var"
    case BrowserVar => "browser_var"
    case VrmodeVar => "vrmode_var"
    case Score => "score"
    case Lang => "lang"
    case ScormProgress => "scorm_progress"
    case ScormSuspendData => "scorm_suspend_data"
    case ScormScore => "scorm_score"
    case LastnameVar => "lastname_var"
    case FullnameVar => "fullname_var"
    case PlayerCountVar => "player_count_var"
  }

  /** The fixed id and kind of a predefined variable (its description is free text and not modelled). */
  datatype PredefinedVarDefaults = PredefinedVarDefaults(id: int, kind: VariableType)

  /** The entries of the `predefinedVariableDefaults` literal, in source order. */
  const PredefinedDefaultsEntries: seq<(PredefinedVariableName, PredefinedVarDefaults)> := [
    (Score, PredefinedVarDefaults(-2, Number)),
    (Lang, PredefinedVarDefaults(-3, String)),
    (VIdentifierVar, PredefinedVarDefaults(-8, String)),
    (DeviceVar, PredefinedVarDefaults(-9, String)),
    (BrowserVar, PredefinedVarDefaults(-10, String)),
    (VrmodeVar, PredefinedVarDefaults(-11, Boolean)),
    (FirstnameVar, PredefinedVarDefaults(-12, String)),
    (ScormProgress, PredefinedVarDefaults(-13, Number)),
    (ScormSuspendData, PredefinedVarDefaults(-14, Number)),
    (ScormScore, PredefinedVarDefaults(-15, Number)),
    (LastnameVar, PredefinedVarDefaults(-16, String)),
    (FullnameVar, PredefinedVarDefaults(-17, String)),
    (PlayerCountVar, PredefinedVarDefaults(-18, Number))
  ]

  /** The entries of the `predefinedVariableIdToName` literal, in source order. */
  const PredefinedIdToNameEntries: seq<(int, PredefinedVariableName)> := [
    (-2, Score),
    (-3, Lang),
    (-8, VIdentifierVar),
    (-9, DeviceVar),
    (-10, BrowserVar),
    (-11, VrmodeVar),
    (-12, FirstnameVar),
    (-13, ScormProgress),
    (-14, ScormSuspendData),
    (-15, ScormScore),
    (-16, LastnameVar),
    (-17, FullnameVar),
    (-18, PlayerCountVar)
  ]

  const PredefinedVariableDefaults: map<PredefinedVariableName, PredefinedVarDefaults> :=
    FromEntries(PredefinedDefaultsEntries)

  const PredefinedVariableIdToName: map<int, PredefinedVariableName> :=
    FromEntries(PredefinedIdToNameEntries)

  /** Where each name is written in the `predefinedVariableDefaults` literal. */
  function DefaultsEntryIndex(n: PredefinedVariableName): (i: nat)
    ensures i < |PredefinedDefaultsEntries| && PredefinedDefaultsEntries[i].0 == n
  {
    match n
    case Score => 0
    case Lang => 1
    case VIdentifierVar => 2
    case DeviceVar => 3
    case BrowserVar => 4
    case VrmodeVar => 5
    case FirstnameVar => 6
    case ScormProgress => 7
    case ScormSuspendData => 8
    case ScormScore => 9
    case LastnameVar => 10
    case FullnameVar => 11
    case PlayerCountVar => 12
  }

  /** Where each name is written in the `predefinedVariableIdToName` literal. */
  function IdEntryIndex(n: PredefinedVariableName): (j: nat)
    ensures j < |PredefinedIdToNameEntries| && PredefinedIdToNameEntries[j].1 == n
  {
    match n
    case Score => 0
    case Lang => 1
    case VIdentifierVar => 2
    case DeviceVar => 3
    case BrowserVar => 4
    case VrmodeVar => 5
    case FirstnameVar => 6
    case ScormProgress => 7
    case ScormSuspendData => 8
    case ScormScore => 9
    case LastnameVar => 10
    case FullnameVar => 11
    case PlayerCountVar => 12
  }

  /** The id literal names every predefined variable once: its j-th entry is where that name is written. */
  lemma PredefinedIdEntriesNameOnce()
    ensures forall j | 0 <= j < |PredefinedIdToNameEntries| :: IdEntryIndex(PredefinedIdToNameEntries[j].1) == j
  {
  }

  /**
   * The two literals agree on every name: the id written beside a name in
   * the id literal is the id its entry carries in the defaults literal,
   * wherever in each literal the two entries stand.
   */
  lemma PredefinedLiteralsAgree(n: PredefinedVariableName)
    ensures PredefinedIdToNameEntries[IdEntryIndex(n)].0 == PredefinedDefaultsEntries[DefaultsEntryIndex(n)].1.id
  {
  }

  /** The defaults literal writes no name twice, so no entry is silently overwritten. */
  lemma PredefinedDefaultsKeysDistinct()
    ensures DistinctKeys(PredefinedDefaultsEntries)
  {
    var e := PredefinedDefaultsEntries;
    assert forall i | 0 <= i < |e| :: DefaultsEntryIndex(e[i].0) == i;
  }

  /** The id literal writes no id twice, so no entry is silently overwritten. */
  lemma PredefinedIdKeysDistinct()
    ensures DistinctKeys(PredefinedIdToNameEntries)
  {
  }

  /** Every predefined name has an entry (the `Record<PredefinedVariableName, _>` promise). */
  lemma PredefinedDefaultsTotal(n: PredefinedVariableName)
    ensures n in PredefinedVariableDefaults
    ensures PredefinedVariableDefaults[n] == PredefinedDefaultsEntries[DefaultsEntryIndex(n)].1
  {
    PredefinedDefaultsKeysDistinct();
    FromEntriesLookup(PredefinedDefaultsEntries, DefaultsEntryIndex(n));
  }

  /** Every predefined id is negative, which is how a predefined variable is recognised. */
  lemma PredefinedIdsNegative(n: PredefinedVariableName)
    ensures n in PredefinedVariableDefaults && PredefinedVariableDefaults[n].id < 0
  {
    PredefinedDefaultsTotal(n);
  }

  /** No two predefined names share an id. */
  lemma PredefinedIdsDistinct(n1: PredefinedVariableName, n2: PredefinedVariableName)
    ensures n1 in PredefinedVariableDefaults && n2 in PredefinedVariableDefaults
    ensures n1 != n2 ==> PredefinedVariableDefaults[n1].id != PredefinedVariableDefaults[n2].id
  {
    PredefinedDefaultsTotal(n1);
    PredefinedDefaultsTotal(n2);
    PredefinedLiteralsAgree(n1);
    PredefinedLiteralsAgree(n2);
    PredefinedIdKeysDistinct();
    var j1, j2 := IdEntryIndex(n1), IdEntryIndex(n2);
    if n1 != n2 {
      assert j1 != j2;
      if j1 < j2 {
        assert PredefinedIdToNameEntries[j1].0 != PredefinedIdToNameEntries[j2].0;
      } else {
        assert PredefinedIdToNameEntries[j2].0 != PredefinedIdToNameEntries[j1].0;
      }
    }
  }

  /** Round trip from a name: its id leads back to it. */
  lemma PredefinedNameRoundTrip(n: PredefinedVariableName)
    ensures n in PredefinedVariableDefaults
    ensures PredefinedVariableDefaults[n].id in PredefinedVariableIdToName
    ensures PredefinedVariableIdToName[PredefinedVariableDefaults[n].id] == n
  {
    PredefinedDefaultsTotal(n);
    PredefinedLiteralsAgree(n);
    PredefinedIdKeysDistinct();
    FromEntriesLookup(PredefinedIdToNameEntries, IdEntryIndex(n));
  }

  /** Round trip from an id: the name it gives has that id. */
  lemma PredefinedIdRoundTrip(id: int)
    requires id in PredefinedVariableIdToName
    ensures PredefinedVariableIdToName[id] in PredefinedVariableDefaults
    ensures PredefinedVariableDefaults[PredefinedVariableIdToName[id]].id == id
  {
    PredefinedIdKeysDistinct();
    var j :| 0 <= j < |PredefinedIdToNameEntries| && PredefinedIdToNameEntries[j].0 == id;
    FromEntriesLookup(PredefinedIdToNameEntries, j);
    var n := PredefinedIdToNameEntries[j].1;
    PredefinedIdEntriesNameOnce();
    assert IdEntryIndex(n) == j;
    PredefinedLiteralsAgree(n);
    PredefinedDefaultsTotal(n);
  }

  /** The id table holds exactly the ids of the defaults table. */
  lemma PredefinedIdTableDomain()
    ensures PredefinedVariableIdToName.Keys
         == set n | n in PredefinedVariableDefaults :: PredefinedVariableDefaults[n].id
  {
    forall id | id in PredefinedVariableIdToName
      ensures exists n | n in PredefinedVariableDefaults :: PredefinedVariableDefaults[n].id == id
    {
      PredefinedIdRoundTrip(id);
    }
    forall n | n in PredefinedVariableDefaults
      ensures PredefinedVariableDefaults[n].id in PredefinedVariableIdToName
    {
      PredefinedNameRoundTrip(n);
    }
  }

  /** Both tables hold exactly 13 entries. */
  lemma PredefinedTablesSize()
    ensures |PredefinedVariableIdToName| == |PredefinedVariableDefaults| == 13
  {
    PredefinedDefaultsKeysDistinct();
    PredefinedIdKeysDistinct();
    FromEntriesSize(PredefinedIdToNameEntries);
    FromEntriesSize(PredefinedDefaultsEntries);
  }

  /**
   * At run time each computed key `[PredefinedVariableName.x]` is the string
   * `NameOf(x)`. The thirteen strings are distinct, so keying the tables by
   * the enum's constructors instead of by those strings loses nothing.
   */
  lemma NameOfInjective(n1: PredefinedVariableName, n2: PredefinedVariableName)
    ensures NameOf(n1) == NameOf(n2) ==> n1 == n2
  {
  }

  /**
   * Reading `predefinedVariableIdToName[id]`: the predefined variable with
   * that id, or `undefined` when the id belongs to no predefined variable.
   */
  function PredefinedNameById(id: int): (r: Option<PredefinedVariableName>)
    ensures r.Some? ==> r.value in PredefinedVariableDefaults && PredefinedVariableDefaults[r.value].id == id
    ensures r.None? ==> forall n | n in PredefinedVariableDefaults :: PredefinedVariableDefaults[n].id != id
  {
    if id in PredefinedVariableIdToName then
      PredefinedIdRoundTrip(id);
      Some(PredefinedVariableIdToName[id])
    else
      PredefinedIdTableDomain();
      None
  }

  /** How a predefined variable is recognised from its id alone. */
  predicate IsPredefinedId(id: int)
  {
    id < 0
  }

  /**
   * The id marker holds for every registered id, but it does not single
   * them out: the ids -1 and -4 to -7 are negative and name no variable.
   */
  lemma PredefinedMarkerSound(id: int)
    ensures PredefinedNameById(id).Some? ==> IsPredefinedId(id)
    ensures IsPredefinedId(-1) && PredefinedNameById(-1).None?
  {
    if PredefinedNameById(id).Some? {
      PredefinedIdsNegative(PredefinedNameById(id).value);
    }
    PredefinedIdTableDomain();
    forall n | n in PredefinedVariableDefaults ensures PredefinedVariableDefaults[n].id != -1 {
      PredefinedDefaultsTotal(n);
    }
  }

  // ---------------------------------------------------------------------
  // Value coercion
  // ---------------------------------------------------------------------

  /**
   * `convertVarValueToType(value, varType)`: the boolean kind compares a
   * string with "true" and takes the truthiness of anything else; the string
   * kind maps every falsy value to "" and calls `toString()` on the rest; the
   * number kind applies `Number(value)`.
   */
  function ConvertVarValueToType(value: JsValue, varType: VariableType, conv: NumberConversions): (r: VarValue)
    ensures KindOf(r) == varType
  {
    match varType
    case Boolean =>
      if value.Str? then BoolValue(value.s == "true")
      else BoolValue(ToBoolean(value))
    case String =>
      if ToBoolean(value) then StrValue(ToStringMethod(value, conv))
      else StrValue("")
    case Number => NumValue(ToNumber(value, conv))
  }

  /** The boolean kind: only the exact string "true" is true; other values keep their truthiness. */
  lemma ConvertToBoolean(value: JsValue, conv: NumberConversions)
    ensures value.Str? ==>
      (ConvertVarValueToType(value, Boolean, conv) == BoolValue(true) <==> value.s == "true")
    ensures !value.Str? ==>
      ConvertVarValueToType(value, Boolean, conv) == BoolValue(value !in Falsy)
  {
  }

  /** The string kind: falsy values give "", strings pass through, `true` gives "true". */
  lemma ConvertToString(value: JsValue, conv: NumberConversions)
    ensures value in Falsy ==> ConvertVarValueToType(value, String, conv) == StrValue("")
    ensures value.Str? ==> ConvertVarValueToType(value, String, conv) == StrValue(value.s)
    ensures value == Bool(true) ==> ConvertVarValueToType(value, String, conv) == StrValue("true")
    ensures PrintsDigits(conv) ==>
      (ConvertVarValueToType(value, String, conv) == StrValue("") <==> value in Falsy)
  {
  }

  /** The number kind: booleans give 1 or 0, null gives 0, undefined gives NaN, numbers pass through. */
  lemma ConvertToNumber(value: JsValue, conv: NumberConversions)
    ensures value == Bool(true) ==> ConvertVarValueToType(value, Number, conv) == NumValue(Finite(1.0))
    ensures value == Bool(false) || value == Null ==>
      ConvertVarValueToType(value, Number, conv) == NumValue(Finite(0.0))
    ensures value == Undefined ==> ConvertVarValueToType(value, Number, conv) == NumValue(NaN)
    ensures value.Num? ==> ConvertVarValueToType(value, Number, conv) == NumValue(value.n)
    ensures value.Str? ==> ConvertVarValueToType(value, Number, conv) == NumValue(conv.parse(value.s))
  {
  }

  /** A value that already has the requested kind comes back unchanged. */
  lemma ConvertFixesOwnKind(x: VarValue, conv: NumberConversions)
    ensures ConvertVarValueToType(AsJs(x), KindOf(x), conv) == x
  {
  }

  /** Converting twice to the same kind is the same as converting once. */
  lemma ConvertIdempotent(value: JsValue, varType: VariableType, conv: NumberConversions)
    ensures var r := ConvertVarValueToType(value, varType, conv);
      ConvertVarValueToType(AsJs(r), varType, conv) == r
  {
  }

  /** The default of each kind is exactly what null converts to. */
  lemma DefaultIsConversionOfNull(varType: VariableType, conv: NumberConversions)
    ensures varType in VariableTypeDefaults
    ensures ConvertVarValueToType(Null, varType, conv) == VariableTypeDefaults[varType]
  {
    var i := match varType case Number => 0 case Boolean => 1 case String => 2;
    FromEntriesLookup(VariableTypeDefaultsEntries, i);
  }

  /** A boolean stored as a string ("true" or "") reads back as the same boolean. */
  lemma BooleanStringRoundTrip(b: bool, conv: NumberConversions)
    ensures var s := ConvertVarValueToType(Bool(b), String, conv);
      ConvertVarValueToType(AsJs(s), Boolean, conv) == BoolValue(b)
  {
  }

  /** Worked cases of the coercion, including the falsy-to-"" quirk of the string kind. */
  lemma ConvertExamples(conv: NumberConversions)
    ensures ConvertVarValueToType(Str("true"), Boolean, conv) == BoolValue(true)
    ensures ConvertVarValueToType(Str("false"), Boolean, conv) == BoolValue(false)
    ensures ConvertVarValueToType(Str("True"), Boolean, conv) == BoolValue(false)
    ensures ConvertVarValueToType(Str("1"), Boolean, conv) == BoolValue(false)
    ensures ConvertVarValueToType(Str("yes"), Boolean, conv) == BoolValue(false)
    ensures ConvertVarValueToType(Num(Finite(0.0)), String, conv) == StrValue("")
    ensures ConvertVarValueToType(Bool(false), String, conv) == StrValue("")
    ensures ConvertVarValueToType(Num(NaN), String, conv) == StrValue("")
    ensures ConvertVarValueToType(Null, String, conv) == StrValue("")
    ensures ConvertVarValueToType(Num(Finite(0.0)), Boolean, conv) == BoolValue(false)
  {
  }
}
