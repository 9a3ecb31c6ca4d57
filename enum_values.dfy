/** The ordinal-indexed table of serialized enum names: the constants of one enum
    class, a parallel array of compiled tokens, and a lazily built constant-to-token
    map; with the static factories that resolve and compile the tokens. */
module EnumValuesModel {
  import opened EnumTypes
  import opened EnumNaming

  /** Every constant's ordinal indexes into a token sequence of length n. */
  predicate OrdinalsBelow(vs: seq<EnumConstant>, n: nat) {
    forall j :: 0 <= j < |vs| ==> vs[j].ordinal < n
  }

  /** The map internalMap() builds: each constant, in turn, put with the token
      at its ordinal. */
  function MapView(vs: seq<EnumConstant>, ts: seq<SerializableString>): (m: map<EnumConstant, SerializableString>)
    requires OrdinalsBelow(vs, |ts|)
    ensures |m| <= |vs|
  {
    if vs == [] then map[]
    else
      var en := vs[|vs| - 1];
      MapView(vs[..|vs| - 1], ts)[en := ts[en.ordinal]]
  }

  /** The map pairs constant i with token i, and has no other keys. */
  lemma {:induction false} MapViewPairs(vs: seq<EnumConstant>, ts: seq<SerializableString>)
    requires OrdinalAligned(vs) && |vs| <= |ts|
    ensures forall i :: 0 <= i < |vs| ==> vs[i] in MapView(vs, ts) && MapView(vs, ts)[vs[i]] == ts[i]
    ensures forall c :: c in MapView(vs, ts) ==> c in vs
  {
    if vs != [] {
      var pre := vs[..|vs| - 1];
      MapViewPairs(pre, ts);
      forall i | 0 <= i < |vs| - 1
        ensures vs[i] != vs[|vs| - 1]
      {
        assert vs[i].ordinal == i;
      }
    }
  }

  /** One entry per constant: constants are told apart by their ordinals. */
  lemma {:induction false} MapViewSize(vs: seq<EnumConstant>, ts: seq<SerializableString>)
    requires OrdinalAligned(vs) && |vs| <= |ts|
    ensures |MapView(vs, ts)| == |vs|
  {
    if vs != [] {
      var pre := vs[..|vs| - 1];
      var en := vs[|vs| - 1];
      MapViewSize(pre, ts);
      MapViewPairs(pre, ts);
      assert en !in MapView(pre, ts);
    }
  }

  class EnumValues {
    const enumClass: EnumClass
    const values: seq<EnumConstant>
    const textual: array<SerializableString>
    var asMap: Option<map<EnumConstant, SerializableString>>

    /** The constants are the class's own, ordinal-aligned, one token per constant,
        and a cached map, once built, is the map of the current tokens. */
    ghost predicate Valid()
      reads this, textual
    {
      enumClass.constants == Some(values) &&
      OrdinalAligned(values) &&
      textual.Length == |values| &&
      (asMap.Some? ==> |values| > 0 && asMap.value == MapView(values, textual[..]))
    }

    /** Takes the constants from the class and keeps the given token array. */
    constructor (enumClass: EnumClass, textual: array<SerializableString>)
      requires WellFormedClass(enumClass) && enumClass.constants.Some?
      requires textual.Length == |enumClass.constants.value|
      ensures Valid()
      ensures this.enumClass == enumClass && this.textual == textual
      ensures values == enumClass.constants.value && asMap == None
    {
      this.enumClass := enumClass;
      this.values := enumClass.constants.value;
      this.textual := textual;
      this.asMap := None;
    }

    /** Chooses the toString() path when WRITE_ENUMS_USING_TO_STRING is on, the
        declared-name path otherwise. */
    static method Construct(config: MapperConfig, annotatedClass: AnnotatedClass) returns (r: Result<EnumValues>)
      requires WellFormedAnnotated(annotatedClass)
      ensures annotatedClass.rawType.constants.None? ==>
        r == Failure(IllegalArgument(NoConstantsMessage(annotatedClass.rawType)))
      ensures (annotatedClass.rawType.constants.Some? && !config.writeEnumsUsingToString &&
               !config.hasAnnotationIntrospector) ==> r == Failure(NullPointer)
      ensures r.Success? <==>
        annotatedClass.rawType.constants.Some? &&
        (config.writeEnumsUsingToString || config.hasAnnotationIntrospector)
      ensures r.Success? ==>
        fresh(r.value) && fresh(r.value.textual) && r.value.Valid() && r.value.asMap == None &&
        r.value.enumClass == annotatedClass.rawType &&
        r.value.textual[..] == CompileAll(config.compileString,
          if config.writeEnumsUsingToString
          then NamesFromToString(ExplicitNames(config, annotatedClass), r.value.values, config.writeEnumsToLowercase)
          else NamesFromName(annotatedClass.enumValueNames, r.value.values, config.writeEnumsToLowercase))
    {
      if config.writeEnumsUsingToString {
        r := ConstructFromToString(config, annotatedClass);
        return;
      }
      r := ConstructFromName(config, annotatedClass);
    }

    /** Declared-name path: explicit name if any, else name(), optionally lowercased,
        compiled and stored at the constant's ordinal. */
    static method ConstructFromName(config: MapperConfig, annotatedClass: AnnotatedClass) returns (r: Result<EnumValues>)
      requires WellFormedAnnotated(annotatedClass)
      ensures annotatedClass.rawType.constants.None? ==>
        r == Failure(IllegalArgument(NoConstantsMessage(annotatedClass.rawType)))
      ensures annotatedClass.rawType.constants.Some? && !config.hasAnnotationIntrospector ==>
        r == Failure(NullPointer)
      ensures r.Success? <==> annotatedClass.rawType.constants.Some? && config.hasAnnotationIntrospector
      ensures r.Success? ==>
        fresh(r.value) && fresh(r.value.textual) && r.value.Valid() && r.value.asMap == None &&
        r.value.enumClass == annotatedClass.rawType &&
        r.value.textual[..] == CompileAll(config.compileString,
          NamesFromName(annotatedClass.enumValueNames, r.value.values, config.writeEnumsToLowercase))
    {
      var useLowerCase := config.writeEnumsToLowercase;
      var enumCls := annotatedClass.rawType;
      var found := EnumConstants(enumCls);
      if found.Failure? {
        return Failure(found.error);
      }
      var enumConstants := found.value;
      if !config.hasAnnotationIntrospector {
        return Failure(NullPointer);
      }
      var names := annotatedClass.enumValueNames;
      ghost var expected := NamesFromName(names, enumConstants, useLowerCase);

      var textual := new SerializableString[|enumConstants|];
      var i, len := 0, |enumConstants|;
      while i < len
        invariant 0 <= i <= len == textual.Length
        invariant forall k :: 0 <= k < i ==> textual[k] == config.compileString(expected[k])
      {
        var enumValue := enumConstants[i];
        var name: string;
        if names[i].None? {
          name := enumValue.name;
        } else {
          name := names[i].value;
        }
        if useLowerCase {
          name := ToLowerCase(name);
        }
        textual[enumValue.ordinal] := config.compileString(name);
        i := i + 1;
      }
      var table := ConstructFromTextual(enumCls, textual);
      return Success(table);
    }

    /** toString() path: explicit name if any, else toString(), optionally lowercased,
        compiled and stored at index i; without an introspector every constant falls
        back to toString(). */
    static method ConstructFromToString(config: MapperConfig, annotatedClass: AnnotatedClass) returns (r: Result<EnumValues>)
      requires WellFormedAnnotated(annotatedClass)
      ensures annotatedClass.rawType.constants.None? ==>
        r == Failure(IllegalArgument(NoConstantsMessage(annotatedClass.rawType)))
      ensures r.Success? <==> annotatedClass.rawType.constants.Some?
      ensures r.Success? ==>
        fresh(r.value) && fresh(r.value.textual) && r.value.Valid() && r.value.asMap == None &&
        r.value.enumClass == annotatedClass.rawType &&
        r.value.textual[..] == CompileAll(config.compileString,
          NamesFromToString(ExplicitNames(config, annotatedClass), r.value.values, config.writeEnumsToLowercase))
    {
      var useLowerCase := config.writeEnumsToLowercase;
      var enumCls := annotatedClass.rawType;
      var found := EnumConstants(enumCls);
      if found.Failure? {
        return Failure(found.error);
      }
      var enumConstants := found.value;
      var names := NoExplicitNames(|enumConstants|);
      if config.hasAnnotationIntrospector {
        names := annotatedClass.enumValueNames;
      }
      ghost var expected := NamesFromToString(names, enumConstants, useLowerCase);

      var textual := new SerializableString[|enumConstants|];
      var i := 0;
      while i < |enumConstants|
        invariant 0 <= i <= |enumConstants| == textual.Length
        invariant forall k :: 0 <= k < i ==> textual[k] == config.compileString(expected[k])
      {
        var name: string;
        if names[i].None? {
          var en := enumConstants[i];
          name := en.toStr;
        } else {
          name := names[i].value;
        }
        if useLowerCase {
          name := ToLowerCase(name);
        }
        textual[i] := config.compileString(name);
        i := i + 1;
      }
      var table := ConstructFromTextual(enumCls, textual);
      return Success(table);
    }

    /** Naming-strategy path: the strategy applied to each name(), in ordinal order,
        with no explicit names and no lowercasing. */
    static method ConstructUsingEnumNamingStrategy(config: MapperConfig, enumClass: EnumClass, namingStrategy: string -> string)
      returns (r: Result<EnumValues>)
      requires WellFormedClass(enumClass)
      ensures enumClass.constants.None? ==>
        r == Failure(IllegalArgument("Cannot determine enum constants for Class " + enumClass.className))
      ensures r.Success? <==> enumClass.constants.Some?
      ensures r.Success? ==>
        fresh(r.value) && fresh(r.value.textual) && r.value.Valid() && r.value.asMap == None &&
        r.value.enumClass == enumClass &&
        r.value.textual[..] == CompileAll(config.compileString, NamesUsingStrategy(namingStrategy, r.value.values))
    {
      if enumClass.constants.None? {
        return Failure(IllegalArgument("Cannot determine enum constants for Class " + enumClass.className));
      }
      var values := enumClass.constants.value;
      var external: seq<string> := [];
      for i := 0 to |values|
        invariant external == NamesUsingStrategy(namingStrategy, values[..i])
      {
        external := external + [namingStrategy(values[i].name)];
      }
      assert values[..|values|] == values;
      var table := ConstructFromExternalValues(config, enumClass, external);
      return Success(table);
    }

    /** Explicit-list path: each given string compiled as it is, position by position. */
    static method ConstructFromExternalValues(config: MapperConfig, enumClass: EnumClass, externalValues: seq<string>)
      returns (r: EnumValues)
      requires WellFormedClass(enumClass) && enumClass.constants.Some?
      requires |externalValues| == |enumClass.constants.value|
      ensures fresh(r) && fresh(r.textual) && r.Valid() && r.asMap == None
      ensures r.enumClass == enumClass && r.values == enumClass.constants.value
      ensures r.textual[..] == CompileAll(config.compileString, externalValues)
    {
      var len := |externalValues|;
      var textual := new SerializableString[len];
      for i := 0 to len
        invariant forall k :: 0 <= k < i ==> textual[k] == config.compileString(externalValues[k])
      {
        textual[i] := config.compileString(externalValues[i]);
      }
      r := ConstructFromTextual(enumClass, textual);
    }

    /** The lowest-level factory: keeps the given tokens as they are (the array itself). */
    static method ConstructFromTextual(enumClass: EnumClass, externalValues: array<SerializableString>) returns (r: EnumValues)
      requires WellFormedClass(enumClass) && enumClass.constants.Some?
      requires externalValues.Length == |enumClass.constants.value|
      ensures fresh(r) && r.Valid() && r.asMap == None
      ensures r.enumClass == enumClass && r.values == enumClass.constants.value
      ensures r.textual == externalValues
    {
      r := new EnumValues(enumClass, externalValues);
    }

    /** The token of a constant of this class: the one at the constant's own
        position, the same one the cached map holds for it. */
    function SerializedValueFor(key: EnumConstant): (r: SerializableString)
      reads this, textual
      requires Valid() && key in values
      ensures forall i :: 0 <= i < |values| && values[i] == key ==> r == textual[i]
      ensures asMap.Some? ==> key in asMap.value && asMap.value[key] == r
    {
      MapViewPairs(values, textual[..]);
      textual[key.ordinal]
    }

    /** The tokens in ordinal order; token i is the one looked up for constant i. */
    function Values(): (r: seq<SerializableString>)
      reads this, textual
      requires Valid()
      ensures |r| == |Enums()|
      ensures forall i :: 0 <= i < |r| ==> r[i] == SerializedValueFor(Enums()[i])
    {
      textual[..]
    }

    /** The constants in ordinal order. */
    function Enums(): (r: seq<EnumConstant>)
      reads this, textual
      requires Valid()
      ensures enumClass.constants == Some(r)
      ensures forall i :: 0 <= i < |r| ==> r[i].ordinal == i
    {
      values
    }

    /** The enum class the table describes; its constants are those of Enums(). */
    function GetEnumClass(): (r: EnumClass)
      reads this, textual
      requires Valid()
      ensures r.constants == Some(Enums())
    {
      enumClass
    }

    /** The constant-to-token map, built on the first call and cached in asMap;
        a later call returns the cached map. For an enum without constants the
        EnumMap copy of the empty map throws and nothing is cached. */
    method InternalMap() returns (r: Result<map<EnumConstant, SerializableString>>)
      requires Valid()
      modifies this`asMap
      ensures Valid()
      ensures r.Failure? <==> |values| == 0
      ensures r.Failure? ==> r.error == IllegalArgument(EmptyMapMessage()) && asMap == old(asMap) == None
      ensures r.Success? ==> asMap == Some(r.value)
      ensures r.Success? && old(asMap).Some? ==> r.value == old(asMap).value
      ensures r.Success? ==> forall i :: 0 <= i < |values| ==> values[i] in r.value && r.value[values[i]] == textual[i]
      ensures r.Success? ==> forall c :: c in r.value ==> c in values
      ensures r.Success? ==> |r.value| == |values|
    {
      var cached := asMap;
      if cached.None? {
        var m: map<EnumConstant, SerializableString> := map[];
        for j := 0 to |values|
          invariant m == MapView(values[..j], textual[..])
        {
          var en := values[j];
          assert values[..j + 1][..j] == values[..j];
          m := m[en := textual[en.ordinal]];
        }
        assert values[..|values|] == values;
        MapViewSize(values, textual[..]);
        if |m| == 0 {
          return Failure(IllegalArgument(EmptyMapMessage()));
        }
        asMap := Some(m);
        cached := asMap;
      }
      MapViewPairs(values, textual[..]);
      MapViewSize(values, textual[..]);
      r := Success(cached.value);
    }
  }

  /** The message of the exception EnumMap's copy constructor throws for an
      empty map that is not itself an EnumMap. */
  function EmptyMapMessage(): string {
    "Specified map is empty"
  }

  /** The names findEnumValues leaves for the toString() path: the class's explicit
      names when there is an introspector, none at all otherwise. */
  function ExplicitNames(config: MapperConfig, annotatedClass: AnnotatedClass): (r: seq<Option<string>>)
    requires WellFormedAnnotated(annotatedClass) && annotatedClass.rawType.constants.Some?
    ensures |r| == |annotatedClass.rawType.constants.value|
    ensures !config.hasAnnotationIntrospector ==> forall i :: 0 <= i < |r| ==> r[i] == None
  {
    if config.hasAnnotationIntrospector then annotatedClass.enumValueNames
    else NoExplicitNames(|annotatedClass.rawType.constants.value|)
  }

  function NoConstantsMessage(cls: EnumClass): string {
    "No enum constants for class " + cls.className
  }

  /** The constants of an enum class, or the exception for a class reflection
      reports none for. */
  function EnumConstants(cls: EnumClass): (r: Result<seq<EnumConstant>>)
    ensures r.Success? <==> cls.constants.Some?
    ensures r.Success? ==> r.value == cls.constants.value
    ensures r.Failure? ==> r.error == IllegalArgument(NoConstantsMessage(cls))
  {
    if cls.constants.None? then Failure(IllegalArgument(NoConstantsMessage(cls)))
    else Success(cls.constants.value)
  }
}
