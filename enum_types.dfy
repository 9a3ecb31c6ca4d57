/** Values the enum-serialization helper works on: enum constants and classes as
    reflection reports them, the configuration it reads, the exceptions it throws,
    and the string lowercasing it applies. */
module EnumTypes {

  datatype Option<+T> = None | Some(value: T)

  /** The exceptions the factory methods can end in. */
  datatype Error =
    | IllegalArgument(message: string)   // IllegalArgumentException with its message
    | NullPointer                        // a null AnnotationIntrospector dereferenced

  datatype Result<+T> = Success(value: T) | Failure(error: Error)

  /** An enum constant: its declared name(), what its toString() returns, and its ordinal(). */
  datatype EnumConstant = EnumConstant(name: string, toStr: string, ordinal: nat)

  /** A Class<Enum<?>>: its name (for error messages) and what reflection returns for
      its constants; None stands for the null that getEnumConstants() gives back
      when the class is not an enum type. */
  datatype EnumClass = EnumClass(className: string, constants: Option<seq<EnumConstant>>)

  /** Constant i of the array sits at ordinal i, as the JVM guarantees for getEnumConstants(). */
  predicate OrdinalAligned(cs: seq<EnumConstant>) {
    forall i :: 0 <= i < |cs| ==> cs[i].ordinal == i
  }

  predicate WellFormedClass(cls: EnumClass) {
    cls.constants.Some? ==> OrdinalAligned(cls.constants.value)
  }

  /** An annotated enum class: its raw type and the explicit names that
      AnnotationIntrospector.findEnumValues reports for its constants,
      index by index, None where a constant has no explicit name. */
  datatype AnnotatedClass = AnnotatedClass(rawType: EnumClass, enumValueNames: seq<Option<string>>)

  /** findEnumValues answers one slot per constant. */
  predicate WellFormedAnnotated(ac: AnnotatedClass) {
    WellFormedClass(ac.rawType) &&
    (ac.rawType.constants.Some? ==> |ac.enumValueNames| == |ac.rawType.constants.value|)
  }

  /** A compiled token, as the token compiler produces it from a plain string. */
  datatype SerializableString = SerializableString(value: string)

  /** The parts of the mapper configuration the helper consults. */
  datatype MapperConfig = MapperConfig(
    writeEnumsUsingToString: bool,   // SerializationFeature.WRITE_ENUMS_USING_TO_STRING
    writeEnumsToLowercase: bool,     // EnumFeature.WRITE_ENUMS_TO_LOWERCASE
    hasAnnotationIntrospector: bool, // getAnnotationIntrospector() != null
    compileString: string -> SerializableString)

  /** Lowercasing of one character, restricted to ASCII letters. */
  function LowerChar(c: char): char {
    if 'A' <= c <= 'Z' then (c as int - 'A' as int + 'a' as int) as char else c
  }

  /** String.toLowerCase(), over ASCII. */
  function ToLowerCase(s: string): (r: string)
    ensures |r| == |s|
  {
    if s == [] then [] else [LowerChar(s[0])] + ToLowerCase(s[1..])
  }

  /** Each character is lowercased where it stands. */
  lemma {:induction false} ToLowerCaseAt(s: string, i: nat)
    requires i < |s|
    ensures ToLowerCase(s)[i] == LowerChar(s[i])
  {
    if i > 0 {
      ToLowerCaseAt(s[1..], i - 1);
    }
  }

  /** Lowercasing twice is lowercasing once. */
  lemma {:induction false} ToLowerCaseIdempotent(s: string)
    ensures ToLowerCase(ToLowerCase(s)) == ToLowerCase(s)
  {
    if s != [] {
      ToLowerCaseIdempotent(s[1..]);
      assert ToLowerCase(s)[1..] == ToLowerCase(s[1..]);
    }
  }
}
