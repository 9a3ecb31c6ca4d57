/** Which external name each enum constant gets, path by path, stated as functions
    on the constants in ordinal order. The factory methods of EnumValues are proved
    to fill their token arrays with exactly these names, compiled. */
module EnumNaming {
  import opened EnumTypes

  /** An explicit name when there is one (any non-null string, the empty one
      included), otherwise the fallback; then lowercased when the flag is set. */
  function DefaultedName(explicit: Option<string>, fallback: string, lowercase: bool): (r: string)
    ensures !lowercase ==> r == (if explicit.Some? then explicit.value else fallback)
    ensures lowercase ==> r == ToLowerCase(if explicit.Some? then explicit.value else fallback)
    ensures lowercase ==> ToLowerCase(r) == r
  {
    var name := if explicit.Some? then explicit.value else fallback;
    ToLowerCaseIdempotent(name);
    if lowercase then ToLowerCase(name) else name
  }

  /** Names of the declared-name path: explicit name, else name(). */
  function NamesFromName(explicitNames: seq<Option<string>>, constants: seq<EnumConstant>, lowercase: bool): (r: seq<string>)
    requires |explicitNames| == |constants|
    ensures |r| == |constants|
  {
    seq(|constants|, i requires 0 <= i < |constants| => DefaultedName(explicitNames[i], constants[i].name, lowercase))
  }

  /** Names of the toString() path: explicit name, else toString(). */
  function NamesFromToString(explicitNames: seq<Option<string>>, constants: seq<EnumConstant>, lowercase: bool): (r: seq<string>)
    requires |explicitNames| == |constants|
    ensures |r| == |constants|
  {
    seq(|constants|, i requires 0 <= i < |constants| => DefaultedName(explicitNames[i], constants[i].toStr, lowercase))
  }

  /** What an absent introspector leaves in the names array: null everywhere. */
  function NoExplicitNames(n: nat): (r: seq<Option<string>>)
    ensures |r| == n
  {
    seq(n, _ => None)
  }

  /** Names of the naming-strategy path: the strategy applied to name(), nothing else. */
  function NamesUsingStrategy(strategy: string -> string, constants: seq<EnumConstant>): (r: seq<string>)
    ensures |r| == |constants|
  {
    seq(|constants|, i requires 0 <= i < |constants| => strategy(constants[i].name))
  }

  /** Every name lowercased. */
  function LowerAll(names: seq<string>): (r: seq<string>)
    ensures |r| == |names|
  {
    seq(|names|, i requires 0 <= i < |names| => ToLowerCase(names[i]))
  }

  /** Every name compiled into a token, position by position. */
  function CompileAll(compile: string -> SerializableString, names: seq<string>): (r: seq<SerializableString>)
    ensures |r| == |names|
  {
    seq(|names|, i requires 0 <= i < |names| => compile(names[i]))
  }

  /** An explicit name decides the constant's name on both annotated paths,
      whatever the constant's name() and toString() are. */
  lemma OverrideWins(explicitNames: seq<Option<string>>, constants: seq<EnumConstant>, lowercase: bool, i: nat)
    requires |explicitNames| == |constants| && i < |constants|
    requires explicitNames[i].Some?
    ensures NamesFromName(explicitNames, constants, lowercase)[i]
         == NamesFromToString(explicitNames, constants, lowercase)[i]
         == (if lowercase then ToLowerCase(explicitNames[i].value) else explicitNames[i].value)
  {
  }

  /** Only null counts as "no explicit name": an empty explicit name is used as it is. */
  lemma EmptyOverrideWins(explicitNames: seq<Option<string>>, constants: seq<EnumConstant>, lowercase: bool, i: nat)
    requires |explicitNames| == |constants| && i < |constants|
    requires explicitNames[i] == Some("")
    ensures NamesFromName(explicitNames, constants, lowercase)[i] == ""
    ensures NamesFromToString(explicitNames, constants, lowercase)[i] == ""
  {
  }

  /** Without an explicit name, the declared-name path falls back to name() and
      the toString() path to toString(). */
  lemma DefaultWithoutOverride(explicitNames: seq<Option<string>>, constants: seq<EnumConstant>, lowercase: bool, i: nat)
    requires |explicitNames| == |constants| && i < |constants|
    requires explicitNames[i].None?
    ensures NamesFromName(explicitNames, constants, lowercase)[i]
         == (if lowercase then ToLowerCase(constants[i].name) else constants[i].name)
    ensures NamesFromToString(explicitNames, constants, lowercase)[i]
         == (if lowercase then ToLowerCase(constants[i].toStr) else constants[i].toStr)
  {
  }

  /** The lowercase flag only post-processes the chosen names: with it on, the names
      are those of the flag-off run, lowercased; with it off, they are unchanged. */
  lemma LowercaseAppliesToChosenName(explicitNames: seq<Option<string>>, constants: seq<EnumConstant>)
    requires |explicitNames| == |constants|
    ensures NamesFromName(explicitNames, constants, true) == LowerAll(NamesFromName(explicitNames, constants, false))
    ensures NamesFromToString(explicitNames, constants, true) == LowerAll(NamesFromToString(explicitNames, constants, false))
  {
  }

  /** With the lowercase flag on, every produced name is already lowercase:
      lowercasing the result again changes nothing. */
  lemma LowercasedNamesAreStable(explicitNames: seq<Option<string>>, constants: seq<EnumConstant>)
    requires |explicitNames| == |constants|
    ensures LowerAll(NamesFromName(explicitNames, constants, true)) == NamesFromName(explicitNames, constants, true)
    ensures LowerAll(NamesFromToString(explicitNames, constants, true)) == NamesFromToString(explicitNames, constants, true)
  {
    forall i | 0 <= i < |constants|
      ensures ToLowerCase(NamesFromName(explicitNames, constants, true)[i]) == NamesFromName(explicitNames, constants, true)[i]
      ensures ToLowerCase(NamesFromToString(explicitNames, constants, true)[i]) == NamesFromToString(explicitNames, constants, true)[i]
    {
      var chosen := if explicitNames[i].Some? then explicitNames[i].value else constants[i].name;
      ToLowerCaseIdempotent(chosen);
      var chosenStr := if explicitNames[i].Some? then explicitNames[i].value else constants[i].toStr;
      ToLowerCaseIdempotent(chosenStr);
    }
  }

  /** For constants whose toString() is their name() (Java's default), the two
      annotated paths produce the same names. */
  lemma ToStringPathMatchesNamePath(explicitNames: seq<Option<string>>, constants: seq<EnumConstant>, lowercase: bool)
    requires |explicitNames| == |constants|
    requires forall i :: 0 <= i < |constants| ==> constants[i].toStr == constants[i].name
    ensures NamesFromToString(explicitNames, constants, lowercase) == NamesFromName(explicitNames, constants, lowercase)
  {
  }

  /** The identity strategy gives what the declared-name path gives with no explicit
      names and the lowercase flag off: the strategy path neither consults explicit
      names nor lowercases. */
  lemma IdentityStrategyIsPlainNamePath(strategy: string -> string, constants: seq<EnumConstant>)
    requires forall s :: strategy(s) == s
    ensures NamesUsingStrategy(strategy, constants) == NamesFromName(NoExplicitNames(|constants|), constants, false)
  {
  }

  /** Three constants whose toString() is their name. */
  function Colors(): (cs: seq<EnumConstant>)
    ensures OrdinalAligned(cs)
  {
    [EnumConstant("RED", "RED", 0), EnumConstant("GREEN", "GREEN", 1), EnumConstant("BLUE", "BLUE", 2)]
  }

  /** Declared-name path, no explicit names, lowercase flag on. */
  lemma ColorsLowercased()
    ensures NamesFromName(NoExplicitNames(3), Colors(), true) == ["red", "green", "blue"]
  {
    assert ToLowerCase("RED") == "red";
    assert ToLowerCase("GREEN") == "green";
    assert ToLowerCase("BLUE") == "blue";
  }

  /** A sample naming strategy: the name written backwards. */
  function Reverse(s: string): string {
    if s == [] then [] else Reverse(s[1..]) + [s[0]]
  }

  /** Naming-strategy path with the reversing strategy: its output is used unchanged. */
  lemma ColorsReversed()
    ensures NamesUsingStrategy(Reverse, Colors()) == ["DER", "NEERG", "EULB"]
  {
    assert Reverse("RED") == "DER";
    assert Reverse("GREEN") == "NEERG";
    assert Reverse("BLUE") == "EULB";
  }
}
