/** The clean name of a translated function (`FunctionContext.ExtractCleanName`
    and its local `TryGetSimpleName`): a renamed-symbol override, else a name
    derived from the demangled signature, else a slice of the mangled name. */
module FunctionNames {
  import opened Wrappers
  import opened Names

  /** The parts of a demangled signature that `DemangledNamesParser.ParseFunction`
      reports and the naming uses; each may be null. */
  datatype Parsed = Parsed(
    returnType: Option<string>,
    typeName: Option<string>,
    functionIdentifier: Option<string>,
    functionName: Option<string>)

  /** `ParseFunction`: `None` when it returns false. */
  type Parser = string -> Option<Parsed>

  /** Ordinal `IndexOf(c, from)`: the first position at or after `from`
      holding `c`, or -1. */
  function IndexOf(s: string, c: char, from: nat): (r: int)
    requires from <= |s|
    ensures r == -1 || from <= r < |s|
    ensures r == -1 <==> c !in s[from..]
    ensures r >= 0 ==> s[r] == c && c !in s[from..r]
    decreases |s| - from
  {
    if from == |s| then -1
    else if s[from] == c then
      assert s[from..from] == [];
      from
    else
      var r := IndexOf(s, c, from + 1);
      assert s[from..] == [s[from]] + s[from + 1..];
      assert r >= 0 ==> s[from..r] == [s[from]] + s[from + 1..r];
      r
  }

  /** Where the simple name of an MSVC-mangled name starts: after "??$"
      for a template instance, else after the leading '?'. */
  function SimpleNameStart(name: string): nat
  {
    if StartsWith(name, "??$") then 3 else 1
  }

  /** `TryGetSimpleName`: an MSVC-mangled name ("?name@...") is cut down to
      the text between its prefix and the first '@' after it; other names
      are kept. With no such '@' the slice has a negative end and fails. */
  function TryGetSimpleName(name: string): (r: Result<string>)
    ensures !StartsWith(name, "?") ==> r == Ok(name)
    ensures StartsWith(name, "?") ==>
      SimpleNameStart(name) <= |name| &&
      (r.Err? <==> '@' !in name[SimpleNameStart(name)..])
    ensures r.Err? ==> r.error == ArgumentOutOfRangeException
    ensures StartsWith(name, "?") && r.Ok? ==>
      var start := SimpleNameStart(name);
      start + |r.value| < |name| &&
      name[start..start + |r.value|] == r.value &&
      name[start + |r.value|] == '@' &&
      '@' !in r.value
  {
    if StartsWith(name, "?") then
      var start := SimpleNameStart(name);
      var end := IndexOf(name, '@', start);
      if end < 0 then Err(ArgumentOutOfRangeException) else Ok(name[start..end])
    else
      Ok(name)
  }

  function OrEmpty(s: Option<string>): string
  {
    if s.Some? then s.value else ""
  }

  /** The name chosen from a parsed demangled signature: a constructor,
      a destructor, a scalar deleting destructor, or a plain function. */
  function DemangledCleanName(p: Parsed, names: NameGenerator): string
  {
    if p.returnType.None? && p.functionName == p.typeName then
      names.cleanName(p.typeName, "Type") + "_Constructor"
    else if p.returnType.None? && p.functionName == Some("~" + OrEmpty(p.typeName)) then
      names.cleanName(Some(OrEmpty(p.typeName)), "Type") + "_Destructor"
    else if p.returnType == Some("void *") && p.functionName == Some("`scalar deleting dtor'") then
      names.cleanName(Some(OrEmpty(p.typeName)), "Type") + "_Delete"
    else
      names.cleanName(p.functionIdentifier, "Function")
  }

  /** Whether the demangled name is used: non-empty, different from the
      mangled name, and parsed. */
  predicate UsesDemangled(mangledName: string, demangledName: Option<string>, parse: Parser)
  {
    demangledName.Some? && demangledName.value != "" && demangledName.value != mangledName
    && parse(demangledName.value).Some?
  }

  /** `ExtractCleanName`. */
  function ExtractCleanName(
    mangledName: string, demangledName: Option<string>,
    renamedSymbols: map<string, string>, names: NameGenerator, parse: Parser): Result<string>
  {
    if mangledName in renamedSymbols then
      var result := renamedSymbols[mangledName];
      if !names.isValidCSharpName(result) then Err(ArgumentException) else Ok(result)
    else if UsesDemangled(mangledName, demangledName, parse) then
      Ok(DemangledCleanName(parse(demangledName.value).value, names))
    else
      match TryGetSimpleName(mangledName)
      case Ok(simple) => Ok(names.cleanName(Some(simple), "Function"))
      case Err(e) => Err(e)
  }

  /** A renamed-symbol entry decides alone: the demangled name and the parser
      play no part, and the entry is the result exactly when it is a valid
      identifier. */
  lemma RenamedSymbolWins(
    mangledName: string, d1: Option<string>, d2: Option<string>,
    renamedSymbols: map<string, string>, names: NameGenerator, p1: Parser, p2: Parser)
    requires mangledName in renamedSymbols
    ensures ExtractCleanName(mangledName, d1, renamedSymbols, names, p1)
         == ExtractCleanName(mangledName, d2, renamedSymbols, names, p2)
    ensures ExtractCleanName(mangledName, d1, renamedSymbols, names, p1).Ok?
        <==> names.isValidCSharpName(renamedSymbols[mangledName])
    ensures ExtractCleanName(mangledName, d1, renamedSymbols, names, p1).Ok? ==>
      ExtractCleanName(mangledName, d1, renamedSymbols, names, p1).value == renamedSymbols[mangledName]
  {
  }

  /** The two ways naming fails, and their exception types. */
  lemma CleanNameErrors(
    mangledName: string, demangledName: Option<string>,
    renamedSymbols: map<string, string>, names: NameGenerator, parse: Parser)
    ensures var r := ExtractCleanName(mangledName, demangledName, renamedSymbols, names, parse);
      r.Err? <==>
        (mangledName in renamedSymbols && !names.isValidCSharpName(renamedSymbols[mangledName])) ||
        (mangledName !in renamedSymbols && !UsesDemangled(mangledName, demangledName, parse) &&
         StartsWith(mangledName, "?") && '@' !in mangledName[SimpleNameStart(mangledName)..])
    ensures var r := ExtractCleanName(mangledName, demangledName, renamedSymbols, names, parse);
      r.Err? ==> r.error == (if mangledName in renamedSymbols then ArgumentException else ArgumentOutOfRangeException)
  {
  }

  /** A demangled name that equals the mangled one, or is empty or null, is
      ignored: the name comes from the mangled name alone. */
  lemma UnusableDemangledNameIgnored(
    mangledName: string, renamedSymbols: map<string, string>, names: NameGenerator, parse: Parser)
    requires mangledName !in renamedSymbols
    ensures ExtractCleanName(mangledName, Some(mangledName), renamedSymbols, names, parse)
         == ExtractCleanName(mangledName, None, renamedSymbols, names, parse)
    ensures ExtractCleanName(mangledName, Some(""), renamedSymbols, names, parse)
         == ExtractCleanName(mangledName, None, renamedSymbols, names, parse)
    ensures !StartsWith(mangledName, "?") ==>
      ExtractCleanName(mangledName, None, renamedSymbols, names, parse)
        == Ok(names.cleanName(Some(mangledName), "Function"))
  {
  }

  /** The special-member suffixes, each under its own condition on the parsed
      parts; a constructor test comes first, so a signature with no return
      type and no names at all is named as a constructor. */
  lemma SpecialMemberNames(p: Parsed, names: NameGenerator, typeName: string)
    ensures p.returnType.None? && p.functionName == p.typeName ==>
      DemangledCleanName(p, names) == names.cleanName(p.typeName, "Type") + "_Constructor"
    ensures p == Parsed(None, Some(typeName), p.functionIdentifier, Some("~" + typeName)) ==>
      DemangledCleanName(p, names) == names.cleanName(Some(typeName), "Type") + "_Destructor"
    ensures p == Parsed(None, None, p.functionIdentifier, Some("~")) ==>
      DemangledCleanName(p, names) == names.cleanName(Some(""), "Type") + "_Destructor"
    ensures p.returnType == Some("void *") && p.functionName == Some("`scalar deleting dtor'") ==>
      DemangledCleanName(p, names) == names.cleanName(Some(OrEmpty(p.typeName)), "Type") + "_Delete"
    ensures !(p.returnType.None? && p.functionName == p.typeName) &&
            !(p.returnType.None? && p.functionName == Some("~" + OrEmpty(p.typeName))) &&
            !(p.returnType == Some("void *") && p.functionName == Some("`scalar deleting dtor'")) ==>
      DemangledCleanName(p, names) == names.cleanName(p.functionIdentifier, "Function")
    ensures p == Parsed(None, None, p.functionIdentifier, None) ==>
      DemangledCleanName(p, names) == names.cleanName(None, "Type") + "_Constructor"
  {
    if p == Parsed(None, Some(typeName), p.functionIdentifier, Some("~" + typeName)) {
      assert ("~" + typeName)[0] == '~';
      assert Some("~" + typeName) != Some(typeName) by {
        if "~" + typeName == typeName {
          assert |"~" + typeName| == |typeName| + 1;
        }
      }
    }
    if p == Parsed(None, None, p.functionIdentifier, Some("~")) {
      assert "~" + OrEmpty(p.typeName) == "~";
    }
  }
}
