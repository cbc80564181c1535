/** A named aggregate of the module (`StructContext`): its mangled name,
    the clean name derived from it, and the display name kept on the
    generated type definition. */
module StructContexts {
  import opened Wrappers
  import opened Names

  /** `RemovePrefix`: strips `prefix` once when `name` starts with it. */
  function RemovePrefix(name: string, prefix: string): (r: string)
    ensures StartsWith(name, prefix) ==> prefix + r == name
    ensures !StartsWith(name, prefix) ==> r == name
    ensures |r| <= |name| && r == name[|name| - |r|..]
  {
    if StartsWith(name, prefix) then
      assert name == prefix + name[|prefix|..];
      name[|prefix|..]
    else name
  }

  /** The three tag prefixes, removed in this fixed order. */
  function StripTagPrefixes(name: string): (r: string)
    ensures |r| <= |name| && r == name[|name| - |r|..]
    ensures Untagged(name) ==> r == name
  {
    RemovePrefix(RemovePrefix(RemovePrefix(name, "class."), "struct."), "union.")
  }

  /** `ExtractCleanName`: the stripped name, sanitized with fallback "Struct". */
  function ExtractCleanName(name: string, names: NameGenerator): (r: string)
    ensures Untagged(name) ==> r == names.cleanName(Some(name), "Struct")
  {
    names.cleanName(Some(StripTagPrefixes(name)), "Struct")
  }

  /** A name that starts with none of the three tags. */
  predicate Untagged(x: string)
  {
    !StartsWith(x, "class.") && !StartsWith(x, "struct.") && !StartsWith(x, "union.")
  }

  lemma RemoveGivenPrefix(prefix: string, x: string)
    ensures RemovePrefix(prefix + x, prefix) == x
  {
    assert (prefix + x)[..|prefix|] == prefix;
    assert (prefix + x)[|prefix|..] == x;
  }

  lemma FirstCharDiffers(s: string, prefix: string)
    requires |s| > 0 && |prefix| > 0 && s[0] != prefix[0]
    ensures !StartsWith(s, prefix) && RemovePrefix(s, prefix) == s
  {
    if |prefix| <= |s| {
      assert s[..|prefix|][0] == s[0];
    }
  }

  /** Any one tag in front of an untagged name is removed, leaving the name. */
  lemma OneTagStripped(tag: string, x: string)
    requires tag in {"class.", "struct.", "union."}
    requires Untagged(x)
    ensures StripTagPrefixes(tag + x) == x
  {
    RemoveGivenPrefix(tag, x);
    assert (tag + x)[0] == tag[0];
    if tag == "struct." {
      FirstCharDiffers(tag + x, "class.");
    } else if tag == "union." {
      FirstCharDiffers(tag + x, "class.");
      FirstCharDiffers(tag + x, "struct.");
    }
  }

  /** So "class.X", "struct.X" and "union.X" share the clean name of X. */
  lemma TagsShareCleanName(x: string, names: NameGenerator)
    requires Untagged(x)
    ensures ExtractCleanName("class." + x, names) == names.cleanName(Some(x), "Struct")
    ensures ExtractCleanName("struct." + x, names) == names.cleanName(Some(x), "Struct")
    ensures ExtractCleanName("union." + x, names) == names.cleanName(Some(x), "Struct")
  {
    OneTagStripped("class.", x);
    OneTagStripped("struct.", x);
    OneTagStripped("union.", x);
  }

  /** The order matters: "class.struct.X" loses both tags, "struct.class.X"
      keeps "class.". */
  lemma TagOrder(x: string)
    requires Untagged(x)
    ensures StripTagPrefixes("class." + ("struct." + x)) == x
    ensures StripTagPrefixes("struct." + ("class." + x)) == "class." + x
  {
    RemoveGivenPrefix("class.", "struct." + x);
    OneTagStripped("struct.", x);
    assert ("struct." + ("class." + x))[0] == 's';
    FirstCharDiffers("struct." + ("class." + x), "class.");
    RemoveGivenPrefix("struct.", "class." + x);
    assert ("class." + x)[0] == 'c';
    FirstCharDiffers("class." + x, "union.");
  }

  /** The generated record type; its name may be null. */
  class TypeDefinition {
    var name: Option<string>

    constructor (name: Option<string>)
      ensures this.name == name
    {
      this.name := name;
    }
  }

  class StructContext {
    const definition: TypeDefinition
    /** The frontend's struct name (`Type.StructName`). */
    const structName: string
    /** Computed once, at construction. */
    const cleanName: string

    constructor (definition: TypeDefinition, structName: string, names: NameGenerator)
      ensures this.definition == definition && this.structName == structName
      ensures cleanName == ExtractCleanName(structName, names)
    {
      this.definition := definition;
      this.structName := structName;
      cleanName := ExtractCleanName(structName, names);
    }

    function MangledName(): (r: string)
      ensures r == structName
    {
      structName
    }

    /** Aggregates carry no demangled name. */
    function DemangledName(): (r: Option<string>)
      ensures r == None
    {
      None
    }

    /** The `Name` getter: the definition's name, or "" when it is null. */
    function Name(): (r: string)
      reads definition
      ensures definition.name.None? ==> r == ""
      ensures definition.name.Some? ==> r == definition.name.value
    {
      match definition.name
      case None => ""
      case Some(n) => n
    }

    /** The `Name` setter writes through to the definition. */
    method SetName(value: string)
      modifies definition
      ensures definition.name == Some(value) && Name() == value
    {
      definition.name := Some(value);
    }
  }
}
