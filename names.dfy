/** The name services the translator calls but which are not part of this
    model (`NameGenerator`), passed in as functions. */
module Names {
  import opened Wrappers

  datatype NameGenerator = NameGenerator(
    /** `NameGenerator.CleanName(name, fallbackPrefix)`; the name may be null. */
    cleanName: (Option<string>, string) -> string,
    /** `NameGenerator.IsValidCSharpName`. */
    isValidCSharpName: string -> bool)

  /** Ordinal `StartsWith`. */
  predicate StartsWith(s: string, prefix: string)
  {
    |prefix| <= |s| && s[..|prefix|] == prefix
  }
}
