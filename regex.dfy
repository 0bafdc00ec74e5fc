/**
 * The regular-expression engine the check relies on, kept abstract.
 * Its syntax and matching semantics belong to a foreign library; the model
 * only needs to know which patterns compile and which strings a compiled
 * pattern accepts, so both are parameters of every operation that uses them.
 */
module Regex {
  import opened Wrappers

  /** `compiles(p)`: the pattern `p` is accepted by the compiler;
      `matches(p, s)`: the compiled form of `p` finds a match in `s`. */
  datatype Engine = Engine(compiles: string -> bool, matches: (string, string) -> bool)

  /** A compiled pattern. It remembers the pattern it was compiled from. */
  datatype Matcher = Matcher(pattern: string)

  /** Compiling a pattern: a matcher, or nothing when the pattern is invalid. */
  function Compile(re: Engine, pattern: string): Option<Matcher>
  {
    if re.compiles(pattern) then Some(Matcher(pattern)) else None
  }

  /** Testing a string against a compiled pattern. */
  predicate MatchString(re: Engine, m: Matcher, s: string)
  {
    re.matches(m.pattern, s)
  }
}
