/**
 * Compiling name-to-pattern filters and testing a property map against them.
 */
module Filters {
  import opened Wrappers
  import opened Regex

  /** The pattern that failed to compile. */
  datatype CompileError = CompileError(pattern: string)

  /** The value a map holds for `name`, or the empty string when it has none. */
  function Lookup(values: map<string, string>, name: string): string
  {
    if name in values then values[name] else ""
  }

  /** Every pattern of `exps` compiles. */
  predicate AllCompile(re: Engine, exps: map<string, string>)
  {
    forall name :: name in exps ==> re.compiles(exps[name])
  }

  /** The filter set that a successful compilation of `exps` yields. */
  function Compiled(exps: map<string, string>): map<string, Matcher>
  {
    map name | name in exps :: Matcher(exps[name])
  }

  /** Every filter accepts the value the map holds for its name
      (the empty string for a name the map lacks). */
  predicate Holds(re: Engine, values: map<string, string>, filters: map<string, Matcher>)
  {
    forall name :: name in filters ==> MatchString(re, filters[name], Lookup(values, name))
  }

  /**
   * Compiles every pattern of `exps`, visiting the names in no fixed order.
   * Either all of them compile and the result holds one matcher per name,
   * or the first pattern that fails is reported and no map is returned.
   */
  method CompileFilters(re: Engine, exps: map<string, string>)
    returns (r: Result<map<string, Matcher>, CompileError>)
    ensures r.Success? <==> AllCompile(re, exps)
    ensures r.Success? ==> r.value.Keys == exps.Keys
    ensures r.Success? ==> forall name :: name in exps ==> r.value[name] == Matcher(exps[name])
    ensures r.Failure? ==> r.error.pattern in exps.Values && !re.compiles(r.error.pattern)
  {
    var result: map<string, Matcher> := map[];
    var pending := exps.Keys;
    while pending != {}
      invariant pending <= exps.Keys
      invariant result.Keys == exps.Keys - pending
      invariant forall name :: name in result ==> result[name] == Matcher(exps[name]) && re.compiles(exps[name])
      decreases pending
    {
      var name :| name in pending;
      var xp := Compile(re, exps[name]);
      if xp.None? {
        return Failure(CompileError(exps[name]));
      }
      result := result[name := xp.value];
      pending := pending - {name};
    }
    return Success(result);
  }

  /**
   * Tests every filter against `values`, in no fixed order, stopping at the
   * first one that rejects. On a rejection it reports the filter's name and
   * the value that was tested.
   */
  method MatchProperty(re: Engine, values: map<string, string>, filters: map<string, Matcher>)
    returns (result: bool, name: Option<string>, value: Option<string>)
    ensures result <==> Holds(re, values, filters)
    ensures result ==> name.None? && value.None?
    ensures !result ==> name.Some? && value.Some? && name.value in filters
    ensures !result ==> value.value == Lookup(values, name.value)
    ensures !result ==> !MatchString(re, filters[name.value], value.value)
  {
    result := true;
    var pending := filters.Keys;
    while pending != {}
      invariant pending <= filters.Keys
      invariant forall n :: n in filters && n !in pending ==> MatchString(re, filters[n], Lookup(values, n))
      decreases pending
    {
      var n :| n in pending;
      var v := "";
      if n in values {
        v := values[n];
        result := MatchString(re, filters[n], v);
      } else {
        result := MatchString(re, filters[n], "");
      }
      if !result {
        return result, Some(n), Some(v);
      }
      pending := pending - {n};
    }
    return result, None, None;
  }

  /** With no filters every property map is accepted. */
  lemma EmptyFiltersAcceptAll(re: Engine, values: map<string, string>)
    ensures Holds(re, values, map[])
  {
  }

  /** A property the map lacks is tested as the empty string: a single filter
      on it accepts exactly when its pattern matches "". */
  lemma AbsentIsEmpty(re: Engine, values: map<string, string>, name: string, m: Matcher)
    requires name !in values
    ensures Holds(re, values, map[name := m]) <==> MatchString(re, m, "")
  {
    assert Lookup(values, name) == "";
  }

  /** Filters are conjunctive: adding a criterion that accepts every string
      changes no decision. */
  lemma AlwaysTrueCriterion(re: Engine, values: map<string, string>, filters: map<string, Matcher>, name: string, m: Matcher)
    requires name !in filters
    requires forall s :: MatchString(re, m, s)
    ensures Holds(re, values, filters[name := m]) <==> Holds(re, values, filters)
  {
    if Holds(re, values, filters) {
      forall n | n in filters[name := m]
        ensures MatchString(re, filters[name := m][n], Lookup(values, n))
      {
        if n != name {
          assert filters[name := m][n] == filters[n];
        }
      }
    }
  }

  /** A compiled filter set tests each property against the pattern given
      for its name, and nothing else. */
  lemma CompiledFiltersTestPatterns(re: Engine, values: map<string, string>, exps: map<string, string>)
    ensures Holds(re, values, Compiled(exps)) <==>
            forall name :: name in exps ==> re.matches(exps[name], Lookup(values, name))
  {
  }
}
