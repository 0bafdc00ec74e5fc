/**
 * The check itself: validating the configuration, turning the evaluator's
 * outcome into a status, and copying selected properties into an event.
 * Parsing the base URL is abstract (`parses`); fetching the alerts over
 * HTTP is an input (`fetched`), either the decoded alert list or the
 * reason the client could not be built or the request failed.
 */
module Check {
  import opened Wrappers
  import opened Regex
  import opened Filters
  import opened Plugin
  import opened Evaluator

  datatype CheckError =
    | UrlRequired
    | UrlUnparseable(url: string)
    | ConflictingStates
    | FetchFailed(reason: string)
    | FilterFailed(cause: FilterError)

  /** The status a step reports, with its error when it has one. */
  datatype Outcome = Outcome(status: Status, error: Option<CheckError>)

  /**
   * Validates the configuration before anything is fetched: a missing URL
   * warns, an unparseable one is critical, asking for both firing and
   * pending alerts warns; otherwise the check may run.
   */
  function CheckArgs(parses: string -> bool, cfg: Config): (r: Outcome)
    ensures r.status == OK <==> cfg.prometheusUrl != "" && parses(cfg.prometheusUrl) && !(cfg.pendingAlerts && cfg.firingAlerts)
    ensures r.status == Critical <==> cfg.prometheusUrl != "" && !parses(cfg.prometheusUrl)
    ensures r.status == Warning <==> cfg.prometheusUrl == "" || (parses(cfg.prometheusUrl) && cfg.pendingAlerts && cfg.firingAlerts)
    ensures r.error.None? <==> r.status == OK
    ensures r.error == Some(UrlRequired) <==> cfg.prometheusUrl == ""
    ensures r.error == Some(ConflictingStates) <==> r.status == Warning && cfg.prometheusUrl != ""
  {
    if |cfg.prometheusUrl| == 0 then Outcome(Warning, Some(UrlRequired))
    else if !parses(cfg.prometheusUrl) then Outcome(Critical, Some(UrlUnparseable(cfg.prometheusUrl)))
    else if cfg.pendingAlerts && cfg.firingAlerts then Outcome(Warning, Some(ConflictingStates))
    else Outcome(OK, None)
  }

  /** The base URL parsed, the alerts were fetched and every filter compiled:
      the evaluator ran. */
  predicate Evaluated(re: Engine, parses: string -> bool, cfg: Config, fetched: Result<seq<Alert>, string>)
  {
    parses(cfg.prometheusUrl) && fetched.Success? && AllCompile(re, cfg.labels) && AllCompile(re, cfg.annotations)
  }

  /**
   * Runs the check: parse the base URL, take the fetched alerts, filter
   * them. Any failure on the way is critical; otherwise the check is
   * critical exactly when some alert is left and OK when none is.
   */
  method ExecuteCheck(re: Engine, parses: string -> bool, cfg: Config, fetched: Result<seq<Alert>, string>)
    returns (r: Outcome)
    ensures r.status != Warning
    ensures r.error.None? <==> Evaluated(re, parses, cfg, fetched)
    ensures !Evaluated(re, parses, cfg, fetched) ==> r.status == Critical
    ensures Evaluated(re, parses, cfg, fetched) ==>
              (r.status == OK <==> AsWritten(re, GatesOf(cfg), fetched.value) == [])
    ensures !parses(cfg.prometheusUrl) ==> r.error == Some(UrlUnparseable(cfg.prometheusUrl))
    ensures parses(cfg.prometheusUrl) && fetched.Failure? ==> r.error == Some(FetchFailed(fetched.error))
    ensures parses(cfg.prometheusUrl) && fetched.Success? &&
            !(AllCompile(re, cfg.labels) && AllCompile(re, cfg.annotations)) ==>
              r.error.Some? && r.error.value.FilterFailed? && !re.compiles(r.error.value.cause.cause.pattern)
  {
    if !parses(cfg.prometheusUrl) {
      return Outcome(Critical, Some(UrlUnparseable(cfg.prometheusUrl)));
    }
    if fetched.Failure? {
      return Outcome(Critical, Some(FetchFailed(fetched.error)));
    }
    var filtered := FilterAlerts(re, cfg, fetched.value);
    if filtered.Failure? {
      return Outcome(Critical, Some(FilterFailed(filtered.error)));
    }
    if |filtered.value| > 0 {
      return Outcome(Critical, None);
    }
    return Outcome(OK, None);
  }

  /** `dest` updated with the value `src` holds for each of `names` that it has. */
  function CopyKeys(names: seq<string>, src: map<string, string>, dest: map<string, string>): (r: map<string, string>)
    ensures forall k :: k in names && k in src ==> k in r && r[k] == src[k]
    ensures forall k :: !(k in names && k in src) ==> (k in r <==> k in dest)
    ensures forall k :: !(k in names && k in src) && k in dest ==> r[k] == dest[k]
  {
    if names == [] then dest
    else
      var prior := CopyKeys(names[..|names| - 1], src, dest);
      var name := names[|names| - 1];
      assert forall k :: k in names ==> k in names[..|names| - 1] || k == name;
      if name in src then prior[name := src[name]] else prior
  }

  /** A string map that is updated in place. */
  class StringMap {
    var entries: map<string, string>

    constructor (entries: map<string, string>)
      ensures this.entries == entries
    {
      this.entries := entries;
    }
  }

  /**
   * Copies the value of each of `names` that `src` has into `dest`.
   * A nil destination (`null`) can be read but not written: the first
   * name that `src` has makes the write panic, reported as `panicked`.
   */
  method CopyToEvent(names: seq<string>, src: map<string, string>, dest: StringMap?) returns (panicked: bool)
    modifies dest
    ensures dest == null ==> (panicked <==> exists k :: k in names && k in src)
    ensures dest != null ==> !panicked && dest.entries == CopyKeys(names, src, old(dest.entries))
  {
    var i := 0;
    while i < |names|
      invariant 0 <= i <= |names|
      invariant dest != null ==> dest.entries == CopyKeys(names[..i], src, old(dest.entries))
      invariant dest == null ==> forall k :: k in names[..i] ==> k !in src
    {
      var name := names[i];
      assert names[..i + 1][..i] == names[..i];
      assert names[..i + 1] == names[..i] + [name];
      if name in src {
        if dest == null {
          return true;
        }
        dest.entries := dest.entries[name := src[name]];
      }
      i := i + 1;
    }
    assert names[..|names|] == names;
    return false;
  }
}
