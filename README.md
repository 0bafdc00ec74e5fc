# Alert decision engine of sensu-prometheus-alert-check

A Dafny model of the decision core of a Sensu check that reads the active
alerts of a Prometheus server (`/api/v1/alerts`) and reports whether any
of them matters. Given the alerts already fetched and decoded, the model
covers:

- compiling the operator's label and annotation filters (name → regular
  expression), all or nothing;
- testing a label or annotation map against a compiled filter set, where a
  missing property is tested as the empty string;
- the filter loop over the alerts: a state gate (`--firing`, `--pending`),
  a label gate and an annotation gate, with results kept in input order;
- validating the configuration (`checkArgs`) and the final verdict of
  `executeCheck`: critical when any alert is left or any step failed, OK
  otherwise;
- `CopyToEvent`, which copies selected keys from one string map into
  another in place.

The regular-expression engine is a parameter (`Regex.Engine`: which
patterns compile, which strings a compiled pattern matches); so is URL
parsing (`parses`). The process-wide configuration becomes an explicit
`Plugin.Config` value. Go's map iteration has no fixed order, so the loops
over filter maps pick their next key with `:|`, and the contracts only say
that *some* failing pattern or name is reported.

Files: `wrappers.dfy` (Option, Result), `regex.dfy` (the abstract
engine), `plugin.dfy` (configuration, statuses), `filters.dfy`
(`CompileFilters`, `MatchProperty`), `evaluator.dfy` (alerts, gates,
`FilterAlerts`), `check.dfy` (`checkArgs`, `executeCheck`, `CopyToEvent`).

The filter loop is modelled as written. Its `break` (main.go:287) sits in
an `if` inside the `for` over the alerts, so the first alert that passes
the state and label gates but fails the annotation gate ends the whole
scan. Its log line at main.go:286 says the alert is "ignored", like the
state and label branches (main.go:271, 278), which only skip the alert;
the `break` instead ends the scan, and the model follows the code: `Evaluator.AsWritten` is the code's result and `Evaluator.Kept`
the skip-only-this-alert filter, and `Evaluator.BreakDropsLaterMatch`
shows an input where they differ.

## Model

| member | source | states |
|---|---|---|
| `Filters.CompileFilters` | main.go:212-227 | succeeds iff every pattern compiles; then the map has exactly the keys of the input, each holding its own pattern's matcher; otherwise it reports a pattern of the input that does not compile and returns no map |
| `Filters.MatchProperty` | main.go:229-247 | true iff every filter matches the value of its name, a missing name tested as ""; on false it names a filter key whose matcher rejected the reported value, which is the map's value or "" |
| `Filters.EmptyFiltersAcceptAll` | main.go:230-246 | with no filters every property map is accepted |
| `Filters.AbsentIsEmpty` | main.go:233-239 | a single filter on a property the map lacks accepts iff its pattern matches "" |
| `Filters.AlwaysTrueCriterion` | main.go:232-244 | adding a criterion that accepts every string changes no decision (filters are conjunctive) |
| `Filters.CompiledFiltersTestPatterns` | main.go:215-223 | the compiled set accepts a map iff each pattern matches the value of its name |
| `Evaluator.FilterAlerts` | main.go:249-297 | succeeds iff both filter maps compile, otherwise reports a pattern that does not compile (label patterns first); on success returns `AsWritten` of the input under the configured gates |
| `Evaluator.FirstBreak` | main.go:282-288 | the index of the first alert that passes the state and label gates and fails the annotation gate, or the length when there is none |
| `Evaluator.AsWrittenIsKeptPrefix` | main.go:262-294 | the result equals the plain filter of the alerts before the first breaking alert |
| `Evaluator.FirstBreakCuts` | main.go:282-288 | if alert i is the first to break, the result is the filtered prefix `alerts[..i]` |
| `Evaluator.NothingFromBreakOn` | main.go:282-288 | if alert i breaks, the result is a subsequence of `alerts[..i]`: nothing from i on is returned |
| `Evaluator.NoBreakKeepsAll` | main.go:262-294 | when no alert breaks, the result is the plain filter of all alerts |
| `Evaluator.NoBreakComplete` | main.go:262-294 | when no alert breaks, every alert passing all gates is returned as often as it occurs, and no other |
| `Evaluator.AsWrittenSound` | main.go:262-294 | the result is a subsequence of the input (order kept, duplicates kept) and every alert in it passes all three gates |
| `Evaluator.KeptSound` | main.go:262-294 | the plain filter is a subsequence of the input and every alert in it passes all three gates |
| `Evaluator.KeptCount` | main.go:262-294 | the plain filter keeps each copy of a passing alert and no copy of another |
| `Evaluator.StateGateModes` | main.go:267-268 | firing alone keeps only "firing" alerts, pending alone only "pending", both keep nothing, neither puts no condition on the state |
| `Evaluator.VacuousFilters` | main.go:260-294 | no state flag and empty filters return the input unchanged |
| `Evaluator.BreakDropsLaterMatch` | main.go:285-288 | an alert passing all gates after one failing the annotation gate is dropped by the as-written filter and kept by the plain one |
| `Check.CheckArgs` | main.go:146-161 | empty URL warns; else an unparseable URL is critical; else both state flags warn; else OK, with an error exactly when not OK |
| `Check.ExecuteCheck` | main.go:163-201 | never warns; any failure (URL, fetch, compile) is critical with its error, a compile failure carrying a filter error whose pattern does not compile; once the alerts were filtered, critical iff some alert is left and OK iff none is |
| `Check.CopyKeys` | main.go:203-210 | each name in the list that the source has gets the source's value; every other key keeps its presence and value, so no key outside the list is added |
| `Check.CopyToEvent` | main.go:203-210 | with a destination map, it is afterwards `CopyKeys` of the list, the source and its previous contents, and nothing panics; with a nil destination it panics iff some listed name is in the source |

## Findings

| source | as written | input that shows it | evidently intended | confidence | as-written member | corrected member |
|---|---|---|---|---|---|---|
| main.go:282-288 | `break` on an annotation mismatch leaves the `for` over all alerts | two firing alerts, annotation filter `runbook=yes`, the first with `runbook=no`, the second with `runbook=yes`: the result is empty | skip only the mismatching alert (its log line says the alert is ignored) so that the second alert is reported | high, not executed | `Evaluator.AsWritten` (`Evaluator.BreakDropsLaterMatch`) | `Evaluator.Kept` (`Evaluator.KeptSound`, `Evaluator.KeptCount`) |

`Evaluator.FilterAlerts` and `Check.ExecuteCheck` keep the as-written
behaviour, because that is what the check reports. `Evaluator.AsWrittenIsKeptPrefix`
states exactly how far the two filters agree.

## Left out

- `main`: stdin detection and the SDK wiring are process plumbing.
- Option declarations: flag and environment parsing by the SDK; only the resulting values are in `Plugin.Config`.
- `GetHttpClient` and `GetAlerts`: the HTTP client, TLS settings, CA file read, the request and JSON decoding. Their outcome is the `fetched` input of `Check.ExecuteCheck`. The insecure-skip-verify, trusted CA file, timeout and verbose settings are therefore not in `Plugin.Config`.
- The JSON rendering of the matched alerts in `executeCheck` and its error branch: a foreign serializer.
- Logging (`LogVerbosef`, `LogVerboseln`, `log.Printf`): output only. The name and value that `MatchProperty` reports feed only these logs.
- Regular-expression syntax and matching: a foreign library, kept as `Regex.Engine`.
- URL parsing: a foreign library, kept as the `parses` parameter. The second parse in `executeCheck` is modelled with the same `parses`.
- Error messages: errors are datatypes, not formatted strings. Both compile errors of `FilterAlerts` use the same message text, "failed to compile label filter", so `Evaluator.FilterError` does not say which map failed.
- Exit codes: the statuses are `Plugin.Status` values; the SDK maps them to process exit codes.
