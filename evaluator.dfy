/**
 * The alert evaluator: which fetched alerts count as matches.
 *
 * Each alert goes through three gates in order: its state, its labels,
 * its annotations. The loop over the alerts stops for good at the first
 * alert that passes the state and label gates but fails the annotation
 * gate; `AsWritten` is that behaviour, `Kept` is the plain filter that
 * skips only the failing alert.
 */
module Evaluator {
  import opened Wrappers
  import opened Regex
  import opened Filters
  import opened Plugin

  /** One alert as the backend reports it. */
  datatype Alert = Alert(
    state: string,
    activeAt: string,
    value: string,
    labels: map<string, string>,
    annotations: map<string, string>)

  /** What the evaluator applies: the state flags and the compiled filters. */
  datatype Gates = Gates(
    onlyFiring: bool,
    onlyPending: bool,
    labels: map<string, Matcher>,
    annotations: map<string, Matcher>)

  /** A label or annotation filter that did not compile. */
  datatype FilterError = FilterError(cause: CompileError)

  /** The gates a configuration yields once its filters have compiled. */
  function GatesOf(cfg: Config): Gates
  {
    Gates(cfg.firingAlerts, cfg.pendingAlerts, Compiled(cfg.labels), Compiled(cfg.annotations))
  }

  predicate StateGate(g: Gates, a: Alert)
  {
    (!g.onlyFiring || a.state == "firing") && (!g.onlyPending || a.state == "pending")
  }

  predicate LabelGate(re: Engine, g: Gates, a: Alert)
  {
    Holds(re, a.labels, g.labels)
  }

  predicate AnnotationGate(re: Engine, g: Gates, a: Alert)
  {
    Holds(re, a.annotations, g.annotations)
  }

  /** The alert passes all three gates. */
  predicate Passes(re: Engine, g: Gates, a: Alert)
  {
    StateGate(g, a) && LabelGate(re, g, a) && AnnotationGate(re, g, a)
  }

  /** The alert reaches the annotation gate and fails it: here the loop stops. */
  predicate Breaks(re: Engine, g: Gates, a: Alert)
  {
    StateGate(g, a) && LabelGate(re, g, a) && !AnnotationGate(re, g, a)
  }

  /** The alerts the evaluator returns, as the loop is written: a breaking
      alert ends the scan. */
  function AsWritten(re: Engine, g: Gates, alerts: seq<Alert>): seq<Alert>
  {
    if alerts == [] then []
    else if Breaks(re, g, alerts[0]) then []
    else (if Passes(re, g, alerts[0]) then [alerts[0]] else []) + AsWritten(re, g, alerts[1..])
  }

  /** The alerts that pass all three gates, in input order. */
  function Kept(re: Engine, g: Gates, alerts: seq<Alert>): seq<Alert>
  {
    if alerts == [] then []
    else (if Passes(re, g, alerts[0]) then [alerts[0]] else []) + Kept(re, g, alerts[1..])
  }

  /** The index of the first breaking alert, or the length when none breaks. */
  function FirstBreak(re: Engine, g: Gates, alerts: seq<Alert>): (i: nat)
    ensures i <= |alerts|
    ensures i < |alerts| ==> Breaks(re, g, alerts[i])
    ensures forall j :: 0 <= j < i ==> !Breaks(re, g, alerts[j])
  {
    if alerts == [] then 0
    else if Breaks(re, g, alerts[0]) then 0
    else 1 + FirstBreak(re, g, alerts[1..])
  }

  /** `s` is obtained from `t` by dropping elements: same order, duplicates kept. */
  ghost predicate IsSubsequence(s: seq<Alert>, t: seq<Alert>)
    decreases |t|
  {
    s == [] || (t != [] && ((s[0] == t[0] && IsSubsequence(s[1..], t[1..])) || IsSubsequence(s, t[1..])))
  }

  /**
   * Compiles the label and annotation filters of `cfg`, then scans the
   * alerts: state gate, label gate, annotation gate. An alert that fails
   * the annotation gate ends the scan; every alert before it that passed
   * all three gates is in the result.
   */
  method FilterAlerts(re: Engine, cfg: Config, alerts: seq<Alert>) returns (r: Result<seq<Alert>, FilterError>)
    ensures r.Success? <==> AllCompile(re, cfg.labels) && AllCompile(re, cfg.annotations)
    ensures r.Success? ==> r.value == AsWritten(re, GatesOf(cfg), alerts)
    ensures r.Failure? ==> !re.compiles(r.error.cause.pattern)
    ensures r.Failure? ==> r.error.cause.pattern in cfg.labels.Values ||
                           (AllCompile(re, cfg.labels) && r.error.cause.pattern in cfg.annotations.Values)
  {
    var labelResult := CompileFilters(re, cfg.labels);
    if labelResult.Failure? {
      return Failure(FilterError(labelResult.error));
    }
    var annotationResult := CompileFilters(re, cfg.annotations);
    if annotationResult.Failure? {
      return Failure(FilterError(annotationResult.error));
    }
    var labelFilters, annotationFilters := labelResult.value, annotationResult.value;
    ghost var g := Gates(cfg.firingAlerts, cfg.pendingAlerts, labelFilters, annotationFilters);
    CompiledIs(labelFilters, cfg.labels);
    CompiledIs(annotationFilters, cfg.annotations);
    assert g == GatesOf(cfg);

    var result: seq<Alert> := [];
    var i := 0;
    while i < |alerts|
      invariant 0 <= i <= |alerts|
      invariant AsWritten(re, g, alerts) == result + AsWritten(re, g, alerts[i..])
    {
      var alert := alerts[i];
      AsWrittenStep(re, g, alerts, i);
      var matched := true;
      var name: Option<string> := None;
      var value: Option<string> := None;

      matched := matched && (!cfg.firingAlerts || alert.state == "firing");
      matched := matched && (!cfg.pendingAlerts || alert.state == "pending");

      if matched {
        matched, name, value := MatchProperty(re, alert.labels, labelFilters);
      }

      if matched {
        matched, name, value := MatchProperty(re, alert.annotations, annotationFilters);
        if !matched {
          break;
        }
      }

      if matched {
        assert AsWritten(re, g, alerts[i..]) == [alert] + AsWritten(re, g, alerts[i + 1..]);
        assert result + ([alert] + AsWritten(re, g, alerts[i + 1..])) == (result + [alert]) + AsWritten(re, g, alerts[i + 1..]);
        result := result + [alert];
      } else {
        assert AsWritten(re, g, alerts[i..]) == AsWritten(re, g, alerts[i + 1..]);
      }
      i := i + 1;
    }
    return Success(result);
  }

  /** A map with the keys of `exps` holding the matcher of each pattern is
      the compiled filter set. */
  lemma CompiledIs(m: map<string, Matcher>, exps: map<string, string>)
    requires m.Keys == exps.Keys
    requires forall name :: name in exps ==> m[name] == Matcher(exps[name])
    ensures m == Compiled(exps)
  {
  }

  /** One step of the scan, at index `i`. */
  lemma AsWrittenStep(re: Engine, g: Gates, alerts: seq<Alert>, i: nat)
    requires i < |alerts|
    ensures AsWritten(re, g, alerts[i..]) ==
            if Breaks(re, g, alerts[i]) then []
            else (if Passes(re, g, alerts[i]) then [alerts[i]] else []) + AsWritten(re, g, alerts[i + 1..])
  {
    assert alerts[i..][0] == alerts[i];
    assert alerts[i..][1..] == alerts[i + 1..];
  }

  /** Prepending an element keeps a subsequence one, on either side or on
      the longer side alone. */
  lemma SubsequenceCons(s: seq<Alert>, t: seq<Alert>, x: Alert)
    requires IsSubsequence(s, t)
    ensures IsSubsequence(s, [x] + t)
    ensures IsSubsequence([x] + s, [x] + t)
  {
    assert ([x] + t)[1..] == t;
    assert ([x] + s)[1..] == s;
  }

  /** The returned alerts are exactly the ones before the first breaking
      alert that pass all three gates. */
  lemma {:induction false} AsWrittenIsKeptPrefix(re: Engine, g: Gates, alerts: seq<Alert>)
    ensures AsWritten(re, g, alerts) == Kept(re, g, alerts[..FirstBreak(re, g, alerts)])
  {
    if alerts == [] {
    } else if Breaks(re, g, alerts[0]) {
      assert alerts[..0] == [];
    } else {
      AsWrittenIsKeptPrefix(re, g, alerts[1..]);
      var k := FirstBreak(re, g, alerts[1..]);
      assert alerts[..k + 1][0] == alerts[0];
      assert alerts[..k + 1][1..] == alerts[1..][..k];
    }
  }

  /** When alert `i` is the first to fail the annotation gate after passing
      the others, the result is the filtered prefix before it. */
  lemma FirstBreakCuts(re: Engine, g: Gates, alerts: seq<Alert>, i: nat)
    requires i < |alerts| && Breaks(re, g, alerts[i])
    requires forall j :: 0 <= j < i ==> !Breaks(re, g, alerts[j])
    ensures AsWritten(re, g, alerts) == Kept(re, g, alerts[..i])
  {
    AsWrittenIsKeptPrefix(re, g, alerts);
  }

  /** Any breaking alert bounds the result: nothing at or after it is returned. */
  lemma {:induction false} NothingFromBreakOn(re: Engine, g: Gates, alerts: seq<Alert>, i: nat)
    requires i < |alerts| && Breaks(re, g, alerts[i])
    ensures IsSubsequence(AsWritten(re, g, alerts), alerts[..i])
  {
    if Breaks(re, g, alerts[0]) {
    } else {
      var rest := alerts[1..];
      NothingFromBreakOn(re, g, rest, i - 1);
      assert alerts[..i] == [alerts[0]] + rest[..i - 1];
      SubsequenceCons(AsWritten(re, g, rest), rest[..i - 1], alerts[0]);
      if Passes(re, g, alerts[0]) {
        assert AsWritten(re, g, alerts) == [alerts[0]] + AsWritten(re, g, rest);
      } else {
        assert AsWritten(re, g, alerts) == AsWritten(re, g, rest);
      }
    }
  }

  /** When no alert breaks, the result is the plain filter. */
  lemma NoBreakKeepsAll(re: Engine, g: Gates, alerts: seq<Alert>)
    requires forall j :: 0 <= j < |alerts| ==> !Breaks(re, g, alerts[j])
    ensures AsWritten(re, g, alerts) == Kept(re, g, alerts)
  {
    AsWrittenIsKeptPrefix(re, g, alerts);
    assert alerts[..|alerts|] == alerts;
  }

  /** The result keeps the input order and every alert in it passes all gates. */
  lemma {:induction false} AsWrittenSound(re: Engine, g: Gates, alerts: seq<Alert>)
    ensures IsSubsequence(AsWritten(re, g, alerts), alerts)
    ensures forall k :: 0 <= k < |AsWritten(re, g, alerts)| ==> Passes(re, g, AsWritten(re, g, alerts)[k])
  {
    if alerts != [] && !Breaks(re, g, alerts[0]) {
      AsWrittenSound(re, g, alerts[1..]);
      SubsequenceCons(AsWritten(re, g, alerts[1..]), alerts[1..], alerts[0]);
      assert alerts == [alerts[0]] + alerts[1..];
      if Passes(re, g, alerts[0]) {
        assert AsWritten(re, g, alerts) == [alerts[0]] + AsWritten(re, g, alerts[1..]);
      } else {
        assert AsWritten(re, g, alerts) == AsWritten(re, g, alerts[1..]);
      }
    }
  }

  /** The plain filter keeps the input order and every alert in it passes all gates. */
  lemma {:induction false} KeptSound(re: Engine, g: Gates, alerts: seq<Alert>)
    ensures IsSubsequence(Kept(re, g, alerts), alerts)
    ensures forall k :: 0 <= k < |Kept(re, g, alerts)| ==> Passes(re, g, Kept(re, g, alerts)[k])
  {
    if alerts != [] {
      KeptSound(re, g, alerts[1..]);
      SubsequenceCons(Kept(re, g, alerts[1..]), alerts[1..], alerts[0]);
      assert alerts == [alerts[0]] + alerts[1..];
      if Passes(re, g, alerts[0]) {
        assert Kept(re, g, alerts) == [alerts[0]] + Kept(re, g, alerts[1..]);
      } else {
        assert Kept(re, g, alerts) == Kept(re, g, alerts[1..]);
      }
    }
  }

  /** The plain filter keeps every copy of a passing alert and no copy of
      any other. */
  lemma {:induction false} KeptCount(re: Engine, g: Gates, alerts: seq<Alert>, a: Alert)
    ensures multiset(Kept(re, g, alerts))[a] == if Passes(re, g, a) then multiset(alerts)[a] else 0
  {
    if alerts != [] {
      KeptCount(re, g, alerts[1..], a);
      assert alerts == [alerts[0]] + alerts[1..];
    }
  }

  /** With no breaking alert, every alert passing all gates is returned,
      as often as it occurs in the input. */
  lemma NoBreakComplete(re: Engine, g: Gates, alerts: seq<Alert>, a: Alert)
    requires forall j :: 0 <= j < |alerts| ==> !Breaks(re, g, alerts[j])
    ensures multiset(AsWritten(re, g, alerts))[a] == if Passes(re, g, a) then multiset(alerts)[a] else 0
  {
    NoBreakKeepsAll(re, g, alerts);
    KeptCount(re, g, alerts, a);
  }

  /** The state flags: firing restricts to "firing", pending to "pending",
      both to nothing, neither to no restriction at all. */
  lemma StateGateModes(re: Engine, g: Gates, alerts: seq<Alert>)
    ensures g.onlyFiring ==> forall k :: 0 <= k < |AsWritten(re, g, alerts)| ==> AsWritten(re, g, alerts)[k].state == "firing"
    ensures g.onlyPending ==> forall k :: 0 <= k < |AsWritten(re, g, alerts)| ==> AsWritten(re, g, alerts)[k].state == "pending"
    ensures g.onlyFiring && g.onlyPending ==> AsWritten(re, g, alerts) == []
    ensures !g.onlyFiring && !g.onlyPending ==> forall a :: StateGate(g, a)
  {
    AsWrittenSound(re, g, alerts);
    if g.onlyFiring && g.onlyPending && AsWritten(re, g, alerts) != [] {
      assert Passes(re, g, AsWritten(re, g, alerts)[0]);
    }
  }

  /** No state flag and no filters: every alert is returned, in order. */
  lemma {:induction false} VacuousFilters(re: Engine, g: Gates, alerts: seq<Alert>)
    requires !g.onlyFiring && !g.onlyPending && g.labels == map[] && g.annotations == map[]
    ensures AsWritten(re, g, alerts) == alerts
  {
    if alerts != [] {
      VacuousFilters(re, g, alerts[1..]);
      assert Passes(re, g, alerts[0]);
    }
  }

  /** The break drops matching alerts: a firing alert with a matching
      annotation that follows one with a mismatching annotation is not
      returned, although it passes all three gates. */
  lemma BreakDropsLaterMatch()
    ensures var re := Engine(p => true, (p, s) => p == s);
            var g := Gates(false, false, map[], map["runbook" := Matcher("yes")]);
            var first := Alert("firing", "", "1", map[], map["runbook" := "no"]);
            var second := Alert("firing", "", "1", map[], map["runbook" := "yes"]);
            Passes(re, g, second) && AsWritten(re, g, [first, second]) == [] &&
            Kept(re, g, [first, second]) == [second]
  {
    var re := Engine(p => true, (p, s) => p == s);
    var g := Gates(false, false, map[], map["runbook" := Matcher("yes")]);
    var first := Alert("firing", "", "1", map[], map["runbook" := "no"]);
    var second := Alert("firing", "", "1", map[], map["runbook" := "yes"]);
    assert !MatchString(re, Matcher("yes"), Lookup(first.annotations, "runbook"));
    assert !AnnotationGate(re, g, first);
    assert Breaks(re, g, first);
    assert Lookup(second.annotations, "runbook") == "yes";
    assert Passes(re, g, second);
    assert [first, second][1..] == [second];
    assert Kept(re, g, [second]) == [second];
  }
}
