/** Resource states and healths, and keeping the worst of them. */
module ResourceStatus {
  import opened GoValues

  /** A string in Go: any text can occur, the states below are the named ones. */
  type Status = string

  const STARTING: Status := "Starting"
  const READY: Status := "Ready"
  const DISABLED: Status := "Disabled"
  const NOT_PRESENT: Status := "NotPresent"
  const OFFLINE: Status := "Offline"
  const FENCED: Status := "Fenced"
  const FAILED: Status := "Failed"

  const DEGRADED: set<Status> := {STARTING, OFFLINE, NOT_PRESENT, DISABLED, FENCED}

  /** The variable a pointer argument leads to. */
  class Cell<T> {
    var value: T

    constructor (value: T)
      ensures this.value == value
    {
      this.value := value;
    }
  }

  function Worse(status: Status, report: Status): Status {
    if report in DEGRADED && status == READY then report
    else if report == FAILED then FAILED
    else status
  }

  method UpdateIfWorseThan(report: Status, status: Cell<Status>)
    modifies status
    ensures status.value == Worse(old(status.value), report)
  {
    if report == STARTING || report == OFFLINE || report == NOT_PRESENT || report == DISABLED || report == FENCED {
      if status.value == READY {
        status.value := report;
      }
    } else if report == FAILED {
      if status.value != FAILED {
        status.value := FAILED;
      }
    }
  }

  function Fold(start: Status, reports: seq<Status>): Status {
    if reports == [] then start else Worse(Fold(start, reports[..|reports| - 1]), reports[|reports| - 1])
  }

  /** Aggregation as the reconcilers do it: one report after another into the same variable. */
  method Aggregate(status: Cell<Status>, reports: seq<Status>)
    modifies status
    ensures status.value == Fold(old(status.value), reports)
  {
    for i := 0 to |reports|
      invariant status.value == Fold(old(status.value), reports[..i])
    {
      assert reports[..i + 1][..i] == reports[..i];
      UpdateIfWorseThan(reports[i], status);
    }
    assert reports[..|reports|] == reports;
  }

  /** k is the position of the first degraded report. */
  predicate FirstDegraded(reports: seq<Status>, k: nat) {
    k < |reports| && reports[k] in DEGRADED && forall i :: 0 <= i < k ==> reports[i] !in DEGRADED
  }

  /** What a whole series of reports comes to: failure if there is any; else a start that was not Ready stays; else
      the first degraded report; else Ready. */
  lemma {:induction false} FoldMeans(start: Status, reports: seq<Status>)
    ensures Fold(start, reports) == FAILED <==> start == FAILED || FAILED in reports
    ensures start != FAILED && FAILED !in reports && start != READY ==> Fold(start, reports) == start
    ensures start == READY && FAILED !in reports ==>
      forall k: nat :: FirstDegraded(reports, k) ==> Fold(start, reports) == reports[k]
    ensures start == READY && FAILED !in reports && (forall r :: r in reports ==> r !in DEGRADED) ==>
      Fold(start, reports) == READY
  {
    if reports != [] {
      var n := |reports| - 1;
      var front := reports[..n];
      FoldMeans(start, front);
      assert reports == front + [reports[n]];
      if start == READY && FAILED !in reports {
        assert reports[n] in reports;
        forall k: nat | FirstDegraded(reports, k) ensures Fold(start, reports) == reports[k] {
          if k < n {
            assert FirstDegraded(front, k) && front[k] == reports[k];
          } else {
            forall r | r in front ensures r !in DEGRADED {
              var i :| 0 <= i < n && front[i] == r;
              assert reports[i] == r;
            }
          }
        }
      }
    }
  }

  function Rank(s: Status): nat {
    if s == FAILED then 2 else if s in DEGRADED then 1 else 0
  }

  predicate Graded(s: Status) {
    s == READY || s in DEGRADED || s == FAILED
  }

  function WorstRank(start: nat, reports: seq<Status>): nat {
    if reports == [] then start
    else
      var before := WorstRank(start, reports[..|reports| - 1]);
      if Rank(reports[|reports| - 1]) > before then Rank(reports[|reports| - 1]) else before
  }

  /** The worst rank is the greatest one that occurs. */
  lemma {:induction false} WorstRankIsMaximum(start: nat, reports: seq<Status>)
    ensures forall r :: r in reports ==> Rank(r) <= WorstRank(start, reports)
    ensures start <= WorstRank(start, reports)
    ensures WorstRank(start, reports) == start || exists r :: r in reports && Rank(r) == WorstRank(start, reports)
  {
    if reports != [] {
      var n := |reports| - 1;
      WorstRankIsMaximum(start, reports[..n]);
      assert reports == reports[..n] + [reports[n]];
      assert reports[n] in reports;
    }
  }

  lemma {:induction false} FoldRank(start: Status, reports: seq<Status>)
    requires Graded(start)
    ensures Graded(Fold(start, reports))
    ensures Rank(Fold(start, reports)) == WorstRank(Rank(start), reports)
  {
    if reports != [] {
      FoldRank(start, reports[..|reports| - 1]);
    }
  }

  /** From Ready, degraded or Failed, how bad it gets depends only on which reports occur, not on order or
      repetition. */
  lemma RankIgnoresOrder(start: Status, reports: seq<Status>, others: seq<Status>)
    requires Graded(start)
    requires forall r :: r in reports <==> r in others
    ensures Rank(Fold(start, reports)) == Rank(Fold(start, others))
    ensures Rank(start) <= Rank(Fold(start, reports))
  {
    FoldRank(start, reports);
    FoldRank(start, others);
    WorstRankIsMaximum(Rank(start), reports);
    WorstRankIsMaximum(Rank(start), others);
  }

  /** The state itself does depend on the order: between two degraded reports the earlier one stays. */
  lemma StateDependsOnOrder(a: Status, b: Status)
    requires a in DEGRADED && b in DEGRADED
    ensures Fold(READY, [a, b]) == Fold(READY, [b, a]) <==> a == b
  {
    FoldMeans(READY, [a, b]);
    FoldMeans(READY, [b, a]);
    assert FirstDegraded([a, b], 0) && FirstDegraded([b, a], 0);
  }

  // ---------- Translations ----------

  /** The Swordfish state of a resource, as a status. */
  function FromSwordfish(state: string): Status {
    if state == "Starting" then STARTING
    else if state == "Enabled" then READY
    else if state == "Disabled" then DISABLED
    else if state == "Absent" then NOT_PRESENT
    else if state == "UnavailableOffline" then OFFLINE
    else FAILED
  }

  /** The other translation, which panics (None) where the first one answers Failed. */
  function StaticFromSwordfish(state: string): Option<Status> {
    match state
    case "Starting" => Some(STARTING)
    case "Enabled" => Some(READY)
    case "Disabled" => Some(DISABLED)
    case "Absent" => Some(NOT_PRESENT)
    case "UnavailableOffline" => Some(OFFLINE)
    case _ => None
  }

  /** The two translations agree wherever the second one returns at all, which is where the first is not Failed. */
  lemma StaticReturnsIffNotFailed(state: string)
    ensures StaticFromSwordfish(state) == if FromSwordfish(state) == FAILED then None else Some(FromSwordfish(state))
  {}

  const DWS_UNKNOWN: string := "Unknown"

  function ToDWS(s: Status): string {
    if s == STARTING then "Starting"
    else if s == READY then "Ready"
    else if s == DISABLED then "Disabled"
    else if s == NOT_PRESENT then "NotPresent"
    else if s == OFFLINE then "Offline"
    else if s == FAILED then "Failed"
    else if s == FENCED then "Fenced"
    else DWS_UNKNOWN
  }

  /** Exactly the states aggregation works with have a DWS counterpart, and each its own. */
  lemma DWSKnowsGradedStates(s: Status, t: Status)
    ensures ToDWS(s) != DWS_UNKNOWN <==> Graded(s)
    ensures Graded(s) && Graded(t) && ToDWS(s) == ToDWS(t) ==> s == t
  {}

  /** Under its own text. */
  lemma GradedKeepTheirText(s: Status)
    ensures Graded(s) ==> ToDWS(s) == s
  {}

  /** What DWS is told of each state Swordfish can report. */
  lemma SwordfishStateAtDWS(state: string)
    ensures ToDWS(FromSwordfish(state)) ==
      match state
      case "Enabled" => "Ready"
      case "Starting" => "Starting"
      case "Disabled" => "Disabled"
      case "Absent" => "NotPresent"
      case "UnavailableOffline" => "Offline"
      case _ => "Failed"
  {}

  function Translated(states: seq<string>): seq<Status> {
    seq(|states|, i requires 0 <= i < |states| => FromSwordfish(states[i]))
  }

  /** Whatever Swordfish reports, aggregating from Ready gives a status DWS knows. */
  lemma AggregateIsKnownToDWS(states: seq<string>)
    ensures ToDWS(Fold(READY, Translated(states))) != DWS_UNKNOWN
    ensures Fold(READY, Translated(states)) == READY <==> forall i :: 0 <= i < |states| ==> states[i] == "Enabled"
  {
    var reports := Translated(states);
    FoldRank(READY, reports);
    DWSKnowsGradedStates(Fold(READY, reports), READY);
    WorstRankIsMaximum(0, reports);
    if Fold(READY, reports) == READY {
      forall i | 0 <= i < |states| ensures states[i] == "Enabled" {
        assert reports[i] in reports;
        assert Rank(reports[i]) == 0;
      }
    }
  }

  predicate Known(state: string) {
    state in {"Enabled", "Starting", "Disabled", "Absent", "UnavailableOffline"}
  }

  lemma FailedMeans(states: seq<string>)
    ensures Fold(READY, Translated(states)) == FAILED <==> exists state :: state in states && !Known(state)
  {
    var reports := Translated(states);
    FoldMeans(READY, reports);
    forall i | 0 <= i < |states| ensures reports[i] == FAILED <==> !Known(states[i]) {}
    if FAILED in reports {
      var i :| 0 <= i < |reports| && reports[i] == FAILED;
      assert states[i] in states && !Known(states[i]);
    }
    if state :| state in states && !Known(state) {
      var i :| 0 <= i < |states| && states[i] == state;
      assert reports[i] == FAILED;
    }
  }

  /** End to end: DWS reads Ready exactly if every state is Enabled, and Failed exactly if some state is none of the
      five that are known. */
  lemma AggregateAtDWS(states: seq<string>)
    ensures var told := ToDWS(Fold(READY, Translated(states)));
      && (told == "Ready" <==> forall i :: 0 <= i < |states| ==> states[i] == "Enabled")
      && (told == "Failed" <==> exists state :: state in states && !Known(state))
  {
    AggregateIsKnownToDWS(states);
    FailedMeans(states);
    var now := Fold(READY, Translated(states));
    DWSKnowsGradedStates(now, READY);
    DWSKnowsGradedStates(now, FAILED);
    GradedKeepTheirText(now);
  }

  // ---------- Health ----------

  type Health = string

  const OKAY: Health := "OK"
  const WARNING: Health := "Warning"
  const CRITICAL: Health := "Critical"

  function WorseHealth(health: Health, report: Health): Health {
    if report == WARNING && health == OKAY then WARNING
    else if report == CRITICAL then CRITICAL
    else health
  }

  method UpdateHealthIfWorseThan(report: Health, health: Cell<Health>)
    modifies health
    ensures health.value == WorseHealth(old(health.value), report)
  {
    if report == WARNING {
      if health.value == OKAY {
        health.value := WARNING;
      }
    } else if report == CRITICAL {
      if health.value != CRITICAL {
        health.value := CRITICAL;
      }
    }
  }

  function FoldHealth(start: Health, reports: seq<Health>): Health {
    if reports == [] then start
    else WorseHealth(FoldHealth(start, reports[..|reports| - 1]), reports[|reports| - 1])
  }

  method AggregateHealth(health: Cell<Health>, reports: seq<Health>)
    modifies health
    ensures health.value == FoldHealth(old(health.value), reports)
  {
    for i := 0 to |reports|
      invariant health.value == FoldHealth(old(health.value), reports[..i])
    {
      assert reports[..i + 1][..i] == reports[..i];
      UpdateHealthIfWorseThan(reports[i], health);
    }
    assert reports[..|reports|] == reports;
  }

  /** None where the source panics. */
  function HealthFromSwordfish(health: string): Option<Health> {
    match health
    case "OK" => Some(OKAY)
    case "Warning" => Some(WARNING)
    case "Critical" => Some(CRITICAL)
    case _ => None
  }

  predicate IsHealth(h: Health) {
    h == OKAY || h == WARNING || h == CRITICAL
  }

  function Severity(h: Health): nat {
    if h == CRITICAL then 2 else if h == WARNING then 1 else 0
  }

  /** Over the three healths, aggregation is the maximum of the start and the reports. */
  lemma {:induction false} HealthIsMaximum(start: Health, reports: seq<Health>)
    requires IsHealth(start) && forall r :: r in reports ==> IsHealth(r)
    ensures var now := FoldHealth(start, reports);
      && (now == start || now in reports)
      && Severity(start) <= Severity(now)
      && forall r :: r in reports ==> Severity(r) <= Severity(now)
  {
    if reports != [] {
      var n := |reports| - 1;
      assert reports == reports[..n] + [reports[n]];
      HealthIsMaximum(start, reports[..n]);
    }
  }

  /** So reordering or repeating reports changes nothing, and neither does aggregating them in two batches. */
  lemma HealthIgnoresOrder(start: Health, reports: seq<Health>, others: seq<Health>)
    requires IsHealth(start) && forall r :: r in reports ==> IsHealth(r)
    requires forall r :: r in reports <==> r in others
    ensures FoldHealth(start, reports) == FoldHealth(start, others)
  {
    HealthIsMaximum(start, reports);
    HealthIsMaximum(start, others);
  }

  lemma {:induction false} HealthInBatches(start: Health, first: seq<Health>, second: seq<Health>)
    ensures FoldHealth(start, first + second) == FoldHealth(FoldHealth(start, first), second)
  {
    if second == [] {
      assert first + second == first;
    } else {
      var n := |second| - 1;
      HealthInBatches(start, first, second[..n]);
      assert (first + second)[..|first + second| - 1] == first + second[..n];
    }
  }

  /** Aggregating what Swordfish reports, from OK: the result is OK exactly if every report is, and Critical exactly if
      some report is. */
  lemma SwordfishHealthsAggregate(reports: seq<string>, healths: seq<Health>)
    requires |healths| == |reports|
    requires forall i :: 0 <= i < |reports| ==> HealthFromSwordfish(reports[i]) == Some(healths[i])
    ensures FoldHealth(OKAY, healths) == OKAY <==> forall i :: 0 <= i < |reports| ==> reports[i] == "OK"
    ensures FoldHealth(OKAY, healths) == CRITICAL <==> exists i :: 0 <= i < |reports| && reports[i] == "Critical"
  {
    forall r | r in healths ensures IsHealth(r) {
      var i :| 0 <= i < |healths| && healths[i] == r;
      assert HealthFromSwordfish(reports[i]) == Some(r);
    }
    HealthIsMaximum(OKAY, healths);
    var now := FoldHealth(OKAY, healths);
    forall i | 0 <= i < |reports|
      ensures healths[i] in healths
      ensures reports[i] == "OK" <==> healths[i] == OKAY
      ensures reports[i] == "Critical" <==> healths[i] == CRITICAL
    {
      assert HealthFromSwordfish(reports[i]) == Some(healths[i]);
    }
    if now in healths {
      var i :| 0 <= i < |healths| && healths[i] == now;
    }
  }
}
