/**
 * The health monitor's verdicts: fixed thresholds (the free-space minimum
 * comes from the configuration), the issues and warnings a metrics sample
 * raises, the overall status, and the advice given for each issue.
 *
 * Metric values are reals that are only compared. Python's rendering of a
 * float with one or two decimals is a parameter (`Render`); sampling the
 * metrics is not part of this model.
 */
module Health {
  import opened Wrappers
  import Strings

  /** One metrics sample; `temperature` holds the thermal-zone readings, if any were found. */
  datatype Metrics = Metrics(
    timestamp: real,
    diskFreeGb: real,
    memoryAvailableGb: real,
    memoryUsedPercent: real,
    cpuPercent: real,
    loadAverage: Option<real>,
    networkConnected: bool,
    flatpakRepoAccessible: bool,
    temperature: Option<seq<real>>)

  datatype Thresholds = Thresholds(
    diskMinGb: real,
    memoryMaxPercent: real,
    cpuMaxPercent: real,
    temperatureMaxCelsius: real)

  const DefaultMinFreeGb: real := 2.0
  const LoadLimit: real := 4.0
  /** The margin below a maximum where a warning starts. */
  const Margin: real := 10.0

  /**
   * The thresholds of a new monitor: `update_behavior.min_free_space_gb`
   * when the configuration has it, 2.0 otherwise; the others are fixed.
   */
  function MakeThresholds(configuredMinFree: Option<real>): (t: Thresholds)
    ensures configuredMinFree.None? ==> t.diskMinGb == DefaultMinFreeGb
    ensures configuredMinFree.Some? ==> t.diskMinGb == configuredMinFree.value
    ensures t.memoryMaxPercent == 90.0 && t.cpuMaxPercent == 95.0 && t.temperatureMaxCelsius == 85.0
  {
    Thresholds(if configuredMinFree.Some? then configuredMinFree.value else DefaultMinFreeGb, 90.0, 95.0, 85.0)
  }

  /** f"{x:.1f}" and f"{x:.2f}". */
  datatype Render = Render(oneDecimal: real -> string, twoDecimals: real -> string)

  /** The degree sign as the source file spells it (a mis-decoded "°"). */
  const DegreesSuffix: string := "\U{AC}\U{221E}C"

  // ---------------------------------------------------------------------
  // Messages
  // ---------------------------------------------------------------------

  function LowDisk(r: Render, free: real): string { "Low disk space: " + r.oneDecimal(free) + "GB available" }
  function DiskGettingLow(r: Render, free: real): string { "Disk space getting low: " + r.oneDecimal(free) + "GB available" }
  function HighMemory(r: Render, used: real): string { "High memory usage: " + r.oneDecimal(used) + "%" }
  function MemoryElevated(r: Render, used: real): string { "Memory usage elevated: " + r.oneDecimal(used) + "%" }
  function HighCpu(r: Render, cpu: real): string { "High CPU usage: " + r.oneDecimal(cpu) + "%" }
  function HighLoad(r: Render, load: real): string { "High system load: " + r.twoDecimals(load) }
  function HighTemperature(r: Render, temp: real): string { "High temperature: " + r.oneDecimal(temp) + DegreesSuffix }
  function TemperatureElevated(r: Render, temp: real): string { "Temperature elevated: " + r.oneDecimal(temp) + DegreesSuffix }
  const NoNetwork: string := "No network connectivity"
  const ReposUnreachable: string := "Flatpak repositories not accessible"

  // ---------------------------------------------------------------------
  // One verdict per check
  // ---------------------------------------------------------------------

  /** What one check contributes: nothing, a warning, or an issue. */
  datatype Verdict = Fine | Warning(message: string) | Issue(message: string)

  function DiskVerdict(t: Thresholds, r: Render, free: real): (v: Verdict)
    ensures v.Issue? <==> free < t.diskMinGb
    ensures v.Warning? <==> t.diskMinGb <= free < t.diskMinGb * 2.0
  {
    if free < t.diskMinGb then Issue(LowDisk(r, free))
    else if free < t.diskMinGb * 2.0 then Warning(DiskGettingLow(r, free))
    else Fine
  }

  function MemoryVerdict(t: Thresholds, r: Render, used: real): (v: Verdict)
    ensures v.Issue? <==> used > t.memoryMaxPercent
    ensures v.Warning? <==> t.memoryMaxPercent - Margin < used <= t.memoryMaxPercent
  {
    if used > t.memoryMaxPercent then Issue(HighMemory(r, used))
    else if used > t.memoryMaxPercent - Margin then Warning(MemoryElevated(r, used))
    else Fine
  }

  /** High CPU is only ever a warning. */
  function CpuVerdict(t: Thresholds, r: Render, cpu: real): (v: Verdict)
    ensures !v.Issue?
    ensures v.Warning? <==> cpu > t.cpuMaxPercent
  {
    if cpu > t.cpuMaxPercent then Warning(HighCpu(r, cpu)) else Fine
  }

  /** A high load average is only ever a warning; a missing or zero load is ignored. */
  function LoadVerdict(r: Render, load: Option<real>): (v: Verdict)
    ensures !v.Issue?
    ensures v.Warning? <==> load.Some? && load.value > LoadLimit
    ensures load.None? || load.value == 0.0 ==> v.Fine?
  {
    if load.Some? && load.value != 0.0 && load.value > LoadLimit then Warning(HighLoad(r, load.value)) else Fine
  }

  /** `max(readings)`. */
  function MaxReading(readings: seq<real>): (m: real)
    requires readings != []
    ensures m in readings
    ensures forall k :: 0 <= k < |readings| ==> readings[k] <= m
  {
    if |readings| == 1 then readings[0]
    else
      var rest := MaxReading(readings[1..]);
      if readings[0] >= rest then readings[0] else rest
  }

  /** Readings present and not empty: the temperature check runs. */
  predicate HasReadings(temps: Option<seq<real>>) {
    temps.Some? && temps.value != []
  }

  /** Some zone is above `limit`. */
  predicate SomeZoneAbove(temps: Option<seq<real>>, limit: real) {
    temps.Some? && exists k :: 0 <= k < |temps.value| && temps.value[k] > limit
  }

  /** The hottest zone decides: above the maximum an issue, within the margin below it a warning. */
  function TemperatureVerdict(t: Thresholds, r: Render, temps: Option<seq<real>>): (v: Verdict)
    ensures !HasReadings(temps) ==> v.Fine?
    ensures v.Issue? <==> SomeZoneAbove(temps, t.temperatureMaxCelsius)
    ensures v.Warning? <==>
      SomeZoneAbove(temps, t.temperatureMaxCelsius - Margin) && !SomeZoneAbove(temps, t.temperatureMaxCelsius)
  {
    if !HasReadings(temps) then Fine
    else
      var hottest := MaxReading(temps.value);
      if hottest > t.temperatureMaxCelsius then Issue(HighTemperature(r, hottest))
      else if hottest > t.temperatureMaxCelsius - Margin then Warning(TemperatureElevated(r, hottest))
      else Fine
  }

  function NetworkVerdict(connected: bool): (v: Verdict)
    ensures !v.Warning? && (v.Issue? <==> !connected)
  {
    if connected then Fine else Issue(NoNetwork)
  }

  function RepoVerdict(accessible: bool): (v: Verdict)
    ensures !v.Warning? && (v.Issue? <==> !accessible)
  {
    if accessible then Fine else Issue(ReposUnreachable)
  }

  /** What a verdict adds to the issues. */
  function IssueOf(v: Verdict): seq<string> {
    if v.Issue? then [v.message] else []
  }

  /** What a verdict adds to the warnings. */
  function WarningOf(v: Verdict): seq<string> {
    if v.Warning? then [v.message] else []
  }

  // ---------------------------------------------------------------------
  // check_health_status
  // ---------------------------------------------------------------------

  datatype HealthStatus = HealthStatus(
    status: string,
    issues: seq<string>,
    warnings: seq<string>,
    metrics: Metrics,
    safeToProceed: bool)

  /** 'critical' above two issues, 'warning' with one or two issues or with warnings only, else 'healthy'. */
  function StatusOf(issues: seq<string>, warnings: seq<string>): (s: string)
    ensures s == "critical" <==> |issues| > 2
    ensures s == "warning" <==> (1 <= |issues| <= 2) || (issues == [] && warnings != [])
    ensures s == "healthy" <==> issues == [] && warnings == []
  {
    if issues != [] then (if |issues| > 2 then "critical" else "warning")
    else if warnings != [] then "warning"
    else "healthy"
  }

  /** The report for a metrics sample: issues and warnings in the order the checks run. */
  function HealthOf(t: Thresholds, r: Render, m: Metrics): (s: HealthStatus)
    ensures s.metrics == m && (s.safeToProceed <==> s.issues == [])
  {
    var disk := DiskVerdict(t, r, m.diskFreeGb);
    var memory := MemoryVerdict(t, r, m.memoryUsedPercent);
    var temperature := TemperatureVerdict(t, r, m.temperature);
    var issues := IssueOf(disk) + IssueOf(memory) + IssueOf(temperature)
      + IssueOf(NetworkVerdict(m.networkConnected)) + IssueOf(RepoVerdict(m.flatpakRepoAccessible));
    var warnings := WarningOf(disk) + WarningOf(memory) + WarningOf(CpuVerdict(t, r, m.cpuPercent))
      + WarningOf(LoadVerdict(r, m.loadAverage)) + WarningOf(temperature);
    HealthStatus(StatusOf(issues, warnings), issues, warnings, m, |issues| == 0)
  }

  /** Appends a check's message to the issues or to the warnings, as its verdict says. */
  method Record(v: Verdict, issues: seq<string>, warnings: seq<string>)
    returns (issues': seq<string>, warnings': seq<string>)
    ensures issues' == issues + IssueOf(v) && warnings' == warnings + WarningOf(v)
  {
    issues', warnings' := issues, warnings;
    match v
    case Issue(message) => issues' := issues' + [message];
    case Warning(message) => warnings' := warnings' + [message];
    case Fine =>
  }

  /** check_health_status: runs the checks in order, appending to `issues` and `warnings`. */
  method CheckHealthStatus(t: Thresholds, r: Render, m: Metrics) returns (s: HealthStatus)
    ensures s == HealthOf(t, r, m)
  {
    var issues: seq<string> := [];
    var warnings: seq<string> := [];
    ghost var disk := DiskVerdict(t, r, m.diskFreeGb);
    ghost var memory := MemoryVerdict(t, r, m.memoryUsedPercent);
    ghost var temperature := TemperatureVerdict(t, r, m.temperature);
    issues, warnings := Record(DiskVerdict(t, r, m.diskFreeGb), issues, warnings);
    assert issues == IssueOf(disk) && warnings == WarningOf(disk);
    issues, warnings := Record(MemoryVerdict(t, r, m.memoryUsedPercent), issues, warnings);
    ghost var issues2 := issues;
    issues, warnings := Record(CpuVerdict(t, r, m.cpuPercent), issues, warnings);
    issues, warnings := Record(LoadVerdict(r, m.loadAverage), issues, warnings);
    assert issues == issues2;
    issues, warnings := Record(TemperatureVerdict(t, r, m.temperature), issues, warnings);
    ghost var warnings5 := warnings;
    issues, warnings := Record(NetworkVerdict(m.networkConnected), issues, warnings);
    issues, warnings := Record(RepoVerdict(m.flatpakRepoAccessible), issues, warnings);
    assert warnings == warnings5;
    var status := "healthy";
    if |issues| > 0 {
      status := if |issues| > 2 then "critical" else "warning";
    } else if |warnings| > 0 {
      status := "warning";
    }
    assert status == StatusOf(issues, warnings);
    s := HealthStatus(status, issues, warnings, m, |issues| == 0);
  }

  /** The number of issues is the number of failed checks among disk, memory, temperature, network and repositories. */
  lemma {:induction false} IssueTally(t: Thresholds, r: Render, m: Metrics)
    ensures |HealthOf(t, r, m).issues| ==
      (if m.diskFreeGb < t.diskMinGb then 1 else 0)
      + (if m.memoryUsedPercent > t.memoryMaxPercent then 1 else 0)
      + (if SomeZoneAbove(m.temperature, t.temperatureMaxCelsius) then 1 else 0)
      + (if m.networkConnected then 0 else 1)
      + (if m.flatpakRepoAccessible then 0 else 1)
  {
  }

  /** Losing the network, other things equal, adds exactly one issue. */
  lemma {:induction false} NetworkLossAddsIssue(t: Thresholds, r: Render, m: Metrics)
    requires m.networkConnected
    ensures |HealthOf(t, r, m.(networkConnected := false)).issues| == |HealthOf(t, r, m).issues| + 1
    ensures !HealthOf(t, r, m.(networkConnected := false)).safeToProceed
  {
    IssueTally(t, r, m);
    IssueTally(t, r, m.(networkConnected := false));
  }

  // ---------------------------------------------------------------------
  // recommend_action
  // ---------------------------------------------------------------------

  const DiskAdvice: seq<string> := [
    "Free up disk space before proceeding",
    "Run 'flatpack cleanup' to remove old packages",
    "Consider moving large files to external storage"]
  const MemoryAdvice: seq<string> := [
    "Close unnecessary applications",
    "Wait for system load to decrease",
    "Consider upgrading RAM if this is frequent"]
  const TemperatureAdvice: seq<string> := [
    "Allow system to cool down",
    "Check system cooling/fans",
    "Reduce concurrent operations"]
  const NetworkAdvice: seq<string> := [
    "Check network connectivity",
    "Verify DNS settings",
    "Try again when network is stable"]

  /** The advice for one issue, by the first keyword its lower-cased text contains. */
  function AdviceFor(issue: string): (r: seq<string>)
    ensures r == [] || |r| == 3
  {
    var low := Strings.Lower(issue);
    if Strings.Contains(low, "disk space") then DiskAdvice
    else if Strings.Contains(low, "memory") then MemoryAdvice
    else if Strings.Contains(low, "temperature") then TemperatureAdvice
    else if Strings.Contains(low, "network") then NetworkAdvice
    else []
  }

  /** The lists `f` gives for the elements of `s`, joined in order. */
  function Gather(s: seq<string>, f: string -> seq<string>): seq<string> {
    if s == [] then [] else f(s[0]) + Gather(s[1..], f)
  }

  lemma {:induction false} GatherAppend(a: seq<string>, b: seq<string>, f: string -> seq<string>)
    ensures Gather(a + b, f) == Gather(a, f) + Gather(b, f)
  {
    if a == [] {
      assert a + b == b;
    } else {
      assert (a + b)[1..] == a[1..] + b;
      GatherAppend(a[1..], b, f);
    }
  }

  /** The advice for every issue, in issue order. */
  function Advice(issues: seq<string>): seq<string> {
    Gather(issues, AdviceFor)
  }

  lemma {:induction false} AdviceAppend(a: seq<string>, b: seq<string>)
    ensures Advice(a + b) == Advice(a) + Advice(b)
  {
    GatherAppend(a, b, AdviceFor);
  }

  /** recommend_action: extends the list with each issue's advice. */
  method RecommendAction(health: HealthStatus) returns (recommendations: seq<string>)
    ensures recommendations == Advice(health.issues)
  {
    var issues := health.issues;
    recommendations := [];
    var i := 0;
    while i < |issues|
      invariant 0 <= i <= |issues|
      invariant recommendations == Advice(issues[..i])
    {
      AdviceAppend(issues[..i], [issues[i]]);
      assert Gather([issues[i]], AdviceFor) == AdviceFor(issues[i]) + Gather([], AdviceFor);
      assert issues[..i + 1] == issues[..i] + [issues[i]];
      recommendations := recommendations + AdviceFor(issues[i]);
      i := i + 1;
    }
    assert issues[..i] == issues;
  }

  // ---------------------------------------------------------------------
  // Which advice each issue message draws
  // ---------------------------------------------------------------------

  predicate NumericChar(c: char) {
    '0' <= c <= '9' || c == '.' || c == '-'
  }

  /** The text of a finite float: digits, a point and a sign, never empty. */
  predicate NumericText(s: string) {
    |s| > 0 && forall k :: 0 <= k < |s| ==> NumericChar(s[k])
  }

  /** A renderer that only ever produces numeric text. */
  ghost predicate NumericRender(r: Render) {
    forall x :: NumericText(r.oneDecimal(x))
  }

  lemma {:induction false} LowerNumeric(s: string)
    requires NumericText(s)
    ensures Strings.Lower(s) == s
  {
    assert forall k :: 0 <= k < |s| ==> Strings.LowerChar(s[k]) == s[k];
  }

  /** Lower-casing a message made of literal text around a number. */
  lemma {:induction false} LowerAround(left: string, num: string, right: string, lowLeft: string, lowRight: string)
    requires NumericText(num) && Strings.Lower(left) == lowLeft && Strings.Lower(right) == lowRight
    ensures Strings.Lower(left + num + right) == lowLeft + num + lowRight
  {
    Strings.LowerConcat(left + num, right);
    Strings.LowerConcat(left, num);
    LowerNumeric(num);
  }

  /** A keyword of letters and spaces is found around a number only in the literal text. */
  lemma {:induction false} KeywordAround(left: string, num: string, right: string, keyword: string)
    requires NumericText(num) && |keyword| > 0
    requires forall k :: 0 <= k < |keyword| ==> 'a' <= keyword[k] <= 'z' || keyword[k] == ' '
    ensures Strings.Contains(left + num + right, keyword) <==>
      Strings.Contains(left, keyword) || Strings.Contains(right, keyword)
  {
    Strings.ContainsAroundForeign(left, num, right, keyword);
  }

  /** The lower-cased form of a literal, given as `low`. */
  lemma {:induction false} LowerText(s: string, low: string)
    requires |s| == |low| && forall k :: 0 <= k < |s| ==> low[k] == Strings.LowerChar(s[k])
    ensures Strings.Lower(s) == low
  {
  }

  /** Which keyword an issue's lower-cased text holds first decides its advice. */
  lemma {:induction false} AdviceByKeyword(issue: string)
    ensures var low := Strings.Lower(issue);
      && (Strings.Contains(low, "disk space") ==> AdviceFor(issue) == DiskAdvice)
      && (!Strings.Contains(low, "disk space") && Strings.Contains(low, "memory") ==> AdviceFor(issue) == MemoryAdvice)
      && (!Strings.Contains(low, "disk space") && !Strings.Contains(low, "memory") && Strings.Contains(low, "temperature")
          ==> AdviceFor(issue) == TemperatureAdvice)
  {
  }

  // Each message is lower-cased, then its keywords are located. The facts
  // about the literal text are stated on their own, so that the keyword
  // lemmas reason about a string they know only through those facts.

  lemma {:induction false} LowDiskLower(left: string, num: string, right: string)
    requires left == "Low disk space: " && right == "GB available" && NumericText(num)
    ensures Strings.Lower(left + num + right) == "low disk space: " + num + "gb available"
  {
    var lowLeft, lowRight := "low disk space: ", "gb available";
    LowerText(left, lowLeft);
    LowerText(right, lowRight);
    LowerAround(left, num, right, lowLeft, lowRight);
  }

  lemma {:induction false} LowDiskText(lowLeft: string)
    requires lowLeft == "low disk space: "
    ensures |lowLeft| >= 14 && lowLeft[4..14] == "disk space"
  {
  }

  lemma {:induction false} LowDiskKeywords(lowLeft: string, num: string, lowRight: string)
    requires NumericText(num) && |lowLeft| >= 14 && lowLeft[4..14] == "disk space"
    ensures Strings.Contains(lowLeft + num + lowRight, "disk space")
  {
    Strings.ContainsAt(lowLeft, "disk space", 4);
    KeywordAround(lowLeft, num, lowRight, "disk space");
  }

  lemma {:induction false} LowDiskAdvice(left: string, num: string, right: string)
    requires left == "Low disk space: " && right == "GB available" && NumericText(num)
    ensures AdviceFor(left + num + right) == DiskAdvice
  {
    var lowLeft, lowRight := "low disk space: ", "gb available";
    LowDiskLower(left, num, right);
    LowDiskText(lowLeft);
    LowDiskKeywords(lowLeft, num, lowRight);
    AdviceByKeyword(left + num + right);
  }

  lemma {:induction false} HighMemoryLower(left: string, num: string, right: string)
    requires left == "High memory usage: " && right == "%" && NumericText(num)
    ensures Strings.Lower(left + num + right) == "high memory usage: " + num + "%"
  {
    var lowLeft := "high memory usage: ";
    LowerText(left, lowLeft);
    LowerText(right, right);
    LowerAround(left, num, right, lowLeft, right);
  }

  lemma {:induction false} HighMemoryLacks(lowLeft: string, right: string)
    requires lowLeft == "high memory usage: " && right == "%"
    ensures 'd' !in lowLeft && 'd' !in right
  {
  }

  lemma {:induction false} HighMemoryText(lowLeft: string)
    requires lowLeft == "high memory usage: "
    ensures |lowLeft| >= 11 && lowLeft[5..11] == "memory"
  {
  }

  lemma {:induction false} HighMemoryKeywords(lowLeft: string, num: string, right: string)
    requires NumericText(num) && 'd' !in lowLeft && 'd' !in right
    requires |lowLeft| >= 11 && lowLeft[5..11] == "memory"
    ensures !Strings.Contains(lowLeft + num + right, "disk space")
    ensures Strings.Contains(lowLeft + num + right, "memory")
  {
    Strings.NotContainsChar(lowLeft, "disk space", 'd');
    Strings.NotContainsChar(right, "disk space", 'd');
    KeywordAround(lowLeft, num, right, "disk space");
    Strings.ContainsAt(lowLeft, "memory", 5);
    KeywordAround(lowLeft, num, right, "memory");
  }

  lemma {:induction false} HighMemoryAdvice(left: string, num: string, right: string)
    requires left == "High memory usage: " && right == "%" && NumericText(num)
    ensures AdviceFor(left + num + right) == MemoryAdvice
  {
    var lowLeft := "high memory usage: ";
    HighMemoryLower(left, num, right);
    HighMemoryLacks(lowLeft, right);
    HighMemoryText(lowLeft);
    HighMemoryKeywords(lowLeft, num, right);
    AdviceByKeyword(left + num + right);
  }

  lemma {:induction false} HighTemperatureLower(left: string, num: string, right: string)
    requires left == "High temperature: " && right == DegreesSuffix && NumericText(num)
    ensures Strings.Lower(left + num + right) == "high temperature: " + num + "\U{AC}\U{221E}c"
  {
    var lowLeft, lowRight := "high temperature: ", "\U{AC}\U{221E}c";
    LowerText(left, lowLeft);
    LowerText(right, lowRight);
    LowerAround(left, num, right, lowLeft, lowRight);
  }

  lemma {:induction false} HighTemperatureLacks(lowLeft: string, lowRight: string, c: char)
    requires lowLeft == "high temperature: " && lowRight == "\U{AC}\U{221E}c" && c in "dy"
    ensures c !in lowLeft && c !in lowRight
  {
  }

  lemma {:induction false} HighTemperatureText(lowLeft: string)
    requires lowLeft == "high temperature: "
    ensures |lowLeft| >= 16 && lowLeft[5..16] == "temperature"
  {
  }

  lemma {:induction false} HighTemperatureMissing(lowLeft: string, num: string, lowRight: string)
    requires NumericText(num)
    requires 'd' !in lowLeft && 'd' !in lowRight && 'y' !in lowLeft && 'y' !in lowRight
    ensures !Strings.Contains(lowLeft + num + lowRight, "disk space")
    ensures !Strings.Contains(lowLeft + num + lowRight, "memory")
  {
    Strings.NotContainsChar(lowLeft, "disk space", 'd');
    Strings.NotContainsChar(lowRight, "disk space", 'd');
    KeywordAround(lowLeft, num, lowRight, "disk space");
    Strings.NotContainsChar(lowLeft, "memory", 'y');
    Strings.NotContainsChar(lowRight, "memory", 'y');
    KeywordAround(lowLeft, num, lowRight, "memory");
  }

  lemma {:induction false} HighTemperatureKeyword(lowLeft: string, num: string, lowRight: string)
    requires NumericText(num) && |lowLeft| >= 16 && lowLeft[5..16] == "temperature"
    ensures Strings.Contains(lowLeft + num + lowRight, "temperature")
  {
    Strings.ContainsAt(lowLeft, "temperature", 5);
    KeywordAround(lowLeft, num, lowRight, "temperature");
  }

  lemma {:induction false} HighTemperatureAdvice(left: string, num: string, right: string)
    requires left == "High temperature: " && right == DegreesSuffix && NumericText(num)
    ensures AdviceFor(left + num + right) == TemperatureAdvice
  {
    var lowLeft, lowRight := "high temperature: ", "\U{AC}\U{221E}c";
    HighTemperatureLower(left, num, right);
    HighTemperatureLacks(lowLeft, lowRight, 'd');
    HighTemperatureLacks(lowLeft, lowRight, 'y');
    HighTemperatureText(lowLeft);
    HighTemperatureMissing(lowLeft, num, lowRight);
    HighTemperatureKeyword(lowLeft, num, lowRight);
    AdviceByKeyword(left + num + right);
  }

  lemma {:induction false} NoNetworkLacks(low: string, c: char)
    requires low == "no network connectivity" && c in "dm"
    ensures c !in low
  {
  }

  lemma {:induction false} NoNetworkText(low: string)
    requires low == "no network connectivity"
    ensures |low| >= 10 && low[3..10] == "network"
  {
  }

  lemma {:induction false} NoNetworkKeywords(low: string)
    requires 'd' !in low && 'm' !in low && |low| >= 10 && low[3..10] == "network"
    ensures !Strings.Contains(low, "disk space") && !Strings.Contains(low, "memory")
    ensures !Strings.Contains(low, "temperature") && Strings.Contains(low, "network")
  {
    Strings.NotContainsChar(low, "disk space", 'd');
    Strings.NotContainsChar(low, "memory", 'm');
    Strings.NotContainsChar(low, "temperature", 'm');
    Strings.ContainsAt(low, "network", 3);
  }

  lemma {:induction false} NoNetworkAdvice(issue: string)
    requires issue == NoNetwork
    ensures AdviceFor(issue) == NetworkAdvice
  {
    var low := "no network connectivity";
    LowerText(issue, low);
    NoNetworkLowKeywords(low);
  }

  lemma {:induction false} NoNetworkLowKeywords(low: string)
    requires low == "no network connectivity"
    ensures !Strings.Contains(low, "disk space") && !Strings.Contains(low, "memory")
    ensures !Strings.Contains(low, "temperature") && Strings.Contains(low, "network")
  {
    NoNetworkLacks(low, 'd');
    NoNetworkLacks(low, 'm');
    NoNetworkText(low);
    NoNetworkKeywords(low);
  }

  lemma {:induction false} ReposUnreachableLacks(low: string, c: char)
    requires low == "flatpak repositories not accessible" && c in "dmw"
    ensures c !in low
  {
  }

  lemma {:induction false} ReposUnreachableKeywords(low: string)
    requires 'd' !in low && 'm' !in low && 'w' !in low
    ensures !Strings.Contains(low, "disk space") && !Strings.Contains(low, "memory")
    ensures !Strings.Contains(low, "temperature") && !Strings.Contains(low, "network")
  {
    Strings.NotContainsChar(low, "disk space", 'd');
    Strings.NotContainsChar(low, "memory", 'm');
    Strings.NotContainsChar(low, "temperature", 'm');
    Strings.NotContainsChar(low, "network", 'w');
  }

  /** The repository issue names no keyword, so it draws no advice. */
  lemma {:induction false} ReposUnreachableAdvice(issue: string)
    requires issue == ReposUnreachable
    ensures AdviceFor(issue) == []
  {
    var low := "flatpak repositories not accessible";
    LowerText(issue, low);
    ReposUnreachableLowKeywords(low);
  }

  lemma {:induction false} ReposUnreachableLowKeywords(low: string)
    requires low == "flatpak repositories not accessible"
    ensures !Strings.Contains(low, "disk space") && !Strings.Contains(low, "memory")
    ensures !Strings.Contains(low, "temperature") && !Strings.Contains(low, "network")
  {
    ReposUnreachableLacks(low, 'd');
    ReposUnreachableLacks(low, 'm');
    ReposUnreachableLacks(low, 'w');
    ReposUnreachableKeywords(low);
  }

  /** The advice a verdict's issue draws. */
  function VerdictAdvice(v: Verdict): seq<string> {
    if v.Issue? then AdviceFor(v.message) else []
  }

  lemma {:induction false} AdviceOfVerdict(v: Verdict)
    ensures Advice(IssueOf(v)) == VerdictAdvice(v)
  {
    if v.Issue? {
      assert Gather([v.message], AdviceFor) == AdviceFor(v.message) + Gather([], AdviceFor);
    }
  }

  /** The advice for a sample's issues, check by check. */
  lemma {:induction false} AdviceByCheck(t: Thresholds, r: Render, m: Metrics)
    ensures Advice(HealthOf(t, r, m).issues) ==
      VerdictAdvice(DiskVerdict(t, r, m.diskFreeGb))
      + VerdictAdvice(MemoryVerdict(t, r, m.memoryUsedPercent))
      + VerdictAdvice(TemperatureVerdict(t, r, m.temperature))
      + VerdictAdvice(NetworkVerdict(m.networkConnected))
      + VerdictAdvice(RepoVerdict(m.flatpakRepoAccessible))
  {
    var disk := DiskVerdict(t, r, m.diskFreeGb);
    var memory := MemoryVerdict(t, r, m.memoryUsedPercent);
    var temperature := TemperatureVerdict(t, r, m.temperature);
    var network := NetworkVerdict(m.networkConnected);
    var repo := RepoVerdict(m.flatpakRepoAccessible);
    AdviceAppend(IssueOf(disk) + IssueOf(memory) + IssueOf(temperature) + IssueOf(network), IssueOf(repo));
    AdviceAppend(IssueOf(disk) + IssueOf(memory) + IssueOf(temperature), IssueOf(network));
    AdviceAppend(IssueOf(disk) + IssueOf(memory), IssueOf(temperature));
    AdviceAppend(IssueOf(disk), IssueOf(memory));
    AdviceOfVerdict(disk);
    AdviceOfVerdict(memory);
    AdviceOfVerdict(temperature);
    AdviceOfVerdict(network);
    AdviceOfVerdict(repo);
  }

  lemma {:induction false} DiskCheckAdvice(t: Thresholds, r: Render, free: real)
    requires NumericRender(r)
    ensures VerdictAdvice(DiskVerdict(t, r, free)) == if free < t.diskMinGb then DiskAdvice else []
  {
    if free < t.diskMinGb {
      LowDiskAdvice("Low disk space: ", r.oneDecimal(free), "GB available");
    }
  }

  lemma {:induction false} MemoryCheckAdvice(t: Thresholds, r: Render, used: real)
    requires NumericRender(r)
    ensures VerdictAdvice(MemoryVerdict(t, r, used)) == if used > t.memoryMaxPercent then MemoryAdvice else []
  {
    if used > t.memoryMaxPercent {
      HighMemoryAdvice("High memory usage: ", r.oneDecimal(used), "%");
    }
  }

  lemma {:induction false} TemperatureCheckAdvice(t: Thresholds, r: Render, temps: Option<seq<real>>)
    requires NumericRender(r)
    ensures VerdictAdvice(TemperatureVerdict(t, r, temps)) ==
      if SomeZoneAbove(temps, t.temperatureMaxCelsius) then TemperatureAdvice else []
  {
    if TemperatureVerdict(t, r, temps).Issue? {
      HighTemperatureAdvice("High temperature: ", r.oneDecimal(MaxReading(temps.value)), DegreesSuffix);
    }
  }

  lemma {:induction false} NetworkCheckAdvice(connected: bool)
    ensures VerdictAdvice(NetworkVerdict(connected)) == if connected then [] else NetworkAdvice
  {
    var v := NetworkVerdict(connected);
    if v.Issue? {
      NoNetworkAdvice(v.message);
    }
  }

  lemma {:induction false} RepoCheckAdvice(accessible: bool)
    ensures VerdictAdvice(RepoVerdict(accessible)) == []
  {
    var v := RepoVerdict(accessible);
    if v.Issue? {
      ReposUnreachableAdvice(v.message);
    }
  }

  /** The advice the resource checks' verdicts draw, for one sample. */
  lemma {:induction false} ResourceChecksAdvice(t: Thresholds, r: Render, m: Metrics)
    requires NumericRender(r)
    ensures VerdictAdvice(DiskVerdict(t, r, m.diskFreeGb)) == if m.diskFreeGb < t.diskMinGb then DiskAdvice else []
    ensures VerdictAdvice(MemoryVerdict(t, r, m.memoryUsedPercent)) ==
      if m.memoryUsedPercent > t.memoryMaxPercent then MemoryAdvice else []
  {
    DiskCheckAdvice(t, r, m.diskFreeGb);
    MemoryCheckAdvice(t, r, m.memoryUsedPercent);
  }

  /** The advice the connectivity checks' verdicts draw, for one sample. */
  lemma {:induction false} ConnectivityChecksAdvice(m: Metrics)
    ensures VerdictAdvice(NetworkVerdict(m.networkConnected)) == if m.networkConnected then [] else NetworkAdvice
    ensures VerdictAdvice(RepoVerdict(m.flatpakRepoAccessible)) == []
  {
    NetworkCheckAdvice(m.networkConnected);
    RepoCheckAdvice(m.flatpakRepoAccessible);
  }

  /**
   * The advice for a sample's issues: disk, memory, temperature and
   * network advice for the checks that failed, in that order; unreachable
   * repositories add none.
   */
  lemma {:induction false} HealthAdvice(t: Thresholds, r: Render, m: Metrics)
    requires NumericRender(r)
    ensures Advice(HealthOf(t, r, m).issues) ==
      (if m.diskFreeGb < t.diskMinGb then DiskAdvice else [])
      + (if m.memoryUsedPercent > t.memoryMaxPercent then MemoryAdvice else [])
      + (if SomeZoneAbove(m.temperature, t.temperatureMaxCelsius) then TemperatureAdvice else [])
      + (if m.networkConnected then [] else NetworkAdvice)
  {
    ResourceChecksAdvice(t, r, m);
    TemperatureCheckAdvice(t, r, m.temperature);
    ConnectivityChecksAdvice(m);
    AdviceByCheck(t, r, m);
  }
}
