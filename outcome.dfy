/** The build outcome as the build run records it: status, source, name, date
    and elapsed time, and the normalisation of the configured server URL. */
module Outcome {
  import opened Wrappers
  import opened Text

  /** CCNet's IntegrationStatus. */
  datatype IntegrationStatus = Success | Failure | Exception | Unknown | Cancelled

  /** CCNet's BuildCondition. */
  datatype BuildCondition = NoBuild | IfModificationExists | ForceBuild

  /** IIntegrationResult.Succeeded. */
  predicate Succeeded(status: IntegrationStatus) {
    status == Success
  }

  /** DetermineStatus: the value given to the build run's Status; null for
      every outcome other than success and failure. */
  function DetermineStatus(status: IntegrationStatus): (r: Option<string>)
    ensures r == Some("Passed") <==> Succeeded(status)
    ensures r == Some("Failed") <==> status == Failure
    ensures r == None <==> status in {Exception, Unknown, Cancelled}
  {
    match status
    case Success => Some("Passed")
    case Failure => Some("Failed")
    case _ => None
  }

  /** DetermineSource: the value given to the build run's Source; null for
      every condition other than a forced or a modification-triggered build. */
  function DetermineSource(condition: BuildCondition): (r: Option<string>)
    ensures r == Some("Forced") <==> condition == ForceBuild
    ensures r == Some("Trigger") <==> condition == IfModificationExists
    ensures r == None <==> condition == NoBuild
  {
    match condition
    case ForceBuild => Some("Forced")
    case IfModificationExists => Some("Trigger")
    case _ => None
  }

  /** The name given to the build run: ProjectName + " - " + Label. */
  function RunName(projectName: string, buildLabel: string): (r: string)
    ensures StartsWith(r, projectName + " - ") && EndsWith(r, buildLabel)
    ensures |r| == |projectName| + 3 + |buildLabel|
  {
    projectName + " - " + buildLabel
  }

  /** Two runs of one project get the same name only when their labels agree. */
  lemma RunNameDeterminesLabel(projectName: string, label1: string, label2: string)
    requires RunName(projectName, label1) == RunName(projectName, label2)
    ensures label1 == label2
  {
    var n := RunName(projectName, label1);
    assert label1 == n[|projectName| + 3..];
    assert label2 == n[|projectName| + 3..];
  }

  /** The Url getter: the configured URL unchanged when it ends in "/",
      otherwise the URL followed by "//" (two slashes, as the getter is written). */
  function NormalizedUrl(url: string): (r: string)
    ensures StartsWith(r, url) && EndsWith(r, "/")
    ensures EndsWith(url, "/") ==> r == url
    ensures !EndsWith(url, "/") ==> r == url + "//"
  {
    if EndsWith(url, "/") then url else url + "//"
  }

  /** Reading the URL back through the getter a second time changes nothing. */
  lemma NormalizedUrlIdempotent(url: string)
    ensures NormalizedUrl(NormalizedUrl(url)) == NormalizedUrl(url)
  {
  }

  /** DateTime.MinValue, in ticks: the sentinel for "the end time was never stamped". */
  const MinValue: int := 0

  /** Ticks in one millisecond. */
  const TicksPerMillisecond: int := 10000

  /** GetBuildDate: the end time, or the clock reading now when the end time is unset. */
  function BuildDate(endTime: int, now: int): (r: int)
    ensures endTime != MinValue ==> r == endTime
    ensures endTime == MinValue ==> r == now
  {
    if endTime == MinValue then now else endTime
  }

  /** GetElapsed: (end time, or now when unset) minus start time, in milliseconds.
      The source computes TimeSpan.TotalMilliseconds as a double; here the
      value is the exact quotient. */
  function Elapsed(startTime: int, endTime: int, now: int): (ms: real)
    ensures ms * TicksPerMillisecond as real == (BuildDate(endTime, now) - startTime) as real
    ensures BuildDate(endTime, now) < startTime ==> ms < 0.0
  {
    var time := if endTime == MinValue then now else endTime;
    (time - startTime) as real / TicksPerMillisecond as real
  }
}
