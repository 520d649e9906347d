/**
 * The local-server service's in-memory log buffers, the service-to-container
 * name table, and the way the Airflow status combines its two containers.
 * Docker itself is an input: a container's running flag or the logs it
 * returns.
 */
module LocalServer {
  import opened Wrappers
  import opened Strings

  /** At most this many lines are kept per service. */
  const MaxLogLines: nat := 1000

  /** The line `appendLog` stores: the timestamp (given, not read from a clock) in brackets, a space and the text. */
  function Timestamped(stamp: string, logLine: string): (r: string)
    ensures |r| == |stamp| + |logLine| + 3 && r[0] == '[' && EndsWith(r, logLine)
  {
    var r := "[" + stamp + "] " + logLine;
    assert r[|r| - |logLine|..] == logLine;
    r
  }

  /** What eviction leaves of a buffer: its last `MaxLogLines` lines. */
  function Newest(logs: seq<string>): seq<string>
  {
    if |logs| > MaxLogLines then logs[|logs| - MaxLogLines..] else logs
  }

  /**
   * A buffer after one more line: bounded, the new line last, nothing but
   * the oldest lines dropped, and nothing dropped while there is room.
   */
  lemma NewestRules(logs: seq<string>, line: string)
    ensures var r := Newest(logs + [line]);
      && |r| <= MaxLogLines
      && |r| > 0 && r[|r| - 1] == line
      && r == (logs + [line])[|logs| + 1 - |r|..]
      && (|logs| < MaxLogLines ==> r == logs + [line])
      && (|logs| >= MaxLogLines ==> |r| == MaxLogLines)
  {
  }

  /** A bounded buffer stays the same under eviction: evicting twice is evicting once. */
  lemma NewestIdempotent(logs: seq<string>)
    ensures |Newest(logs)| <= MaxLogLines
    ensures Newest(Newest(logs)) == Newest(logs)
  {
  }

  /** `getContainerNameForService`: the Docker container behind a service name, matched in any case. */
  function ContainerNameForService(serviceName: string): (r: Option<string>)
  {
    var name := ToLower(serviceName);
    if name == "airflow" then Some("c2java-airflow-webserver")
    else if name == "cli-service" || name == "cli" then Some("c2java-cli")
    else None
  }

  /** Exactly the three names, in any case, have a container. */
  lemma ContainerNameRules(serviceName: string)
    ensures var r := ContainerNameForService(serviceName);
      && (r.Some? <==> ToLower(serviceName) in {"airflow", "cli-service", "cli"})
      && (ToLower(serviceName) == "airflow" ==> r == Some("c2java-airflow-webserver"))
      && (ToLower(serviceName) in {"cli-service", "cli"} ==> r == Some("c2java-cli"))
  {
  }

  lemma {:induction false} LowerOfUpper(s: string)
    ensures ToLower(ToUpper(s)) == ToLower(s)
  {
    forall i | 0 <= i < |s|
      ensures ToLower(ToUpper(s))[i] == ToLower(s)[i]
    {
    }
  }

  /** Upper-casing a name changes nothing about its container. */
  lemma ContainerNameIgnoresCase(serviceName: string)
    ensures ContainerNameForService(ToUpper(serviceName)) == ContainerNameForService(serviceName)
  {
    LowerOfUpper(serviceName);
  }

  lemma ContainerNameExamples()
    ensures ContainerNameForService("AirFlow") == Some("c2java-airflow-webserver")
    ensures ContainerNameForService("CLI") == Some("c2java-cli")
    ensures ContainerNameForService("worker").None?
  {
    assert ToLower("AirFlow") == "airflow";
    assert ToLower("CLI") == "cli";
    assert ToLower("worker") == "worker";
  }

  /** The last `min(n, |logs|)` lines. */
  function Tail(logs: seq<string>, n: nat): (r: seq<string>)
    ensures |r| == if n < |logs| then n else |logs|
    ensures r == logs[|logs| - |r|..]
  {
    if n < |logs| then logs[|logs| - n..] else logs
  }

  /** The service object: one buffer per service name. */
  class LocalServerService {
    var serviceLogs: map<string, seq<string>>

    /** Every buffer is within the bound. */
    ghost predicate Valid()
      reads this
    {
      forall name :: name in serviceLogs ==> |serviceLogs[name]| <= MaxLogLines
    }

    constructor()
      ensures serviceLogs == map[] && Valid()
    {
      serviceLogs := map[];
    }

    /** `serviceLogs.getOrDefault(name, new LinkedList<>())`. */
    function LogsOf(serviceName: string): (r: seq<string>)
      reads this
      ensures Valid() ==> |r| <= MaxLogLines
    {
      if serviceName in serviceLogs then serviceLogs[serviceName] else []
    }

    /**
     * `appendLog`: adds the timestamped line to the service's buffer, then
     * drops the oldest lines while there are more than `MaxLogLines`.
     */
    method AppendLog(serviceName: string, stamp: string, logLine: string)
      requires Valid()
      modifies this
      ensures Valid()
      ensures serviceLogs == old(serviceLogs)[serviceName := Newest(old(LogsOf(serviceName)) + [Timestamped(stamp, logLine)])]
    {
      var full := LogsOf(serviceName) + [Timestamped(stamp, logLine)];
      var logs := full;
      var dropped := 0;
      while |logs| > MaxLogLines
        invariant 0 <= dropped <= |full| && logs == full[dropped..]
        invariant dropped == 0 || |logs| >= MaxLogLines
        decreases |logs|
      {
        logs := logs[1..];
        dropped := dropped + 1;
      }
      assert logs == Newest(full);
      serviceLogs := serviceLogs[serviceName := logs];
    }

    /** `clearLogs`: forgets one service's buffer and no other. */
    method ClearLogs(serviceName: string)
      requires Valid()
      modifies this
      ensures Valid()
      ensures serviceLogs == old(serviceLogs) - {serviceName}
    {
      serviceLogs := serviceLogs - {serviceName};
    }

    /**
     * `getServiceLogs`: a container's logs come from Docker (100 lines when
     * no count is given; an exception gives an empty list); any other
     * service gets its own buffer, whole for a missing or non-positive
     * count and its last lines otherwise.
     */
    function GetServiceLogs(serviceName: string, lines: Option<int>, containerLogs: (string, int) -> Option<seq<string>>)
      : (r: seq<string>)
      reads this
      ensures ContainerNameForService(serviceName).Some? ==>
        var got := containerLogs(ContainerNameForService(serviceName).value, lines.GetOr(100));
        r == if got.Some? then got.value else []
      ensures ContainerNameForService(serviceName).None? && (lines.None? || lines.value <= 0) ==>
        r == LogsOf(serviceName)
      ensures ContainerNameForService(serviceName).None? && lines.Some? && lines.value > 0 ==>
        |r| == (if lines.value < |LogsOf(serviceName)| then lines.value else |LogsOf(serviceName)|)
        && r == LogsOf(serviceName)[|LogsOf(serviceName)| - |r|..]
    {
      match ContainerNameForService(serviceName)
      case Some(container) =>
        (match containerLogs(container, lines.GetOr(100))
         case Some(got) => got
         case None => [])
      case None =>
        var logs := LogsOf(serviceName);
        if lines.None? || lines.value <= 0 then logs else Tail(logs, lines.value)
    }
  }

  /** A line appended to a service without a container is the last line its logs then show. */
  lemma AppendedLineIsNewest(logs: seq<string>, stamp: string, logLine: string, n: nat)
    requires n > 0
    ensures var after := Newest(logs + [Timestamped(stamp, logLine)]);
      Tail(after, n)[|Tail(after, n)| - 1] == Timestamped(stamp, logLine)
  {
    NewestRules(logs, Timestamped(stamp, logLine));
  }

  // ---------------------------------------------------------------------------
  // Airflow status
  // ---------------------------------------------------------------------------

  /** One Docker status query: the container's running flag, or the exception it threw. */
  datatype Probe = Running(running: bool) | ProbeFailed(message: string)

  const AllRunningMessage := "Airflow가 정상 실행 중입니다."
  const PartlyRunningMessage := "Airflow가 부분적으로 실행 중입니다."
  const NotRunningMessage := "Airflow가 실행되고 있지 않습니다."

  /** The status map's "running" and "message" entries, or the error entry after an exception. */
  datatype AirflowStatus =
    | Status(running: bool, message: string)
    | StatusError(error: string)

  /**
   * `getAirflowStatus`: asks for the webserver, then the scheduler; the
   * first exception becomes an error status.
   */
  function GetAirflowStatus(webserver: Probe, scheduler: Probe): (r: AirflowStatus)
  {
    if webserver.ProbeFailed? then StatusError(webserver.message)
    else if scheduler.ProbeFailed? then StatusError(scheduler.message)
    else
      var both := webserver.running && scheduler.running;
      var message :=
        if both then AllRunningMessage
        else if webserver.running || scheduler.running then PartlyRunningMessage
        else NotRunningMessage;
      Status(both, message)
  }

  /**
   * Airflow runs exactly when both containers run; the message names all,
   * some or none running, and the three messages are distinct.
   */
  lemma AirflowStatusRules(webserver: Probe, scheduler: Probe)
    ensures var r := GetAirflowStatus(webserver, scheduler);
      && (r.Status? <==> webserver.Running? && scheduler.Running?)
      && (r.StatusError? ==> r.error == if webserver.ProbeFailed? then webserver.message else scheduler.message)
      && (r.Status? ==>
            && (r.running <==> webserver.running && scheduler.running)
            && (r.message == AllRunningMessage <==> webserver.running && scheduler.running)
            && (r.message == PartlyRunningMessage <==> webserver.running != scheduler.running)
            && (r.message == NotRunningMessage <==> !webserver.running && !scheduler.running))
  {
    assert AllRunningMessage != PartlyRunningMessage && AllRunningMessage != NotRunningMessage;
    assert PartlyRunningMessage != NotRunningMessage;
  }

  /** The order of the two containers matters only for which exception is reported. */
  lemma AirflowStatusSymmetric(webserver: Probe, scheduler: Probe)
    requires webserver.Running? && scheduler.Running?
    ensures GetAirflowStatus(webserver, scheduler) == GetAirflowStatus(scheduler, webserver)
  {
  }
}
