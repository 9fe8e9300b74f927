/**
 * Pod log retrieval (`GetPodsLogs`): one named container, the only container, or every
 * container in turn, where a container's failure becomes an inline marker instead of
 * failing the call. The pod, as the server holds it, is an input; each container carries
 * the outcome of streaming its log (the server applies the 100-line tail window).
 */
module PodLogs {
  import opened Wrappers

  /** Streaming a log: the text, a failure to open the stream, or a failure while reading it. */
  datatype StreamOutcome = Streamed(text: string) | OpenFailed(reason: string) | ReadFailed(reason: string)

  datatype ContainerLogs = ContainerLogs(name: string, stream: StreamOutcome)

  /**
   * The pod as the server holds it: its spec containers in order, plus its init and
   * ephemeral containers, whose logs can be asked for by name; or the reason it cannot be
   * reached.
   */
  datatype PodFetch =
    | PodFetched(containers: seq<ContainerLogs>, initAndEphemeral: seq<ContainerLogs>)
    | PodFetchFailed(reason: string)

  datatype LogError =
    | ContainerStreamFailed(container: string, reason: string)
    | StreamFailed(reason: string)
    | LogReadFailed(reason: string)
    | PodUnavailable(reason: string)

  /** The server's refusal to stream a container the pod does not have. */
  const UnknownContainer := "container not found in pod"

  /**
   * What the server streams for a request naming `containerName`: the log of the pod's
   * container of that name, whether spec, init or ephemeral. The pod is not fetched first.
   */
  function NamedStream(pod: PodFetch, containerName: string): StreamOutcome {
    match pod
    case PodFetchFailed(reason) => OpenFailed(reason)
    case PodFetched(cs, others) => FirstNamed(cs + others, containerName)
  }

  function FirstNamed(cs: seq<ContainerLogs>, containerName: string): StreamOutcome {
    if cs == [] then OpenFailed(UnknownContainer)
    else if cs[0].name == containerName then cs[0].stream
    else FirstNamed(cs[1..], containerName)
  }

  /** The stream of the first container of that name is the one read. */
  lemma {:induction false} FirstNamedFinds(cs: seq<ContainerLogs>, containerName: string, i: nat)
    requires i < |cs| && cs[i].name == containerName
    requires forall k :: 0 <= k < i ==> cs[k].name != containerName
    ensures FirstNamed(cs, containerName) == cs[i].stream
  {
    if i > 0 {
      FirstNamedFinds(cs[1..], containerName, i - 1);
    }
  }

  /**
   * A named request reaches init and ephemeral containers too: naming one (container
   * names are unique within a pod) returns that container's log.
   */
  lemma {:induction false} NamedInitOrEphemeralIsRead(cs: seq<ContainerLogs>, others: seq<ContainerLogs>,
                                                      containerName: string, i: nat)
    requires i < |others| && others[i].name == containerName && others[i].stream.Streamed?
    requires forall k :: 0 <= k < |cs| ==> cs[k].name != containerName
    requires forall k :: 0 <= k < i ==> others[k].name != containerName
    ensures ReadNamed(NamedStream(PodFetched(cs, others), containerName), containerName) == Ok(others[i].stream.text)
  {
    var all := cs + others;
    forall k | 0 <= k < |cs| + i
      ensures all[k].name != containerName
    {
      if k >= |cs| {
        assert all[k] == others[k - |cs|];
      }
    }
    FirstNamedFinds(all, containerName, |cs| + i);
  }

  /** Reading one named container: failures are the call's failures. */
  function ReadNamed(s: StreamOutcome, containerName: string): Result<string, LogError> {
    match s
    case Streamed(t) => Ok(t)
    case OpenFailed(e) => Err(ContainerStreamFailed(containerName, e))
    case ReadFailed(e) => Err(LogReadFailed(e))
  }

  /** Reading the only container of the pod: its log unadorned, failures are the call's failures. */
  function ReadSingle(s: StreamOutcome): Result<string, LogError> {
    match s
    case Streamed(t) => Ok(t)
    case OpenFailed(e) => Err(StreamFailed(e))
    case ReadFailed(e) => Err(LogReadFailed(e))
  }

  function Header(name: string): string {
    "\n--- Logs for container " + name + " ---\n"
  }

  function ErrorMarker(name: string, reason: string): string {
    "\n--- Error getting logs for container " + name + ": " + reason + " ---\n"
  }

  function ReadErrorLine(reason: string): string {
    "Error reading logs: " + reason + "\n"
  }

  /** One container's part of the aggregate. */
  function Section(c: ContainerLogs): string {
    match c.stream
    case OpenFailed(e) => ErrorMarker(c.name, e)
    case Streamed(t) => Header(c.name) + t
    case ReadFailed(e) => Header(c.name) + ReadErrorLine(e)
  }

  /** The parts `part(x)` of the elements of `xs`, concatenated in order. */
  function Joined<T>(xs: seq<T>, part: T -> string): string {
    if xs == [] then "" else Joined(xs[..|xs| - 1], part) + part(xs[|xs| - 1])
  }

  /** The aggregate of a multi-container pod: every container's section, in spec order. */
  function Aggregate(cs: seq<ContainerLogs>): string {
    Joined(cs, Section)
  }

  method GetPodsLogs(pod: PodFetch, containerName: string) returns (r: Result<string, LogError>)
    ensures containerName != "" ==> r == ReadNamed(NamedStream(pod, containerName), containerName)
    ensures containerName == "" && pod.PodFetchFailed? ==> r == Err(PodUnavailable(pod.reason))
    ensures containerName == "" && pod.PodFetched? && |pod.containers| == 1 ==> r == ReadSingle(pod.containers[0].stream)
    ensures containerName == "" && pod.PodFetched? && |pod.containers| != 1 ==> r == Ok(Aggregate(pod.containers))
  {
    if containerName != "" {
      var stream := NamedStream(pod, containerName);
      match stream {
        case OpenFailed(e) => return Err(ContainerStreamFailed(containerName, e));
        case ReadFailed(e) => return Err(LogReadFailed(e));
        case Streamed(t) => return Ok(t);
      }
    }
    if pod.PodFetchFailed? {
      return Err(PodUnavailable(pod.reason));
    }
    var containers := pod.containers;
    if |containers| == 1 {
      match containers[0].stream {
        case OpenFailed(e) => return Err(StreamFailed(e));
        case ReadFailed(e) => return Err(LogReadFailed(e));
        case Streamed(t) => return Ok(t);
      }
    }
    var allLogs := "";
    for i := 0 to |containers|
      invariant allLogs == Joined(containers[..i], Section)
    {
      var container := containers[i];
      match container.stream {
        case OpenFailed(e) =>
          allLogs := allLogs + ErrorMarker(container.name, e);
        case ReadFailed(e) =>
          allLogs := allLogs + Header(container.name);
          allLogs := allLogs + ReadErrorLine(e);
        case Streamed(t) =>
          allLogs := allLogs + Header(container.name);
          allLogs := allLogs + t;
      }
      assert containers[..i + 1][..i] == containers[..i];
    }
    assert containers[..|containers|] == containers;
    return Ok(allLogs);
  }

  /** Joining two runs is joining each and concatenating. */
  lemma {:induction false} JoinedAppend<T>(a: seq<T>, b: seq<T>, part: T -> string)
    ensures Joined(a + b, part) == Joined(a, part) + Joined(b, part)
    decreases |b|
  {
    if b == [] {
      assert a + b == a;
    } else {
      var b' := b[..|b| - 1];
      assert (a + b)[..|a + b| - 1] == a + b';
      JoinedAppend(a, b', part);
    }
  }

  /**
   * Every container is reported, in spec order: the aggregate is the part before container
   * i, then container i's own section (its log or its error marker), then the part after.
   */
  lemma AggregateReportsEachContainer(cs: seq<ContainerLogs>, i: nat)
    requires i < |cs|
    ensures Aggregate(cs) == Aggregate(cs[..i]) + Section(cs[i]) + Aggregate(cs[i + 1..])
  {
    assert cs == cs[..i] + [cs[i]] + cs[i + 1..];
    JoinedAppend(cs[..i] + [cs[i]], cs[i + 1..], Section);
    JoinedAppend(cs[..i], [cs[i]], Section);
    assert Joined([cs[i]], Section) == Section(cs[i]) by {
      assert [cs[i]][..0] == [];
    }
  }

  /** Partial failure: with containers A (log streamed) and B (stream failed), the aggregate holds A's log and B's error marker. */
  lemma PartialFailureIsInline(a: string, logA: string, b: string, reason: string)
    ensures Aggregate([ContainerLogs(a, Streamed(logA)), ContainerLogs(b, OpenFailed(reason))])
              == Header(a) + logA + ErrorMarker(b, reason)
  {
    var cs := [ContainerLogs(a, Streamed(logA)), ContainerLogs(b, OpenFailed(reason))];
    assert cs[..1] == [cs[0]] && cs[..1][..0] == [];
    assert Joined(cs[..1], Section) == "" + Section(cs[0]);
    assert Joined(cs, Section) == Joined(cs[..1], Section) + Section(cs[1]);
  }
}
