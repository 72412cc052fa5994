/**
 * Tracer start-up (tracing/datadog.go): choosing the agent host, building the
 * agent address and the start options, probing the agent, and the package
 * state that `Start` and `Stop` change. The metadata lookup, the HTTP probe
 * and the tracing library itself are outside the model: their results come
 * in as values.
 */
module Datadog {
  import opened Wrappers
  import opened Text
  import opened TracerConfig

  /** The service name used until a `Start` supplies one. */
  const DefaultServiceName := "default_service"
  /** The agent's expvar endpoint, used as a heartbeat. */
  const DebugPath := "/debug/vars"
  const Localhost := "127.0.0.1"
  const StatusOK := 200

  /** The options handed to the tracing library's `tracer.Start`. */
  datatype StartOption =
    | WithAgentAddr(addr: string)
    | WithDebugMode(debug: bool)
    | WithGlobalTag(key: string, value: string)

  // ---------------------------------------------------------------------
  // discover

  /**
   * The agent host: the configured one, else the private IP from the instance
   * metadata lookup (`lookup`, None when that lookup failed), else localhost.
   * The lookup is only consulted when no host is configured.
   */
  function Discover(host: string, lookup: Option<string>): (agentHost: string)
    ensures host != "" ==> agentHost == host
    ensures agentHost == "" <==> host == "" && lookup == Some("")
  {
    if host == "" then
      match lookup
      case None => Localhost
      case Some(ip) => ip
    else host
  }

  /** The three cases of discovery, as the tests exercise them. */
  lemma DiscoverCases(host: string, lookup: Option<string>)
    ensures host != "" ==> Discover(host, lookup) == host
    ensures host == "" && lookup.Some? ==> Discover(host, lookup) == lookup.value
    ensures host == "" && lookup.None? ==> Discover(host, lookup) == "127.0.0.1"
  {
  }

  /** With an explicit host, what the metadata service would say is irrelevant. */
  lemma DiscoverIgnoresLookup(host: string, a: Option<string>, b: Option<string>)
    requires host != ""
    ensures Discover(host, a) == Discover(host, b)
  {
  }

  // ---------------------------------------------------------------------
  // configure

  /** `fmt.Sprintf("%s:%d", host, port)`. */
  function AgentAddr(host: string, port: int): (addr: string)
    ensures AfterLastColon(addr) == Decimal(port)
    ensures ParseDecimal(AfterLastColon(addr)) == Some(port)
    ensures |host| + 1 < |addr| && addr[..|host| + 1] == host + ":"
  {
    DecimalHasNoColon(port);
    AfterLastColonOf(host, Decimal(port));
    DecimalRoundTrip(port);
    host + ":" + Decimal(port)
  }

  /** The options one span tag contributes: a global tag iff it splits on ':' into exactly two parts. */
  function TagOption(tag: string): seq<StartOption> {
    var s := Split(tag, ':');
    if |s| == 2 then [WithGlobalTag(s[0], s[1])] else []
  }

  /** The global-tag options of a list of span tags, in input order. */
  function GlobalTags(tags: seq<string>): seq<StartOption> {
    if tags == [] then []
    else GlobalTags(tags[..|tags| - 1]) + TagOption(tags[|tags| - 1])
  }

  /** The tags that are well formed: exactly one ':' (an independent reference for GlobalTags). */
  function WellFormedTags(tags: seq<string>): seq<string> {
    if tags == [] then []
    else
      var last := tags[|tags| - 1];
      WellFormedTags(tags[..|tags| - 1]) + (if CountChar(last, ':') == 1 then [last] else [])
  }

  /**
   * GlobalTags keeps exactly the well-formed tags, in order, each as a
   * key/value pair without ':' that glues back into the tag.
   */
  lemma {:induction false} GlobalTagsMatchWellFormed(tags: seq<string>)
    ensures |GlobalTags(tags)| == |WellFormedTags(tags)|
    ensures forall i :: 0 <= i < |GlobalTags(tags)| ==>
      var o := GlobalTags(tags)[i];
      o.WithGlobalTag? && ':' !in o.key && ':' !in o.value &&
      o.key + ":" + o.value == WellFormedTags(tags)[i]
  {
    if tags != [] {
      var front, last := tags[..|tags| - 1], tags[|tags| - 1];
      GlobalTagsMatchWellFormed(front);
      TwoPieces(last, ':');
    }
  }

  /** Only well-formed tags become options; malformed ones vanish without an error. */
  lemma GlobalTagsCount(tags: seq<string>)
    ensures |GlobalTags(tags)| <= |tags|
    ensures |GlobalTags(tags)| == |tags| <==> forall i :: 0 <= i < |tags| ==> CountChar(tags[i], ':') == 1
  {
    GlobalTagsMatchWellFormed(tags);
    WellFormedTagsCount(tags);
  }

  lemma {:induction false} WellFormedTagsCount(tags: seq<string>)
    ensures |WellFormedTags(tags)| <= |tags|
    ensures |WellFormedTags(tags)| == |tags| <==> forall i :: 0 <= i < |tags| ==> CountChar(tags[i], ':') == 1
  {
    if tags != [] {
      var front := tags[..|tags| - 1];
      WellFormedTagsCount(front);
      assert forall i :: 0 <= i < |front| ==> front[i] == tags[i];
    }
  }

  /** A `key:value` tag with a colon-free key and value becomes exactly that global tag. */
  lemma TagOptionOfPair(key: string, value: string)
    requires ':' !in key && ':' !in value
    ensures TagOption(key + ":" + value) == [WithGlobalTag(key, value)]
  {
    SplitPair(key, value, ':');
  }

  /**
   * `configure`: the agent address and the start options, the address first,
   * then the debug flag, then one global tag per well-formed span tag.
   */
  method Configure(config: DDStartTracerConfig, lookup: Option<string>)
    returns (agentAddr: string, startOpts: seq<StartOption>)
    ensures agentAddr == AgentAddr(Discover(config.host, lookup), config.port)
    ensures startOpts == [WithAgentAddr(agentAddr), WithDebugMode(config.debugMode)] + GlobalTags(config.spanTags)
    ensures |startOpts| == 2 + |WellFormedTags(config.spanTags)|
  {
    var agentHost := Discover(config.host, lookup);
    agentAddr := agentHost + ":" + Decimal(config.port);
    startOpts := [WithAgentAddr(agentAddr), WithDebugMode(config.debugMode)];
    var tags := config.spanTags;
    for i := 0 to |tags|
      invariant startOpts == [WithAgentAddr(agentAddr), WithDebugMode(config.debugMode)] + GlobalTags(tags[..i])
    {
      var s := Split(tags[i], ':');
      if |s| == 2 {
        startOpts := startOpts + [WithGlobalTag(s[0], s[1])];
      }
      assert tags[..i + 1][..i] == tags[..i];
    }
    assert tags[..|tags|] == tags;
    GlobalTagsMatchWellFormed(tags);
  }

  // ---------------------------------------------------------------------
  // verifyConnection

  /** What a GET of a URL gave: a transport error (refused, timed out) or a response status. */
  datatype ProbeResult = TransportError(cause: string) | Response(statusCode: int)

  /** The network as the probe sees it: the outcome of a GET of each URL. */
  type Probe = string -> ProbeResult

  datatype ProbeError =
    | Unreachable(url: string, cause: string)
    | UnexpectedStatus(url: string, statusCode: int)

  /** `http://<hostPort>/debug/vars`. */
  function DebugUrl(hostPort: string): string {
    "http://" + hostPort + DebugPath
  }

  /**
   * `verifyConnection`: ok iff the GET of the debug URL gets through and
   * answers 200; a transport error is Unreachable, any other status is
   * UnexpectedStatus carrying that status.
   */
  function VerifyConnection(hostPort: string, probe: Probe): (r: Outcome<ProbeError>)
    ensures r.Pass? <==> probe(DebugUrl(hostPort)) == Response(200)
    ensures r.Fail? ==> r.error.url == DebugUrl(hostPort)
    ensures r.Fail? && r.error.UnexpectedStatus? ==> r.error.statusCode != 200
  {
    var url := DebugUrl(hostPort);
    match probe(url)
    case TransportError(cause) => Fail(Unreachable(url, cause))
    case Response(code) =>
      if code != StatusOK then Fail(UnexpectedStatus(url, code)) else Pass
  }

  /** Only the transport error and the status code matter. */
  lemma VerifyConnectionCases(hostPort: string, probe: Probe)
    ensures probe(DebugUrl(hostPort)).TransportError? ==>
      VerifyConnection(hostPort, probe) == Fail(Unreachable(DebugUrl(hostPort), probe(DebugUrl(hostPort)).cause))
    ensures probe(DebugUrl(hostPort)).Response? && probe(DebugUrl(hostPort)).statusCode != 200 ==>
      VerifyConnection(hostPort, probe) == Fail(UnexpectedStatus(DebugUrl(hostPort), probe(DebugUrl(hostPort)).statusCode))
  {
  }

  // ---------------------------------------------------------------------
  // Start and Stop: the package state

  /**
   * The package-level state of the tracing package: the global `ServiceName`
   * and, standing for the tracing library, the options the tracer was
   * started with (None while it is not running).
   */
  class Tracer {
    var serviceName: string
    var running: Option<seq<StartOption>>

    /** The state at program start. */
    constructor ()
      ensures serviceName == DefaultServiceName && running == None
    {
      serviceName := DefaultServiceName;
      running := None;
    }

    /**
     * `Start`: a non-empty configured service name replaces the global one
     * (whether or not the agent answers); the tracer is started with the
     * options of `configure` only when the agent probe succeeds, and the
     * probe's error is returned otherwise.
     */
    method Start(config: DDStartTracerConfig, lookup: Option<string>, probe: Probe)
      returns (err: Outcome<ProbeError>)
      modifies this
      ensures serviceName == if config.serviceName != "" then config.serviceName else old(serviceName)
      ensures err == VerifyConnection(AgentAddr(Discover(config.host, lookup), config.port), probe)
      ensures err.Pass? ==> running == Some([WithAgentAddr(AgentAddr(Discover(config.host, lookup), config.port)),
                                             WithDebugMode(config.debugMode)] + GlobalTags(config.spanTags))
      ensures err.Fail? ==> running == old(running)
    {
      if config.serviceName != "" {
        serviceName := config.serviceName;
      }
      var agentAddr, startOpts := Configure(config, lookup);
      err := VerifyConnection(agentAddr, probe);
      if err.Fail? {
        return;
      }
      running := Some(startOpts);
    }

    /** `Stop`: the tracer stops; the service name stays. */
    method Stop()
      modifies this
      ensures running == None && serviceName == old(serviceName)
    {
      running := None;
    }
  }

  /** Two tags contribute their options one after the other. */
  lemma GlobalTagsPair(a: string, b: string)
    ensures GlobalTags([a, b]) == TagOption(a) + TagOption(b)
  {
    assert [a, b][..1] == [a];
    assert [a][..0] == [];
    assert GlobalTags([a]) == GlobalTags([]) + TagOption(a);
    assert GlobalTags([a, b]) == GlobalTags([a]) + TagOption(b);
  }

  /** The case the tests check: host "localhost", port 8126 gives "localhost:8126". */
  lemma AgentAddrExample()
    ensures AgentAddr(Discover("localhost", None), 8126) == "localhost:8126"
  {
    assert Digits(8126) == Digits(812) + "6";
    assert Digits(812) == Digits(81) + "2";
    assert Digits(81) == Digits(8) + "1";
  }

  /**
   * Two well-formed tags, as in the tests (`env:test`, `app:skeleton`), make
   * two global tags in order, four start options in all.
   */
  lemma ConfigureExample(k1: string, v1: string, k2: string, v2: string)
    requires ':' !in k1 && ':' !in v1 && ':' !in k2 && ':' !in v2
    ensures GlobalTags([k1 + ":" + v1, k2 + ":" + v2]) == [WithGlobalTag(k1, v1), WithGlobalTag(k2, v2)]
    ensures |WellFormedTags([k1 + ":" + v1, k2 + ":" + v2])| == 2
  {
    GlobalTagsPair(k1 + ":" + v1, k2 + ":" + v2);
    TagOptionOfPair(k1, v1);
    TagOptionOfPair(k2, v2);
    GlobalTagsMatchWellFormed([k1 + ":" + v1, k2 + ":" + v2]);
  }
}
