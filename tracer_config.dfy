/**
 * The tracer's start-up configuration, `DDStartTracerConfig`, and its fluent
 * setters. Each setter overwrites one field of the receiver and hands the same
 * receiver back, so a chain of calls builds up one record.
 */
module TracerConfig {

  class DDStartTracerConfig {
    var host: string
    var port: int
    var debugMode: bool
    var serviceName: string
    var spanTags: seq<string>

    /** The zero value `DDStartTracerConfig{}`. */
    constructor ()
      ensures host == "" && port == 0 && !debugMode && serviceName == "" && spanTags == []
    {
      host, port, debugMode, serviceName, spanTags := "", 0, false, "", [];
    }

    method WithHost(host: string) returns (r: DDStartTracerConfig)
      modifies this
      ensures r == this && this.host == host
      ensures port == old(port) && debugMode == old(debugMode)
      ensures serviceName == old(serviceName) && spanTags == old(spanTags)
    {
      this.host := host;
      r := this;
    }

    method WithPort(port: int) returns (r: DDStartTracerConfig)
      modifies this
      ensures r == this && this.port == port
      ensures host == old(host) && debugMode == old(debugMode)
      ensures serviceName == old(serviceName) && spanTags == old(spanTags)
    {
      this.port := port;
      r := this;
    }

    method WithDebugMode(debugMode: bool) returns (r: DDStartTracerConfig)
      modifies this
      ensures r == this && this.debugMode == debugMode
      ensures host == old(host) && port == old(port)
      ensures serviceName == old(serviceName) && spanTags == old(spanTags)
    {
      this.debugMode := debugMode;
      r := this;
    }

    method WithServiceName(serviceName: string) returns (r: DDStartTracerConfig)
      modifies this
      ensures r == this && this.serviceName == serviceName
      ensures host == old(host) && port == old(port)
      ensures debugMode == old(debugMode) && spanTags == old(spanTags)
    {
      this.serviceName := serviceName;
      r := this;
    }

    method WithTags(tags: seq<string>) returns (r: DDStartTracerConfig)
      modifies this
      ensures r == this && spanTags == tags
      ensures host == old(host) && port == old(port)
      ensures debugMode == old(debugMode) && serviceName == old(serviceName)
    {
      spanTags := tags;
      r := this;
    }
  }

  /**
   * A client of the setters: the chain
   * `c.WithHost(h).WithPort(p).WithDebugMode(d).WithServiceName(s).WithTags(t)`
   * ends on `c` itself, holding every value set along the way.
   */
  method ConfigureChained(c: DDStartTracerConfig, host: string, port: int, debugMode: bool,
                          serviceName: string, tags: seq<string>)
    returns (r: DDStartTracerConfig)
    modifies c
    ensures r == c
    ensures c.host == host && c.port == port && c.debugMode == debugMode
    ensures c.serviceName == serviceName && c.spanTags == tags
  {
    r := c.WithHost(host);
    r := r.WithPort(port);
    r := r.WithDebugMode(debugMode);
    r := r.WithServiceName(serviceName);
    r := r.WithTags(tags);
  }
}
