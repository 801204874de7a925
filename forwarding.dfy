/** The forwarder used when the browser runs on the same host: nothing is
    forwarded, the URL names the local port directly. */
module Forwarding {
  import opened Wrappers
  import opened Decimal

  datatype PortPair = PortPair(localPort: int, remotePort: int)

  const UrlPrefix := "http://localhost:"

  /** `'http://localhost:%i' % port`. */
  function LocalhostUrl(port: int): (url: string) {
    UrlPrefix + IntToString(port)
  }

  /** Reads the port back from a localhost URL; `None` for any other string. */
  function PortOfUrl(url: string): (r: Option<int>) {
    if |url| >= |UrlPrefix| && url[..|UrlPrefix|] == UrlPrefix then ParseInt(url[|UrlPrefix|..]) else None
  }

  lemma PortOfLocalhostUrl(port: int)
    ensures PortOfUrl(LocalhostUrl(port)) == Some(port)
  {
    var url := LocalhostUrl(port);
    assert url[..|UrlPrefix|] == UrlPrefix;
    assert url[|UrlPrefix|..] == IntToString(port);
    ParseIntToString(port);
  }

  class DoNothingForwarder {
    var hostPort: Option<int>

    /** Takes the local port of the first port pair. */
    constructor (portPairs: seq<PortPair>)
      requires |portPairs| > 0
      ensures hostPort == Some(portPairs[0].localPort)
    {
      hostPort := Some(portPairs[0].localPort);
    }

    /** The URL of the local port; `None` when the assertion that the port is
        set and non-zero fails. */
    function Url(): (r: Option<string>)
      reads this
      ensures r.Some? <==> hostPort.Some? && hostPort.value != 0
      ensures r.Some? ==> |r.value| > |UrlPrefix| && r.value[..|UrlPrefix|] == UrlPrefix
      ensures r.Some? ==> r.value[|UrlPrefix|..] == IntToString(hostPort.value)
      ensures r.Some? ==> PortOfUrl(r.value) == hostPort
    {
      if hostPort.Some? && hostPort.value != 0 then
        PortOfLocalhostUrl(hostPort.value);
        Some(LocalhostUrl(hostPort.value))
      else None
    }

    /** Drops the port; `Url` fails afterwards. */
    method Close()
      modifies this
      ensures hostPort.None?
      ensures Url().None?
    {
      hostPort := None;
    }
  }
}
