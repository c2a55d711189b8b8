/** Orchestrator settings and the two names derived from an instance uuid. */
module Configuration {
  import opened Wrappers
  import opened Text

  datatype Config = Config(
    publicHost: string,
    publicProxyPort: int,
    namePrefix: string,
    bootTimeout: int,
    ttlSeconds: int,
    challengeTtl: Option<int>,
    maxPerIp: int,
    maxTotal: int,
    challengeName: string,
    flagMode: string)
  {
    /** A missing or zero lifetime in the manifest falls back to the configured one. */
    function Ttl(): real {
      if challengeTtl.Some? && challengeTtl.value != 0 then challengeTtl.value as real else ttlSeconds as real
    }

    function BootWindow(): real {
      bootTimeout as real
    }

    function RpcUrlFor(uuid: string): string {
      "http://" + publicHost + ":" + PrintInt(publicProxyPort) + "/" + uuid
    }

    function ContainerName(uuid: string): string {
      namePrefix + "-" + uuid
    }
  }

  /** A lifetime in the manifest wins over the configured one, unless it is zero. */
  lemma ManifestLifetimeWins(c: Config, seconds: int)
    ensures c.challengeTtl == Some(seconds) && seconds != 0 ==> c.Ttl() == seconds as real
    ensures c.challengeTtl == Some(0) || c.challengeTtl == None ==> c.Ttl() == c.ttlSeconds as real
  {}

  /** A url leads to the public proxy and ends in the uuid, which is all that comes after
      the last slash; a container name is the prefix and the uuid. */
  lemma {:induction false} NamesEmbedUuid(c: Config, u: string)
    ensures var url, name := c.RpcUrlFor(u), c.ContainerName(u);
      && "http://" + c.publicHost + ":" <= url && |u| < |url| && url[|url| - |u|..] == u && url[|url| - |u| - 1] == '/'
      && url[|"http://" + c.publicHost + ":"|..|url| - |u| - 1] == PrintInt(c.publicProxyPort)
      && c.namePrefix <= name && name[|c.namePrefix|..] == "-" + u
  {
    var front := "http://" + c.publicHost + ":";
    var port := PrintInt(c.publicProxyPort);
    var url := c.RpcUrlFor(u);
    assert url == front + (port + ("/" + u));
    assert url[|front|..] == port + ("/" + u);
    assert url[|front + port|..] == "/" + u;
  }

  /** No two instances share a container name or an RPC url. */
  lemma {:induction false} NamesInjective(c: Config, u: string, v: string)
    ensures c.ContainerName(u) == c.ContainerName(v) ==> u == v
    ensures c.RpcUrlFor(u) == c.RpcUrlFor(v) ==> u == v
  {
    var name := c.namePrefix + "-";
    assert c.ContainerName(u)[|name|..] == u && c.ContainerName(v)[|name|..] == v;
    var url := "http://" + c.publicHost + ":" + PrintInt(c.publicProxyPort) + "/";
    assert c.RpcUrlFor(u)[|url|..] == u && c.RpcUrlFor(v)[|url|..] == v;
  }
}
