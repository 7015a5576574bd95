/** Proxy and visitor configurations as values (pkg/config/v1/proxy.go, visitor.go). Fields
    that nothing below looks at are one opaque number. */
module Configs {
  import opened Wrappers

  datatype Config =
    | ProxyConfig(name: string, enabled: Option<bool>, localIP: string, bandwidthLimitMode: string, rest: int)
    | VisitorConfig(name: string, enabled: Option<bool>, bindAddr: string, rest: int)

  function EmptyOr(v: string, fallback: string): string {
    if v == "" then fallback else v
  }

  /** The defaults that `Complete` fills in. */
  function Completed(c: Config): (r: Config)
    ensures r.name == c.name && r.enabled == c.enabled
  {
    match c
    case ProxyConfig(_, _, ip, mode, _) =>
      c.(localIP := EmptyOr(ip, "127.0.0.1"), bandwidthLimitMode := EmptyOr(mode, "client"))
    case VisitorConfig(_, _, addr, _) => c.(bindAddr := EmptyOr(addr, "127.0.0.1"))
  }

  predicate Enabled(c: Config) {
    c.enabled.None? || c.enabled.value
  }

  /** Every entry is filed under its own, non-empty name. */
  ghost predicate WellNamed(m: map<string, Config>) {
    forall n :: n in m ==> n != "" && m[n].name == n
  }

  /** `cs` lists the values of `m`, one for each name, in any order. */
  ghost predicate Lists(cs: seq<Config>, m: map<string, Config>) {
    && (forall n :: n in m ==> m[n] in cs && m[n].name == n)
    && (forall i :: 0 <= i < |cs| ==> cs[i].name in m && m[cs[i].name] == cs[i])
    && (forall i, j :: 0 <= i < j < |cs| ==> cs[i].name != cs[j].name)
  }

  /** `r` is `c` with its empty defaults filled in. */
  predicate FilledIn(c: Config, r: Config) {
    match (c, r)
    case (ProxyConfig(n, e, ip, mode, rest), ProxyConfig(n', e', ip', mode', rest')) =>
      && n' == n && e' == e && rest' == rest
      && (ip != "" ==> ip' == ip) && (ip == "" ==> ip' == "127.0.0.1")
      && (mode != "" ==> mode' == mode) && (mode == "" ==> mode' == "client")
    case (VisitorConfig(n, e, addr, rest), VisitorConfig(n', e', addr', rest')) =>
      n' == n && e' == e && rest' == rest && (addr != "" ==> addr' == addr) && (addr == "" ==> addr' == "127.0.0.1")
    case _ => false
  }

  /** Completing fills in, and completing again changes nothing. */
  lemma CompletedFillsIn(c: Config)
    ensures FilledIn(c, Completed(c)) && Completed(Completed(c)) == Completed(c)
  {
  }
}
