/** Explicit enforcement scopes: which single peers may ever be blocked. */
module Containment {
  import opened Wrappers

  /** A parsed address. `special` covers loopback, link-local, multicast, unspecified and reserved. */
  datatype Ip = Ip(v6: bool, bits: nat, special: bool, v4Mapped: bool, isGlobal: bool)

  /** A strict network: `base` is its lowest address. */
  datatype Network = Network(v6: bool, base: nat, prefixLen: nat)

  datatype Scope = Scope(allowed: seq<Network>, protected: seq<Network>)

  function Width(v6: bool): nat { if v6 then 128 else 32 }

  function Pow2(n: nat): nat { if n == 0 then 1 else 2 * Pow2(n - 1) }

  function Size(n: Network): nat {
    if n.prefixLen <= Width(n.v6) then Pow2(Width(n.v6) - n.prefixLen) else 0
  }

  predicate Contains(n: Network, ip: Ip) {
    ip.v6 == n.v6 && n.base <= ip.bits < n.base + Size(n)
  }

  /** The address can name one remote host of `n`, rather than the network or its broadcast. */
  predicate NamesHost(n: Network, ip: Ip) {
    ip.v6 || n.prefixLen >= 31 || (ip.bits != n.base && ip.bits != n.base + Size(n) - 1)
  }

  predicate Protected(protected: seq<Network>, ip: Ip) {
    exists n :: n in protected && Contains(n, ip)
  }

  function MakeScope(allowed: seq<Network>, protected: seq<Network>): Result<Scope> {
    if allowed == [] || protected == [] then Err("missing")
    else if exists n :: n in allowed && n.prefixLen == 0 then Err("route")
    else Ok(Scope(allowed, protected))
  }

  predicate Permits(scope: Scope, ip: Ip) {
    && !ip.special
    && !ip.v4Mapped
    && !Protected(scope.protected, ip)
    && exists n :: n in scope.allowed && Contains(n, ip) && NamesHost(n, ip)
  }

  /** The /32 or /128 network that holds only `ip`. */
  function HostNetwork(ip: Ip): Network { Network(ip.v6, ip.bits, Width(ip.v6)) }

  /** The scope built around one enrolled target admits that address and nothing else, and
      admits it exactly when it is an ordinary unicast address outside the protected networks. */
  lemma SingleTargetScope(target: Ip, protected: seq<Network>, ip: Ip)
    requires protected != []
    ensures MakeScope([HostNetwork(target)], protected).Ok?
    ensures var scope := MakeScope([HostNetwork(target)], protected).value;
            Permits(scope, ip) <==>
              && ip.v6 == target.v6 && ip.bits == target.bits
              && !ip.special && !ip.v4Mapped && !Protected(protected, ip)
  {
    var host := HostNetwork(target);
    assert Size(host) == Pow2(0) == 1;
    var scope := MakeScope([host], protected).value;
    assert forall n :: n in scope.allowed <==> n == host;
    if ip.v6 == target.v6 && ip.bits == target.bits {
      assert host in scope.allowed && Contains(host, ip) && NamesHost(host, ip);
    }
  }
}
