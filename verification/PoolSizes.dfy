/** The pool sizes of getPoolConfig (daemon/config.go): how they are clamped, and that min never exceeds max. */
module PoolSizes {
  import opened Util

  datatype Mode = EniOnly | EniMultiIp | OtherMode

  datatype Settings = Settings(
    maxEni: int, minEni: int, maxPoolSize: int, minPoolSize: int,
    eniCapRatio: real, eniCapShift: int, ipv6Stack: bool, crdIpam: bool)

  datatype Limits = Limits(adapters: int, ipv4PerAdapter: int, ipv6PerAdapter: int)

  datatype Sizes = Sizes(minPool: int, maxPool: int, capacity: int, maxIpPerEni: int)

  /** Conversion of a float to an int drops the fraction. */
  function Truncate(x: real): int {
    if x >= 0.0 then x.Floor else -((-x).Floor)
  }

  /** The ENIs a node may use. */
  function MaxEni(cfg: Settings, limit: Limits): int {
    var all := Truncate(limit.adapters as real * cfg.eniCapRatio) + cfg.eniCapShift - 1;
    if 0 < cfg.maxEni < all then cfg.maxEni else all
  }

  function IpPerEni(cfg: Settings, limit: Limits, windows: bool): int {
    (if cfg.ipv6Stack then limit.ipv6PerAdapter else limit.ipv4PerAdapter) - if windows then 1 else 0
  }

  method GetPoolSizes(mode: Mode, cfg: Settings, limit: Limits, windows: bool) returns (s: Sizes)
    ensures s.minPool <= s.maxPool
    ensures s.maxPool <= s.capacity || s.minPool == s.maxPool == 0
    ensures mode == EniMultiIp && !cfg.crdIpam ==>
              var per := IpPerEni(cfg, limit, windows);
              && s.capacity == MaxEni(cfg, limit) * per
              && s.maxPool == Min(cfg.maxPoolSize, s.capacity)
              && s.minPool == Min(if cfg.minEni > 0 then cfg.minEni * per else cfg.minPoolSize, s.maxPool)
    ensures mode != EniMultiIp || cfg.crdIpam ==> s.minPool == s.maxPool == 0
  {
    var capacity, minPool, maxPool, maxIpPerEni := 0, 0, 0, 0;
    match mode {
      case EniOnly =>
        capacity := MaxEni(cfg, limit);
        maxIpPerEni := 1;
        maxPool, minPool := 0, 0;
      case EniMultiIp =>
        maxIpPerEni := IpPerEni(cfg, limit, windows);
        capacity := MaxEni(cfg, limit) * maxIpPerEni;
        maxPool := if cfg.maxPoolSize > capacity then capacity else cfg.maxPoolSize;
        minPool := cfg.minPoolSize;
        if cfg.minEni > 0 {
          minPool := cfg.minEni * maxIpPerEni;
        }
        if minPool > maxPool {
          minPool := maxPool;
        }
      case OtherMode =>
    }
    if cfg.crdIpam {
      maxPool, minPool := 0, 0;
    }
    s := Sizes(minPool, maxPool, capacity, maxIpPerEni);
  }
}
