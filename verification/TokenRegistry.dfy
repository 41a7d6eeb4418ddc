/** The proxy token registry: two maps that must stay inverse to each other. */
module TokenRegistry {
  import opened Collections

  type PluginId = string
  type Generation = nat
  type Digest = nat

  const MAX_TOKEN_BYTES: nat := 4096

  datatype Registry = Registry(byDigest: map<Digest, (PluginId, Generation)>, byPlugin: map<PluginId, (Generation, Digest)>)

  /** Each map is the other one read backwards. */
  ghost predicate Inverse(r: Registry) {
    && (forall p :: p in r.byPlugin ==>
          r.byPlugin[p].1 in r.byDigest && r.byDigest[r.byPlugin[p].1] == (p, r.byPlugin[p].0))
    && (forall d :: d in r.byDigest ==>
          r.byDigest[d].0 in r.byPlugin && r.byPlugin[r.byDigest[d].0] == (r.byDigest[d].1, d))
  }

  function WithoutPlugin(r: Registry, p: PluginId): Registry {
    if p in r.byPlugin then Registry(r.byDigest - {r.byPlugin[p].1}, r.byPlugin - {p}) else r
  }

  function Registered(r: Registry, p: PluginId, g: Generation, d: Digest): Registry {
    var r1 := WithoutPlugin(r, p);
    Registry(r1.byDigest[d := (p, g)], r1.byPlugin[p := (g, d)])
  }

  function Revoked(r: Registry, p: PluginId, g: Generation): Registry {
    if p in r.byPlugin && r.byPlugin[p].0 == g then WithoutPlugin(r, p) else r
  }

  ghost predicate Authenticates(r: Registry, p: PluginId, g: Generation, d: Digest) {
    d in r.byDigest && r.byDigest[d] == (p, g)
  }

  lemma WithoutPluginInverse(r: Registry, p: PluginId)
    requires Inverse(r)
    ensures Inverse(WithoutPlugin(r, p))
    ensures forall q, g, d :: q != p ==> (Authenticates(WithoutPlugin(r, p), q, g, d) <==> Authenticates(r, q, g, d))
    ensures forall g, d :: !Authenticates(WithoutPlugin(r, p), p, g, d)
  {}

  /** Registering keeps the maps inverse exactly when the token is not another plugin's. */
  lemma RegisteredInverse(r: Registry, p: PluginId, g: Generation, d: Digest)
    requires Inverse(r)
    ensures Inverse(Registered(r, p, g, d)) <==> d !in r.byDigest || r.byDigest[d].0 == p
    ensures forall q, h, e :: q != p && e != d ==> (Authenticates(Registered(r, p, g, d), q, h, e) <==> Authenticates(r, q, h, e))
    ensures forall h: Generation, e: Digest :: Authenticates(Registered(r, p, g, d), p, h, e) && Inverse(Registered(r, p, g, d)) ==> (h, e) == (g, d)
  {
    WithoutPluginInverse(r, p);
    var r' := Registered(r, p, g, d);
    if d in r.byDigest && r.byDigest[d].0 != p {
      var q := r.byDigest[d].0;
      assert q in r'.byPlugin && r'.byPlugin[q].1 == d;
    }
  }

  lemma RegisteredNew(r: Registry, p: PluginId, g: Generation, d: Digest)
    requires Inverse(r) && p !in r.byPlugin && d !in r.byDigest
    ensures var r' := Registered(r, p, g, d);
            && Inverse(r') && |r'.byPlugin| == |r.byPlugin| + 1
            && r'.byPlugin == r.byPlugin[p := (g, d)] && r'.byDigest == r.byDigest[d := (p, g)]
    ensures forall q, h: Generation, e :: q != p ==> (Authenticates(Registered(r, p, g, d), q, h, e) <==> Authenticates(r, q, h, e))
  {
    RegisteredInverse(r, p, g, d);
  }

  class ProxyTokenRegistry {
    var byDigest: map<Digest, (PluginId, Generation)>
    var byPlugin: map<PluginId, (Generation, Digest)>
    const capacity: nat
    const digest: seq<Byte> -> Digest

    function View(): Registry
      reads this
    {
      Registry(byDigest, byPlugin)
    }

    ghost predicate Valid()
      reads this
    {
      Inverse(View()) && |byPlugin| <= capacity
    }

    constructor (capacity: nat, digest: seq<Byte> -> Digest)
      ensures Valid() && View() == Registry(map[], map[]) && this.capacity == capacity && this.digest == digest
    {
      this.capacity, this.digest := capacity, digest;
      byDigest, byPlugin := map[], map[];
    }

    /**
     The token replaces the plugin's previous one; a full registry takes no new plugin. The maps stay inverse
     exactly when the random token is not another plugin's.
     */
    method Register(p: PluginId, g: Generation, token: seq<Byte>) returns (ok: bool)
      requires Valid()
      modifies this
      ensures Valid() <==> !ok || digest(token) !in old(byDigest) || old(byDigest)[digest(token)].0 == p
      ensures ok <==> p in old(byPlugin) || |old(byPlugin)| < capacity
      ensures View() == if ok then Registered(old(View()), p, g, digest(token)) else old(View())
    {
      if p !in byPlugin && |byPlugin| >= capacity { return false; }
      RegisteredInverse(View(), p, g, digest(token));
      if p in byPlugin {
        var previous := byPlugin[p].1;
        byPlugin := byPlugin - {p};
        byDigest := byDigest - {previous};
      }
      byDigest := byDigest[digest(token) := (p, g)];
      assert p !in byPlugin;
      byPlugin := byPlugin[p := (g, digest(token))];
      ok := true;
    }

    method Authenticate(token: seq<Byte>) returns (runtime: Option<(PluginId, Generation)>)
      requires Valid()
      ensures runtime.Some? <==> token != [] && |token| <= MAX_TOKEN_BYTES && 0 !in token && digest(token) in byDigest
      ensures runtime.Some? ==> runtime.value.0 in byPlugin && byPlugin[runtime.value.0] == (runtime.value.1, digest(token))
    {
      if token == [] || |token| > MAX_TOKEN_BYTES || 0 in token { return None; }
      runtime := if digest(token) in byDigest then Some(byDigest[digest(token)]) else None;
    }

    method Revoke(p: PluginId, g: Generation) returns (removed: bool)
      requires Valid()
      modifies this
      ensures Valid() && View() == Revoked(old(View()), p, g)
      ensures removed <==> p in old(byPlugin) && old(byPlugin)[p].0 == g
    {
      if p !in byPlugin { return false; }
      var (current, d) := byPlugin[p];
      if current != g { return false; }
      WithoutPluginInverse(View(), p);
      byPlugin := byPlugin - {p};
      byDigest := byDigest - {d};
      removed := true;
    }

    method RevokeAll()
      requires Valid()
      modifies this
      ensures Valid() && View() == Registry(map[], map[])
    {
      byDigest, byPlugin := map[], map[];
    }
  }
}
