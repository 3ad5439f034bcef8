/** The projector for Anonymous IP databases (replacer/anonymous.go). */
module AnonymousReplacer {
  import opened Records
  import opened Sink
  import opened MaxMind

  /** The flags `SetAnonymous` writes, in the order it writes them. */
  const AnonymousKeys: seq<string> := [
    "geoip2.is_anonymous", "geoip2.is_anonymous_vpn", "geoip2.is_hosting_provider",
    "geoip2.is_public_proxy", "geoip2.is_residential_proxy", "geoip2.is_tor_exit_node"]

  function AnonymousWrites(r: AnonymousRecord): seq<Write> {
    [Write("geoip2.is_anonymous", Bool(r.isAnonymous)),
     Write("geoip2.is_anonymous_vpn", Bool(r.isAnonymousVpn)),
     Write("geoip2.is_hosting_provider", Bool(r.isHostingProvider)),
     Write("geoip2.is_public_proxy", Bool(r.isPublicProxy)),
     Write("geoip2.is_residential_proxy", Bool(r.isResidentialProxy)),
     Write("geoip2.is_tor_exit_node", Bool(r.isTorExitNode))]
  }

  method SetAnonymous(repl: Replacer, r: AnonymousRecord)
    modifies repl
    ensures repl.log == old(repl.log) + AnonymousWrites(r)
    ensures repl.Vars() == Apply(old(repl.Vars()), AnonymousWrites(r))
  {
    repl.Set("geoip2.is_anonymous", Bool(r.isAnonymous));
    repl.Set("geoip2.is_anonymous_vpn", Bool(r.isAnonymousVpn));
    repl.Set("geoip2.is_hosting_provider", Bool(r.isHostingProvider));
    repl.Set("geoip2.is_public_proxy", Bool(r.isPublicProxy));
    repl.Set("geoip2.is_residential_proxy", Bool(r.isResidentialProxy));
    repl.Set("geoip2.is_tor_exit_node", Bool(r.isTorExitNode));
    ApplyConcat(repl.initial, old(repl.log), AnonymousWrites(r));
  }

  /** `Anonymous.Lookup`: decode the record for `clientIP` and project it.
      A decode error is only logged, so the projection runs either way. */
  method Lookup(reader: Decoder, repl: Replacer, clientIP: IP)
    modifies repl
    ensures repl.log == old(repl.log) + AnonymousWrites(reader.anonymous(clientIP).record)
    ensures repl.Vars() == Apply(old(repl.Vars()), AnonymousWrites(reader.anonymous(clientIP).record))
  {
    var decoded := reader.anonymous(clientIP);
    SetAnonymous(repl, decoded.record);
  }

  /** `SetAnonymous` writes exactly the six flags, each once, whatever the record. */
  lemma AnonymousKeysWritten(r: AnonymousRecord)
    ensures KeyList(AnonymousWrites(r)) == AnonymousKeys
    ensures DistinctKeys(AnonymousWrites(r))
  {
  }

  /** Each flag holds its record field. */
  lemma AnonymousVars(m: map<string, Value>, r: AnonymousRecord)
    ensures var F := Apply(m, AnonymousWrites(r));
            && "geoip2.is_anonymous" in F && F["geoip2.is_anonymous"] == Bool(r.isAnonymous)
            && "geoip2.is_anonymous_vpn" in F && F["geoip2.is_anonymous_vpn"] == Bool(r.isAnonymousVpn)
            && "geoip2.is_hosting_provider" in F && F["geoip2.is_hosting_provider"] == Bool(r.isHostingProvider)
            && "geoip2.is_public_proxy" in F && F["geoip2.is_public_proxy"] == Bool(r.isPublicProxy)
            && "geoip2.is_residential_proxy" in F && F["geoip2.is_residential_proxy"] == Bool(r.isResidentialProxy)
            && "geoip2.is_tor_exit_node" in F && F["geoip2.is_tor_exit_node"] == Bool(r.isTorExitNode)
  {
    var w := AnonymousWrites(r);
    AnonymousKeysWritten(r);
    ApplyDistinct(m, w);
    assert w[0] in w && w[1] in w && w[2] in w && w[3] in w && w[4] in w && w[5] in w;
  }

  /** `SetAnonymous` adds exactly the six flags and leaves every other variable alone. */
  lemma AnonymousFrame(m: map<string, Value>, r: AnonymousRecord)
    ensures var F := Apply(m, AnonymousWrites(r));
            && (forall k :: k in F <==> k in m || k in AnonymousKeys)
            && forall k :: k in m && k !in AnonymousKeys ==> F[k] == m[k]
  {
    var w := AnonymousWrites(r);
    ApplyKeys(m, w);
    ApplyFrame(m, w);
    AnonymousKeysWritten(r);
    forall k ensures k in KeysOf(w) <==> k in AnonymousKeys {
      if k in AnonymousKeys {
        var i :| 0 <= i < 6 && AnonymousKeys[i] == k;
        assert w[i] in w;
      }
    }
  }

  /** The zero record sets all six flags to false. */
  lemma AnonymousZero(m: map<string, Value>)
    ensures AllZero(AnonymousWrites(ZeroAnonymous))
    ensures var F := Apply(m, AnonymousWrites(ZeroAnonymous));
            forall k :: k in AnonymousKeys ==> k in F && F[k] == Bool(false)
  {
    AnonymousVars(m, ZeroAnonymous);
  }

  /** Projecting the same record twice leaves the sink as projecting it once. */
  lemma AnonymousIdempotent(m: map<string, Value>, r: AnonymousRecord)
    ensures Apply(Apply(m, AnonymousWrites(r)), AnonymousWrites(r)) == Apply(m, AnonymousWrites(r))
  {
    ApplyIdempotent(m, AnonymousWrites(r));
  }
}
