/** The projector for ISP and ASN databases (replacer/isp.go). */
module IspReplacer {
  import opened Records
  import opened Sink
  import opened MaxMind

  /** The variables `SetISP` writes, in the order it writes them. */
  const IspKeys: seq<string> := [
    "geoip2.autonomous_system_number", "geoip2.autonomous_system_organization", "geoip2.isp",
    "geoip2.mobile_country_code", "geoip2.mobile_network_code", "geoip2.organization"]

  function IspWrites(r: IspRecord): seq<Write> {
    [Write("geoip2.autonomous_system_number", Nat(r.autonomousSystemNumber)),
     Write("geoip2.autonomous_system_organization", Str(r.autonomousSystemOrganization)),
     Write("geoip2.isp", Str(r.isp)),
     Write("geoip2.mobile_country_code", Str(r.mobileCountryCode)),
     Write("geoip2.mobile_network_code", Str(r.mobileNetworkCode)),
     Write("geoip2.organization", Str(r.organization))]
  }

  method SetISP(repl: Replacer, r: IspRecord)
    modifies repl
    ensures repl.log == old(repl.log) + IspWrites(r)
    ensures repl.Vars() == Apply(old(repl.Vars()), IspWrites(r))
  {
    repl.Set("geoip2.autonomous_system_number", Nat(r.autonomousSystemNumber));
    repl.Set("geoip2.autonomous_system_organization", Str(r.autonomousSystemOrganization));
    repl.Set("geoip2.isp", Str(r.isp));
    repl.Set("geoip2.mobile_country_code", Str(r.mobileCountryCode));
    repl.Set("geoip2.mobile_network_code", Str(r.mobileNetworkCode));
    repl.Set("geoip2.organization", Str(r.organization));
    ApplyConcat(repl.initial, old(repl.log), IspWrites(r));
  }

  /** `ISP.Lookup`: decode the record for `clientIP` and project it.
      A decode error is only logged, so the projection runs either way. */
  method Lookup(reader: Decoder, repl: Replacer, clientIP: IP)
    modifies repl
    ensures repl.log == old(repl.log) + IspWrites(reader.isp(clientIP).record)
    ensures repl.Vars() == Apply(old(repl.Vars()), IspWrites(reader.isp(clientIP).record))
  {
    var decoded := reader.isp(clientIP);
    SetISP(repl, decoded.record);
  }

  /** `SetISP` writes exactly the six ISP variables, each once, whatever the record. */
  lemma IspKeysWritten(r: IspRecord)
    ensures KeyList(IspWrites(r)) == IspKeys
    ensures DistinctKeys(IspWrites(r))
  {
  }

  /** Each variable holds its record field. */
  lemma IspVars(m: map<string, Value>, r: IspRecord)
    ensures var F := Apply(m, IspWrites(r));
            && "geoip2.autonomous_system_number" in F
            && F["geoip2.autonomous_system_number"] == Nat(r.autonomousSystemNumber)
            && "geoip2.autonomous_system_organization" in F
            && F["geoip2.autonomous_system_organization"] == Str(r.autonomousSystemOrganization)
            && "geoip2.isp" in F && F["geoip2.isp"] == Str(r.isp)
            && "geoip2.mobile_country_code" in F && F["geoip2.mobile_country_code"] == Str(r.mobileCountryCode)
            && "geoip2.mobile_network_code" in F && F["geoip2.mobile_network_code"] == Str(r.mobileNetworkCode)
            && "geoip2.organization" in F && F["geoip2.organization"] == Str(r.organization)
  {
    var w := IspWrites(r);
    IspKeysWritten(r);
    ApplyDistinct(m, w);
    assert w[0] in w && w[1] in w && w[2] in w && w[3] in w && w[4] in w && w[5] in w;
  }

  /** `SetISP` adds exactly the six variables and leaves every other one alone. */
  lemma IspFrame(m: map<string, Value>, r: IspRecord)
    ensures var F := Apply(m, IspWrites(r));
            && (forall k :: k in F <==> k in m || k in IspKeys)
            && forall k :: k in m && k !in IspKeys ==> F[k] == m[k]
  {
    var w := IspWrites(r);
    ApplyKeys(m, w);
    ApplyFrame(m, w);
    IspKeysWritten(r);
    forall k ensures k in KeysOf(w) <==> k in IspKeys {
      if k in IspKeys {
        var i :| 0 <= i < 6 && IspKeys[i] == k;
        assert w[i] in w;
      }
    }
  }

  /** The zero record writes 0 for the number and "" for the five strings. */
  lemma IspZero(m: map<string, Value>)
    ensures AllZero(IspWrites(ZeroIsp))
    ensures var F := Apply(m, IspWrites(ZeroIsp));
            && "geoip2.autonomous_system_number" in F && F["geoip2.autonomous_system_number"] == Nat(0)
            && forall k :: k in IspKeys[1..] ==> k in F && F[k] == Str("")
  {
    IspVars(m, ZeroIsp);
  }

  /** Projecting the same record twice leaves the sink as projecting it once. */
  lemma IspIdempotent(m: map<string, Value>, r: IspRecord)
    ensures Apply(Apply(m, IspWrites(r)), IspWrites(r)) == Apply(m, IspWrites(r))
  {
    ApplyIdempotent(m, IspWrites(r));
  }
}
