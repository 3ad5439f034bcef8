/** The projector for Domain databases (replacer/domain.go). */
module DomainReplacer {
  import opened Records
  import opened Sink
  import opened MaxMind

  const DomainKey := "geoip2.domain"

  function DomainWrites(r: DomainRecord): seq<Write> {
    [Write(DomainKey, Str(r.domain))]
  }

  method SetDomain(repl: Replacer, r: DomainRecord)
    modifies repl
    ensures repl.log == old(repl.log) + DomainWrites(r)
    ensures repl.Vars() == Apply(old(repl.Vars()), DomainWrites(r))
  {
    repl.Set(DomainKey, Str(r.domain));
    ApplyConcat(repl.initial, old(repl.log), DomainWrites(r));
  }

  /** `Domain.Lookup`: decode the record for `clientIP` and project it.
      A decode error is only logged, so the projection runs either way. */
  method Lookup(reader: Decoder, repl: Replacer, clientIP: IP)
    modifies repl
    ensures repl.log == old(repl.log) + DomainWrites(reader.domain(clientIP).record)
    ensures repl.Vars() == Apply(old(repl.Vars()), DomainWrites(reader.domain(clientIP).record))
  {
    var decoded := reader.domain(clientIP);
    SetDomain(repl, decoded.record);
  }

  /** The sink gains `geoip2.domain`, holding the record's field; nothing
      else changes. */
  lemma DomainVars(m: map<string, Value>, r: DomainRecord)
    ensures var F := Apply(m, DomainWrites(r));
            && F.Keys == m.Keys + {DomainKey}
            && F[DomainKey] == Str(r.domain)
            && forall k :: k in m && k != DomainKey ==> F[k] == m[k]
  {
    var w := DomainWrites(r);
    ApplySnoc(m, [], w[0]);
    assert [] + [w[0]] == w;
  }

  /** The zero record yields the empty string. */
  lemma DomainZero(m: map<string, Value>)
    ensures AllZero(DomainWrites(ZeroDomain))
    ensures var F := Apply(m, DomainWrites(ZeroDomain));
            DomainKey in F && F[DomainKey] == Str("")
  {
    DomainVars(m, ZeroDomain);
  }

  /** Projecting the same record twice leaves the sink as projecting it once. */
  lemma DomainIdempotent(m: map<string, Value>, r: DomainRecord)
    ensures Apply(Apply(m, DomainWrites(r)), DomainWrites(r)) == Apply(m, DomainWrites(r))
  {
    DomainVars(m, r);
    DomainVars(Apply(m, DomainWrites(r)), r);
  }
}
