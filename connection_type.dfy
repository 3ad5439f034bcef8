/** The projector for Connection-Type databases (replacer/connection-type.go). */
module ConnectionTypeReplacer {
  import opened Records
  import opened Sink
  import opened MaxMind

  const ConnectionTypeKey := "geoip2.connection_type"

  function ConnectionTypeWrites(r: ConnectionTypeRecord): seq<Write> {
    [Write(ConnectionTypeKey, Str(r.connectionType))]
  }

  method SetConnectionType(repl: Replacer, r: ConnectionTypeRecord)
    modifies repl
    ensures repl.log == old(repl.log) + ConnectionTypeWrites(r)
    ensures repl.Vars() == Apply(old(repl.Vars()), ConnectionTypeWrites(r))
  {
    repl.Set(ConnectionTypeKey, Str(r.connectionType));
    ApplyConcat(repl.initial, old(repl.log), ConnectionTypeWrites(r));
  }

  /** `ConnectionType.Lookup`: decode the record for `clientIP` and project it.
      A decode error is only logged, so the projection runs either way. */
  method Lookup(reader: Decoder, repl: Replacer, clientIP: IP)
    modifies repl
    ensures repl.log == old(repl.log) + ConnectionTypeWrites(reader.connectionType(clientIP).record)
    ensures repl.Vars() == Apply(old(repl.Vars()), ConnectionTypeWrites(reader.connectionType(clientIP).record))
  {
    var decoded := reader.connectionType(clientIP);
    SetConnectionType(repl, decoded.record);
  }

  /** The sink gains `geoip2.connection_type`, holding the record's field; nothing
      else changes. */
  lemma ConnectionTypeVars(m: map<string, Value>, r: ConnectionTypeRecord)
    ensures var F := Apply(m, ConnectionTypeWrites(r));
            && F.Keys == m.Keys + {ConnectionTypeKey}
            && F[ConnectionTypeKey] == Str(r.connectionType)
            && forall k :: k in m && k != ConnectionTypeKey ==> F[k] == m[k]
  {
    var w := ConnectionTypeWrites(r);
    ApplySnoc(m, [], w[0]);
    assert [] + [w[0]] == w;
  }

  /** The zero record yields the empty string. */
  lemma ConnectionTypeZero(m: map<string, Value>)
    ensures AllZero(ConnectionTypeWrites(ZeroConnectionType))
    ensures var F := Apply(m, ConnectionTypeWrites(ZeroConnectionType));
            ConnectionTypeKey in F && F[ConnectionTypeKey] == Str("")
  {
    ConnectionTypeVars(m, ZeroConnectionType);
  }

  /** Projecting the same record twice leaves the sink as projecting it once. */
  lemma ConnectionTypeIdempotent(m: map<string, Value>, r: ConnectionTypeRecord)
    ensures Apply(Apply(m, ConnectionTypeWrites(r)), ConnectionTypeWrites(r)) == Apply(m, ConnectionTypeWrites(r))
  {
    ConnectionTypeVars(m, r);
    ConnectionTypeVars(Apply(m, ConnectionTypeWrites(r)), r);
  }
}
