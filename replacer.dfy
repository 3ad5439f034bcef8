/** The replacer package's entry points (replacer/replacer.go): choosing a
    projector from a database's declared type, and priming a sink with the
    zero value of every variable. */
module Replacers {
  import opened Basics
  import opened Records
  import opened Sink
  import opened MaxMind
  import opened EnterpriseKeys
  import EnterpriseReplacer
  import EnterpriseFacts
  import EnterpriseValues
  import EnterpriseShape
  import IspReplacer
  import AnonymousReplacer
  import ConnectionTypeReplacer
  import DomainReplacer

  /** The five projector implementations behind the `Replacer` interface. */
  datatype Family = Enterprise | Isp | ConnectionType | Domain | Anonymous

  /** A `Replacer`: a projector family bound to an opened database's decoder. */
  datatype Projector = Projector(family: Family, reader: Decoder)

  /** The errors `New` returns: the database could not be opened (the
      cause wrapped), or its type is not one the plugin knows (named). */
  datatype ReplacerError = OpenFailed(cause: string) | Unsupported(databaseType: string)

  /** The database types served by the Enterprise projector. */
  const EnterpriseTypes: seq<string> := [
    "DBIP-City-Lite", "DBIP-Country", "DBIP-Country-Lite", "DBIP-ISP (compat=Enterprise)",
    "DBIP-Location (compat=City)", "DBIP-Location-ISP (compat=Enterprise)", "GeoIP2-City",
    "GeoIP2-City-Africa", "GeoIP2-City-Asia-Pacific", "GeoIP2-City-Europe",
    "GeoIP2-City-North-America", "GeoIP2-City-South-America", "GeoIP2-Country",
    "GeoIP2-Enterprise", "GeoIP2-Precision-City", "GeoLite2-City", "GeoLite2-Country"]

  /** The database types served by the ISP projector. */
  const IspTypes: seq<string> := [
    "DBIP-ASN-Lite (compat=GeoLite2-ASN)", "GeoIP2-ISP", "GeoIP2-Precision-ISP", "GeoLite2-ASN"]

  /** `getReplacerForType`: the switch on `reader.Metadata.DatabaseType`. */
  function FamilyOf(databaseType: string): (r: Result<Family, ReplacerError>)
    ensures r.Err? ==> r.error == Unsupported(databaseType)
  {
    match databaseType
    case "DBIP-City-Lite" | "DBIP-Country" | "DBIP-Country-Lite" | "DBIP-ISP (compat=Enterprise)"
       | "DBIP-Location (compat=City)" | "DBIP-Location-ISP (compat=Enterprise)" | "GeoIP2-City"
       | "GeoIP2-City-Africa" | "GeoIP2-City-Asia-Pacific" | "GeoIP2-City-Europe"
       | "GeoIP2-City-North-America" | "GeoIP2-City-South-America" | "GeoIP2-Country"
       | "GeoIP2-Enterprise" | "GeoIP2-Precision-City" | "GeoLite2-City" | "GeoLite2-Country" =>
      Ok(Enterprise)
    case "DBIP-ASN-Lite (compat=GeoLite2-ASN)" | "GeoIP2-ISP" | "GeoIP2-Precision-ISP" | "GeoLite2-ASN" =>
      Ok(Isp)
    case "GeoIP2-Connection-Type" => Ok(ConnectionType)
    case "GeoIP2-Domain" => Ok(Domain)
    case "GeoIP2-Anonymous-IP" => Ok(Anonymous)
    case _ => Err(Unsupported(databaseType))
  }

  /** The case lists of the switch are disjoint, so no type could be claimed
      by two families. */
  lemma TypeListsDisjoint()
    ensures forall t :: t in EnterpriseTypes ==> t !in IspTypes
    ensures forall t :: t in EnterpriseTypes + IspTypes ==>
              t != "GeoIP2-Connection-Type" && t != "GeoIP2-Domain" && t != "GeoIP2-Anonymous-IP"
  {
    forall t | t in EnterpriseTypes ensures t !in IspTypes {
      Dispatch(t);
    }
    forall t | t in EnterpriseTypes + IspTypes
      ensures t != "GeoIP2-Connection-Type" && t != "GeoIP2-Domain" && t != "GeoIP2-Anonymous-IP"
    {
      Dispatch(t);
    }
  }

  /** The dispatch table, family by family, in both directions. */
  lemma Dispatch(t: string)
    ensures FamilyOf(t) == Ok(Enterprise) <==> t in EnterpriseTypes
    ensures FamilyOf(t) == Ok(Isp) <==> t in IspTypes
    ensures FamilyOf(t) == Ok(ConnectionType) <==> t == "GeoIP2-Connection-Type"
    ensures FamilyOf(t) == Ok(Domain) <==> t == "GeoIP2-Domain"
    ensures FamilyOf(t) == Ok(Anonymous) <==> t == "GeoIP2-Anonymous-IP"
    ensures FamilyOf(t).Err? <==>
              t !in EnterpriseTypes + IspTypes + ["GeoIP2-Connection-Type", "GeoIP2-Domain", "GeoIP2-Anonymous-IP"]
  {
  }

  /** `New`: open the database file, then dispatch on its type. Opening is
      foreign code, so what it returned is the parameter `outcome`. */
  function New(outcome: Result<Database, string>): (r: Result<Projector, ReplacerError>)
    ensures outcome.Err? ==> r == Err(OpenFailed(outcome.error))
    ensures r.Ok? ==> outcome.Ok? && r.value.reader == outcome.value.decoder
                      && FamilyOf(outcome.value.databaseType) == Ok(r.value.family)
    ensures outcome.Ok? && FamilyOf(outcome.value.databaseType).Err? ==>
              r == Err(Unsupported(outcome.value.databaseType))
  {
    match outcome
    case Err(cause) => Err(OpenFailed(cause))
    case Ok(db) =>
      match FamilyOf(db.databaseType)
      case Ok(family) => Ok(Projector(family, db.decoder))
      case Err(e) => Err(e)
  }

  /** The writes a projector's `Lookup` performs for `clientIP`. */
  function ProjectorWrites(p: Projector, clientIP: IP): seq<Write> {
    match p.family
    case Enterprise => EnterpriseReplacer.EnterpriseWrites(p.reader.enterprise(clientIP).record)
    case Isp => IspReplacer.IspWrites(p.reader.isp(clientIP).record)
    case ConnectionType => ConnectionTypeReplacer.ConnectionTypeWrites(p.reader.connectionType(clientIP).record)
    case Domain => DomainReplacer.DomainWrites(p.reader.domain(clientIP).record)
    case Anonymous => AnonymousReplacer.AnonymousWrites(p.reader.anonymous(clientIP).record)
  }

  /** `Replacer.Lookup`, dispatched to the projector's family. */
  method Lookup(p: Projector, repl: Replacer, clientIP: IP)
    modifies repl
    ensures repl.log == old(repl.log) + ProjectorWrites(p, clientIP)
  {
    match p.family
    case Enterprise => EnterpriseReplacer.Lookup(p.reader, repl, clientIP);
    case Isp => IspReplacer.Lookup(p.reader, repl, clientIP);
    case ConnectionType => ConnectionTypeReplacer.Lookup(p.reader, repl, clientIP);
    case Domain => DomainReplacer.Lookup(p.reader, repl, clientIP);
    case Anonymous => AnonymousReplacer.Lookup(p.reader, repl, clientIP);
  }

  /** The variable holding the client address. */
  const IpAddressKey: string := "geoip2.ip_address"

  /** Every projector run once, in the order `SetDefaultValues` runs them. */
  function Projections(an: AnonymousRecord, ct: ConnectionTypeRecord, dm: DomainRecord,
                       isp: IspRecord, ent: EnterpriseRecord): seq<Write> {
    AnonymousReplacer.AnonymousWrites(an)
    + ConnectionTypeReplacer.ConnectionTypeWrites(ct)
    + DomainReplacer.DomainWrites(dm)
    + IspReplacer.IspWrites(isp)
    + EnterpriseReplacer.EnterpriseWrites(ent)
  }

  /** The writes of `SetDefaultValues`: the address, then every projector on
      its zero record. */
  function DefaultWrites(): seq<Write> {
    [Write(IpAddressKey, Str(""))]
    + Projections(ZeroAnonymous, ZeroConnectionType, ZeroDomain, ZeroIsp, ZeroEnterprise)
  }

  lemma DefaultWritesParts(an: AnonymousRecord, ct: ConnectionTypeRecord, dm: DomainRecord,
                           isp: IspRecord, ent: EnterpriseRecord)
    requires an == ZeroAnonymous && ct == ZeroConnectionType && dm == ZeroDomain
    requires isp == ZeroIsp && ent == ZeroEnterprise
    ensures DefaultWrites() == [Write(IpAddressKey, Str(""))] + Projections(an, ct, dm, isp, ent)
  {
  }

  lemma AppendAssociative5(h: seq<Write>, a: seq<Write>, c: seq<Write>, d: seq<Write>, i: seq<Write>, e: seq<Write>)
    ensures h + a + c + d + i + e == h + (a + c + d + i + e)
  {
  }

  method SetDefaultValues(repl: Replacer)
    modifies repl
    ensures repl.log == old(repl.log) + DefaultWrites()
    ensures repl.Vars() == Apply(old(repl.Vars()), DefaultWrites())
  {
    repl.Set(IpAddressKey, Str(""));
    var anonymous, connectionType, domain, isp, enterprise :=
      ZeroAnonymous, ZeroConnectionType, ZeroDomain, ZeroIsp, ZeroEnterprise;
    ghost var start, done := old(repl.log), [Write(IpAddressKey, Str(""))];
    AnonymousReplacer.SetAnonymous(repl, anonymous);
    AppendAssociative(start, done, AnonymousReplacer.AnonymousWrites(anonymous));
    done := done + AnonymousReplacer.AnonymousWrites(anonymous);
    ConnectionTypeReplacer.SetConnectionType(repl, connectionType);
    AppendAssociative(start, done, ConnectionTypeReplacer.ConnectionTypeWrites(connectionType));
    done := done + ConnectionTypeReplacer.ConnectionTypeWrites(connectionType);
    DomainReplacer.SetDomain(repl, domain);
    AppendAssociative(start, done, DomainReplacer.DomainWrites(domain));
    done := done + DomainReplacer.DomainWrites(domain);
    IspReplacer.SetISP(repl, isp);
    AppendAssociative(start, done, IspReplacer.IspWrites(isp));
    done := done + IspReplacer.IspWrites(isp);
    EnterpriseReplacer.SetEnterprise(repl, enterprise);
    AppendAssociative(start, done, EnterpriseReplacer.EnterpriseWrites(enterprise));
    done := done + EnterpriseReplacer.EnterpriseWrites(enterprise);
    DefaultWritesParts(anonymous, connectionType, domain, isp, enterprise);
    AppendAssociative5([Write(IpAddressKey, Str(""))],
      AnonymousReplacer.AnonymousWrites(anonymous), ConnectionTypeReplacer.ConnectionTypeWrites(connectionType),
      DomainReplacer.DomainWrites(domain), IspReplacer.IspWrites(isp), EnterpriseReplacer.EnterpriseWrites(enterprise));
    ApplyConcat(repl.initial, start, done);
  }

  lemma IpAddressNotEnterprise(r: EnterpriseRecord)
    ensures IpAddressKey !in KeysOf(EnterpriseReplacer.EnterpriseWrites(r))
  {
    var w := EnterpriseReplacer.EnterpriseWrites(r);
    EnterpriseFacts.EnterpriseBlock(r);
    IpAddressHead();
    forall x | x in w ensures x.key != IpAddressKey {
      assert HeadOfKey(x.key) in EnterpriseFacts.EnterpriseHeads;
    }
  }

  lemma IpAddressNotIsp(r: IspRecord)
    ensures IpAddressKey !in KeysOf(IspReplacer.IspWrites(r))
  {
    var w := IspReplacer.IspWrites(r);
    IspReplacer.IspKeysWritten(r);
    forall x | x in w ensures x.key != IpAddressKey {
      var i :| 0 <= i < |w| && w[i] == x;
      assert x.key == IspReplacer.IspKeys[i];
    }
  }

  lemma IpAddressNotAnonymous(r: AnonymousRecord)
    ensures IpAddressKey !in KeysOf(AnonymousReplacer.AnonymousWrites(r))
  {
    var w := AnonymousReplacer.AnonymousWrites(r);
    AnonymousReplacer.AnonymousKeysWritten(r);
    forall x | x in w ensures x.key != IpAddressKey {
      var i :| 0 <= i < |w| && w[i] == x;
      assert x.key == AnonymousReplacer.AnonymousKeys[i];
    }
  }

  /** No projector writes the address variable. */
  lemma IpAddressNotProjected(p: Projector, clientIP: IP)
    ensures IpAddressKey !in KeysOf(ProjectorWrites(p, clientIP))
  {
    match p.family
    case Enterprise => IpAddressNotEnterprise(p.reader.enterprise(clientIP).record);
    case Isp => IpAddressNotIsp(p.reader.isp(clientIP).record);
    case ConnectionType =>
    case Domain =>
    case Anonymous => IpAddressNotAnonymous(p.reader.anonymous(clientIP).record);
  }

  lemma IpAddressHead()
    ensures HeadOfKey(IpAddressKey) !in EnterpriseFacts.EnterpriseHeads
  {
    assert IpAddressKey[|Namespace|..] == "ip" + ['_'] + "address";
    Text.BeforeCharOf("ip", '_', "address");
  }

  lemma NotInKeys5(k: string, a: seq<Write>, c: seq<Write>, d: seq<Write>, i: seq<Write>, e: seq<Write>)
    requires k !in KeysOf(a) && k !in KeysOf(c) && k !in KeysOf(d) && k !in KeysOf(i) && k !in KeysOf(e)
    ensures k !in KeysOf(a + c + d + i + e)
  {
    KeysOfConcat(a, c);
    KeysOfConcat(a + c, d);
    KeysOfConcat(a + c + d, i);
    KeysOfConcat(a + c + d + i, e);
  }

  /** No projector writes the address, whatever the records. */
  lemma IpAddressNotInProjections(an: AnonymousRecord, ct: ConnectionTypeRecord, dm: DomainRecord,
                                  isp: IspRecord, ent: EnterpriseRecord)
    ensures IpAddressKey !in KeysOf(Projections(an, ct, dm, isp, ent))
  {
    IpAddressNotAnonymous(an);
    IpAddressNotIsp(isp);
    IpAddressNotEnterprise(ent);
    NotInKeys5(IpAddressKey, AnonymousReplacer.AnonymousWrites(an), ConnectionTypeReplacer.ConnectionTypeWrites(ct),
               DomainReplacer.DomainWrites(dm), IspReplacer.IspWrites(isp), EnterpriseReplacer.EnterpriseWrites(ent));
  }

  /** The projectors on their zero records write only zero values. */
  lemma ProjectionsZero(an: AnonymousRecord, ct: ConnectionTypeRecord, dm: DomainRecord,
                        isp: IspRecord, ent: EnterpriseRecord)
    requires an == ZeroAnonymous && ct == ZeroConnectionType && dm == ZeroDomain
    requires isp == ZeroIsp && ent == ZeroEnterprise
    ensures AllZero(Projections(an, ct, dm, isp, ent))
  {
    var a := AnonymousReplacer.AnonymousWrites(an);
    var c := ConnectionTypeReplacer.ConnectionTypeWrites(ct);
    var d := DomainReplacer.DomainWrites(dm);
    var i := IspReplacer.IspWrites(isp);
    var e := EnterpriseReplacer.EnterpriseWrites(ent);
    AnonymousReplacer.AnonymousZero(map[]);
    ConnectionTypeReplacer.ConnectionTypeZero(map[]);
    DomainReplacer.DomainZero(map[]);
    IspReplacer.IspZero(map[]);
    EnterpriseValues.EnterpriseZero();
    AllZeroJoin(a, c);
    AllZeroJoin(a + c, d);
    AllZeroJoin(a + c + d, i);
    AllZeroJoin(a + c + d + i, e);
  }

  /** A sink primed by `w`: the address write first, then zero writes that
      never touch the address. */
  lemma PrimedBy(m: map<string, Value>, w: seq<Write>, rest: seq<Write>)
    requires w == [Write(IpAddressKey, Str(""))] + rest
    requires AllZero(rest) && IpAddressKey !in KeysOf(rest)
    ensures var F := Apply(m, w);
            && IpAddressKey in F && F[IpAddressKey] == Str("")
            && forall k :: k in KeysOf(w) ==> k in F && IsZero(F[k])
  {
    var head := [Write(IpAddressKey, Str(""))];
    AllZeroJoin(head, rest);
    ApplyAllZero(m, w);
    ApplyConcat(m, head, rest);
    ApplyUntouched(Apply(m, head), rest, IpAddressKey);
    ApplySnoc(m, [], head[0]);
    assert [] + [head[0]] == head;
  }

  /** After `SetDefaultValues` the address is empty and every variable it
      wrote holds a zero value. */
  lemma DefaultsZero(m: map<string, Value>)
    ensures var F := Apply(m, DefaultWrites());
            && IpAddressKey in F && F[IpAddressKey] == Str("")
            && forall k :: k in KeysOf(DefaultWrites()) ==> k in F && IsZero(F[k])
  {
    var an, ct, dm, isp, ent := ZeroAnonymous, ZeroConnectionType, ZeroDomain, ZeroIsp, ZeroEnterprise;
    DefaultWritesParts(an, ct, dm, isp, ent);
    ProjectionsZero(an, ct, dm, isp, ent);
    IpAddressNotInProjections(an, ct, dm, isp, ent);
    PrimedBy(m, DefaultWrites(), Projections(an, ct, dm, isp, ent));
  }

  /** Each of five write lists touches only keys of their concatenation. */
  lemma KeysUnion5(a: seq<Write>, c: seq<Write>, d: seq<Write>, i: seq<Write>, e: seq<Write>)
    ensures KeysOf(a) <= KeysOf(a + c + d + i + e) && KeysOf(c) <= KeysOf(a + c + d + i + e)
    ensures KeysOf(d) <= KeysOf(a + c + d + i + e) && KeysOf(i) <= KeysOf(a + c + d + i + e)
    ensures KeysOf(e) <= KeysOf(a + c + d + i + e)
  {
    KeysOfConcat(a, c);
    KeysOfConcat(a + c, d);
    KeysOfConcat(a + c + d, i);
    KeysOfConcat(a + c + d + i, e);
  }

  /** The variables a projector's lookup writes, as a set: the same set as
      for the zero record, except for an Enterprise record with more than two
      subdivisions. */
  lemma SameKeysAsZero(p: Projector, clientIP: IP, an: AnonymousRecord, ct: ConnectionTypeRecord,
                       dm: DomainRecord, isp: IspRecord, ent: EnterpriseRecord)
    requires an == ZeroAnonymous && ct == ZeroConnectionType && dm == ZeroDomain
    requires isp == ZeroIsp && ent == ZeroEnterprise
    requires p.family == Enterprise ==> |p.reader.enterprise(clientIP).record.subdivisions| <= EnterpriseReplacer.SubdivisionSize
    ensures KeysOf(ProjectorWrites(p, clientIP)) <= KeysOf(Projections(an, ct, dm, isp, ent))
  {
    KeysUnion5(AnonymousReplacer.AnonymousWrites(an), ConnectionTypeReplacer.ConnectionTypeWrites(ct),
               DomainReplacer.DomainWrites(dm), IspReplacer.IspWrites(isp), EnterpriseReplacer.EnterpriseWrites(ent));
    match p.family
    case Enterprise => EnterpriseShape.PrimedKeysCover(p.reader.enterprise(clientIP).record, ent);
    case Isp => IspKeysFixed(p.reader.isp(clientIP).record, isp);
    case ConnectionType =>
    case Domain =>
    case Anonymous => AnonymousKeysFixed(p.reader.anonymous(clientIP).record, an);
  }

  /** The ISP variables do not depend on the record. */
  lemma IspKeysFixed(r: IspRecord, r2: IspRecord)
    ensures KeysOf(IspReplacer.IspWrites(r)) == KeysOf(IspReplacer.IspWrites(r2))
  {
    IspReplacer.IspKeysWritten(r);
    IspReplacer.IspKeysWritten(r2);
    KeysOfSame(IspReplacer.IspWrites(r), IspReplacer.IspWrites(r2));
  }

  /** The Anonymous IP variables do not depend on the record. */
  lemma AnonymousKeysFixed(r: AnonymousRecord, r2: AnonymousRecord)
    ensures KeysOf(AnonymousReplacer.AnonymousWrites(r)) == KeysOf(AnonymousReplacer.AnonymousWrites(r2))
  {
    AnonymousReplacer.AnonymousKeysWritten(r);
    AnonymousReplacer.AnonymousKeysWritten(r2);
    KeysOfSame(AnonymousReplacer.AnonymousWrites(r), AnonymousReplacer.AnonymousWrites(r2));
  }

  /** Priming creates every variable a later lookup writes, so a lookup
      only overwrites variables that already exist; the exception is an
      Enterprise record with three or more subdivisions, whose
      `subdivisions_3_*` variables and beyond are not primed. */
  lemma PrimedCoversLookup(m: map<string, Value>, p: Projector, clientIP: IP)
    requires p.family == Enterprise ==> |p.reader.enterprise(clientIP).record.subdivisions| <= EnterpriseReplacer.SubdivisionSize
    ensures KeysOf(ProjectorWrites(p, clientIP)) <= Apply(m, DefaultWrites()).Keys
  {
    var an, ct, dm, isp, ent := ZeroAnonymous, ZeroConnectionType, ZeroDomain, ZeroIsp, ZeroEnterprise;
    DefaultWritesParts(an, ct, dm, isp, ent);
    SameKeysAsZero(p, clientIP, an, ct, dm, isp, ent);
    KeysOfConcat([Write(IpAddressKey, Str(""))], Projections(an, ct, dm, isp, ent));
    ApplyKeys(m, DefaultWrites());
  }
}
