/** The projector for Enterprise, City and Country databases
    (replacer/enterprise.go). */
module EnterpriseReplacer {
  import opened Records
  import opened Sink
  import opened MaxMind
  import opened EnterpriseKeys

  /** The locales whose names get a variable of their own. */
  const LanguageCodes: seq<string> := ["de", "en", "es", "fr", "ja", "pt-BR", "ru", "zh-CN"]

  /** The least number of subdivisions the projector writes. */
  const SubdivisionSize: nat := 2

  /** `names[lc]` on a Go map: the empty string when the locale is absent. */
  function NameOf(names: Names, lc: string): (r: string)
    ensures lc in names ==> r == names[lc]
    ensures lc !in names ==> r == ""
  {
    if lc in names then names[lc] else ""
  }

  // ---------------------------------------------------------------------
  // The writes of each block, in the order the projector performs them

  /** One iteration of a locale loop: `names_<lc>`, then `name` for English. */
  function LocaleWrites(s: Section, names: Names, lc: string): seq<Write> {
    [Write(Key(s, "names_" + lc), Str(NameOf(names, lc)))]
    + (if lc == "en" then [Write(Key(s, "name"), Str(NameOf(names, lc)))] else [])
  }

  /** The locale loop over `codes`. */
  function LocalizedWrites(s: Section, names: Names, codes: seq<string>): seq<Write>
    decreases |codes|
  {
    if codes == [] then []
    else LocalizedWrites(s, names, codes[..|codes| - 1]) + LocaleWrites(s, names, codes[|codes| - 1])
  }

  function CountryFieldWrites(c: Country): seq<Write> {
    var s := CountryBlock;
    [Write(Key(s, "code"), Str(c.isoCode)),
     Write(Key(s, "confidence"), Nat(c.confidence)),
     Write(Key(s, "eu"), Bool(c.isInEuropeanUnion)),
     Write(Key(s, "geoname_id"), Nat(c.geoNameId)),
     Write(Key(s, "names"), NameMap(c.names))]
  }

  function ContinentFieldWrites(c: Continent): seq<Write> {
    var s := ContinentBlock;
    [Write(Key(s, "code"), Str(c.code)),
     Write(Key(s, "names"), NameMap(c.names)),
     Write(Key(s, "geoname_id"), Nat(c.geoNameId))]
  }

  function CityFieldWrites(c: City): seq<Write> {
    var s := CityBlock;
    [Write(Key(s, "confidence"), Nat(c.confidence)),
     Write(Key(s, "geoname_id"), Nat(c.geoNameId)),
     Write(Key(s, "names"), NameMap(c.names))]
  }

  function LocationWrites(l: Location): seq<Write> {
    var s := LocationBlock;
    [Write(Key(s, "latitude"), Float(l.latitude)),
     Write(Key(s, "longitude"), Float(l.longitude)),
     Write(Key(s, "time_zone"), Str(l.timeZone)),
     Write(Key(s, "accuracy_radius"), Nat(l.accuracyRadius)),
     Write(Key(s, "metro_code"), Nat(l.metroCode))]
  }

  function PostalWrites(p: Postal): seq<Write> {
    var s := PostalBlock;
    [Write(Key(s, "code"), Str(p.code)),
     Write(Key(s, "confidence"), Nat(p.confidence))]
  }

  function RegisteredCountryFieldWrites(c: RegisteredCountry): seq<Write> {
    var s := RegisteredCountryBlock;
    [Write(Key(s, "geoname_id"), Nat(c.geoNameId)),
     Write(Key(s, "is_in_european_union"), Bool(c.isInEuropeanUnion)),
     Write(Key(s, "iso_code"), Str(c.isoCode)),
     Write(Key(s, "names"), NameMap(c.names))]
  }

  function RepresentedCountryFieldWrites(c: RepresentedCountry): seq<Write> {
    var s := RepresentedCountryBlock;
    [Write(Key(s, "geoname_id"), Nat(c.geoNameId)),
     Write(Key(s, "is_in_european_union"), Bool(c.isInEuropeanUnion)),
     Write(Key(s, "iso_code"), Str(c.isoCode)),
     Write(Key(s, "names"), NameMap(c.names)),
     Write(Key(s, "type"), Str(c.typeName))]
  }

  function SubdivisionFieldWrites(index: nat, d: Subdivision): seq<Write> {
    var s := SubdivisionBlock(index);
    [Write(Key(s, "confidence"), Nat(d.confidence)),
     Write(Key(s, "geoname_id"), Nat(d.geoNameId)),
     Write(Key(s, "iso_code"), Str(d.isoCode)),
     Write(Key(s, "names"), NameMap(d.names))]
  }

  function TraitsWrites(t: Traits): seq<Write> {
    var s := TraitsBlock;
    [Write(Key(s, "autonomous_system_number"), Nat(t.autonomousSystemNumber)),
     Write(Key(s, "autonomous_system_organization"), Str(t.autonomousSystemOrganization)),
     Write(Key(s, "connection_type"), Str(t.connectionType)),
     Write(Key(s, "domain"), Str(t.domain)),
     Write(Key(s, "is_anonymous_proxy"), Bool(t.isAnonymousProxy)),
     Write(Key(s, "is_anycast"), Bool(t.isAnycast)),
     Write(Key(s, "is_legitimate_proxy"), Bool(t.isLegitimateProxy)),
     Write(Key(s, "is_satellite_provider"), Bool(t.isSatelliteProvider)),
     Write(Key(s, "isp"), Str(t.isp)),
     Write(Key(s, "mobile_country_code"), Str(t.mobileCountryCode)),
     Write(Key(s, "mobile_network_code"), Str(t.mobileNetworkCode)),
     Write(Key(s, "organization"), Str(t.organization)),
     Write(Key(s, "static_ip_score"), Float(t.staticIpScore)),
     Write(Key(s, "user_type"), Str(t.userType))]
  }

  function CountryWrites(c: Country): seq<Write> {
    CountryFieldWrites(c) + LocalizedWrites(CountryBlock, c.names, LanguageCodes)
  }

  function ContinentWrites(c: Continent): seq<Write> {
    ContinentFieldWrites(c) + LocalizedWrites(ContinentBlock, c.names, LanguageCodes)
  }

  function CityWrites(c: City): seq<Write> {
    CityFieldWrites(c) + LocalizedWrites(CityBlock, c.names, LanguageCodes)
  }

  function RegisteredCountryWrites(c: RegisteredCountry): seq<Write> {
    RegisteredCountryFieldWrites(c) + LocalizedWrites(RegisteredCountryBlock, c.names, LanguageCodes)
  }

  function RepresentedCountryWrites(c: RepresentedCountry): seq<Write> {
    RepresentedCountryFieldWrites(c) + LocalizedWrites(RepresentedCountryBlock, c.names, LanguageCodes)
  }

  function SubdivisionWrites(index: nat, d: Subdivision): seq<Write> {
    SubdivisionFieldWrites(index, d) + LocalizedWrites(SubdivisionBlock(index), d.names, LanguageCodes)
  }

  /** The subdivision list grown with zero subdivisions to `SubdivisionSize`. */
  function Padded(subs: seq<Subdivision>): seq<Subdivision>
    decreases SubdivisionSize - |subs|
  {
    if |subs| >= SubdivisionSize then subs else Padded(subs + [ZeroSubdivision])
  }

  /** The writes of each entry of the subdivision loop, numbered from 0. */
  function SubdivisionBlocks(subs: seq<Subdivision>): seq<seq<Write>> {
    seq(|subs|, j requires 0 <= j < |subs| => SubdivisionWrites(j, subs[j]))
  }

  function SubdivisionsWrites(subs: seq<Subdivision>): seq<Write> {
    var padded := Padded(subs);
    [Write(SubdivisionsKey, Subdivs(padded))] + Concat(SubdivisionBlocks(padded))
  }

  /** Every write of `SetEnterprise`, in order. */
  function EnterpriseWrites(r: EnterpriseRecord): seq<Write> {
    CountryWrites(r.country)
    + ContinentWrites(r.continent)
    + CityWrites(r.city)
    + LocationWrites(r.location)
    + PostalWrites(r.postal)
    + RegisteredCountryWrites(r.registeredCountry)
    + RepresentedCountryWrites(r.representedCountry)
    + SubdivisionsWrites(r.subdivisions)
    + TraitsWrites(r.traits)
  }

  // ---------------------------------------------------------------------
  // The projector

  /** The blocks performed one after the other are `EnterpriseWrites`. */
  lemma EnterpriseBlocks(o: seq<Write>, r: EnterpriseRecord)
    ensures o + CountryWrites(r.country) + ContinentWrites(r.continent) + CityWrites(r.city)
              + LocationWrites(r.location) + PostalWrites(r.postal)
              + RegisteredCountryWrites(r.registeredCountry)
              + RepresentedCountryWrites(r.representedCountry)
              + SubdivisionsWrites(r.subdivisions) + TraitsWrites(r.traits)
            == o + EnterpriseWrites(r)
  {
    var a := CountryWrites(r.country);
    var b := ContinentWrites(r.continent);
    var c := CityWrites(r.city);
    var d := LocationWrites(r.location);
    var e := PostalWrites(r.postal);
    var f := RegisteredCountryWrites(r.registeredCountry);
    var g := RepresentedCountryWrites(r.representedCountry);
    var h := SubdivisionsWrites(r.subdivisions);
    var i := TraitsWrites(r.traits);
    AppendAssociative(o, a, b);
    AppendAssociative(o, a + b, c);
    AppendAssociative(o, a + b + c, d);
    AppendAssociative(o, a + b + c + d, e);
    AppendAssociative(o, a + b + c + d + e, f);
    AppendAssociative(o, a + b + c + d + e + f, g);
    AppendAssociative(o, a + b + c + d + e + f + g, h);
    AppendAssociative(o, a + b + c + d + e + f + g + h, i);
  }

  /** Fourteen single writes in a row are the fourteen writes. */
  lemma Appended14(o: seq<Write>, w1: Write, w2: Write, w3: Write, w4: Write, w5: Write, w6: Write,
                   w7: Write, w8: Write, w9: Write, w10: Write, w11: Write, w12: Write, w13: Write,
                   w14: Write)
    ensures o + [w1] + [w2] + [w3] + [w4] + [w5] + [w6] + [w7] + [w8] + [w9] + [w10] + [w11]
              + [w12] + [w13] + [w14]
            == o + [w1, w2, w3, w4, w5, w6, w7, w8, w9, w10, w11, w12, w13, w14]
  {
  }

  /** The locale loop of one section. */
  method SetLocalizedNames(repl: Replacer, s: Section, names: Names)
    modifies repl
    ensures repl.log == old(repl.log) + LocalizedWrites(s, names, LanguageCodes)
  {
    for i := 0 to |LanguageCodes|
      invariant repl.log == old(repl.log) + LocalizedWrites(s, names, LanguageCodes[..i])
    {
      ghost var before := repl.log;
      var lc := LanguageCodes[i];
      var value := NameOf(names, lc);
      repl.Set(Key(s, "names_" + lc), Str(value));
      if lc == "en" {
        repl.Set(Key(s, "name"), Str(value));
      }
      assert repl.log == before + LocaleWrites(s, names, lc);
      assert LanguageCodes[..i + 1][..i] == LanguageCodes[..i];
      AppendAssociative(old(repl.log), LocalizedWrites(s, names, LanguageCodes[..i]), LocaleWrites(s, names, lc));
    }
    assert LanguageCodes[..|LanguageCodes|] == LanguageCodes;
  }

  method SetCountry(repl: Replacer, c: Country)
    modifies repl
    ensures repl.log == old(repl.log) + CountryWrites(c)
  {
    var s := CountryBlock;
    repl.Set(Key(s, "code"), Str(c.isoCode));
    repl.Set(Key(s, "confidence"), Nat(c.confidence));
    repl.Set(Key(s, "eu"), Bool(c.isInEuropeanUnion));
    repl.Set(Key(s, "geoname_id"), Nat(c.geoNameId));
    repl.Set(Key(s, "names"), NameMap(c.names));
    assert repl.log == old(repl.log) + CountryFieldWrites(c);
    SetLocalizedNames(repl, s, c.names);
    AppendAssociative(old(repl.log), CountryFieldWrites(c), LocalizedWrites(s, c.names, LanguageCodes));
  }

  method SetContinent(repl: Replacer, c: Continent)
    modifies repl
    ensures repl.log == old(repl.log) + ContinentWrites(c)
  {
    var s := ContinentBlock;
    repl.Set(Key(s, "code"), Str(c.code));
    repl.Set(Key(s, "names"), NameMap(c.names));
    repl.Set(Key(s, "geoname_id"), Nat(c.geoNameId));
    assert repl.log == old(repl.log) + ContinentFieldWrites(c);
    SetLocalizedNames(repl, s, c.names);
    AppendAssociative(old(repl.log), ContinentFieldWrites(c), LocalizedWrites(s, c.names, LanguageCodes));
  }

  method SetCity(repl: Replacer, c: City)
    modifies repl
    ensures repl.log == old(repl.log) + CityWrites(c)
  {
    var s := CityBlock;
    repl.Set(Key(s, "confidence"), Nat(c.confidence));
    repl.Set(Key(s, "geoname_id"), Nat(c.geoNameId));
    repl.Set(Key(s, "names"), NameMap(c.names));
    assert repl.log == old(repl.log) + CityFieldWrites(c);
    SetLocalizedNames(repl, s, c.names);
    AppendAssociative(old(repl.log), CityFieldWrites(c), LocalizedWrites(s, c.names, LanguageCodes));
  }

  method SetLocation(repl: Replacer, l: Location)
    modifies repl
    ensures repl.log == old(repl.log) + LocationWrites(l)
  {
    var s := LocationBlock;
    repl.Set(Key(s, "latitude"), Float(l.latitude));
    repl.Set(Key(s, "longitude"), Float(l.longitude));
    repl.Set(Key(s, "time_zone"), Str(l.timeZone));
    repl.Set(Key(s, "accuracy_radius"), Nat(l.accuracyRadius));
    repl.Set(Key(s, "metro_code"), Nat(l.metroCode));
  }

  method SetPostal(repl: Replacer, p: Postal)
    modifies repl
    ensures repl.log == old(repl.log) + PostalWrites(p)
  {
    var s := PostalBlock;
    repl.Set(Key(s, "code"), Str(p.code));
    repl.Set(Key(s, "confidence"), Nat(p.confidence));
  }

  method SetRegisteredCountry(repl: Replacer, c: RegisteredCountry)
    modifies repl
    ensures repl.log == old(repl.log) + RegisteredCountryWrites(c)
  {
    var s := RegisteredCountryBlock;
    repl.Set(Key(s, "geoname_id"), Nat(c.geoNameId));
    repl.Set(Key(s, "is_in_european_union"), Bool(c.isInEuropeanUnion));
    repl.Set(Key(s, "iso_code"), Str(c.isoCode));
    repl.Set(Key(s, "names"), NameMap(c.names));
    assert repl.log == old(repl.log) + RegisteredCountryFieldWrites(c);
    SetLocalizedNames(repl, s, c.names);
    AppendAssociative(old(repl.log), RegisteredCountryFieldWrites(c), LocalizedWrites(s, c.names, LanguageCodes));
  }

  method SetRepresentedCountry(repl: Replacer, c: RepresentedCountry)
    modifies repl
    ensures repl.log == old(repl.log) + RepresentedCountryWrites(c)
  {
    var s := RepresentedCountryBlock;
    repl.Set(Key(s, "geoname_id"), Nat(c.geoNameId));
    repl.Set(Key(s, "is_in_european_union"), Bool(c.isInEuropeanUnion));
    repl.Set(Key(s, "iso_code"), Str(c.isoCode));
    repl.Set(Key(s, "names"), NameMap(c.names));
    repl.Set(Key(s, "type"), Str(c.typeName));
    assert repl.log == old(repl.log) + RepresentedCountryFieldWrites(c);
    SetLocalizedNames(repl, s, c.names);
    AppendAssociative(old(repl.log), RepresentedCountryFieldWrites(c), LocalizedWrites(s, c.names, LanguageCodes));
  }

  /** The zero-padding loop. */
  method PadSubdivisions(subs: seq<Subdivision>) returns (padded: seq<Subdivision>)
    ensures padded == Padded(subs)
  {
    padded := subs;
    while |padded| < SubdivisionSize
      invariant Padded(padded) == Padded(subs)
      decreases SubdivisionSize - |padded|
    {
      padded := padded + [ZeroSubdivision];
    }
  }

  /** One entry of the subdivision loop; `index` counts from 0. */
  method SetSubdivision(repl: Replacer, index: nat, d: Subdivision)
    modifies repl
    ensures repl.log == old(repl.log) + SubdivisionWrites(index, d)
  {
    var s := SubdivisionBlock(index);
    repl.Set(Key(s, "confidence"), Nat(d.confidence));
    repl.Set(Key(s, "geoname_id"), Nat(d.geoNameId));
    repl.Set(Key(s, "iso_code"), Str(d.isoCode));
    repl.Set(Key(s, "names"), NameMap(d.names));
    assert repl.log == old(repl.log) + SubdivisionFieldWrites(index, d);
    SetLocalizedNames(repl, s, d.names);
    AppendAssociative(old(repl.log), SubdivisionFieldWrites(index, d), LocalizedWrites(s, d.names, LanguageCodes));
  }

  /** Pads the subdivisions, writes the list, then each entry numbered from 1. */
  method SetSubdivisions(repl: Replacer, subs: seq<Subdivision>)
    modifies repl
    ensures repl.log == old(repl.log) + SubdivisionsWrites(subs)
  {
    var padded := PadSubdivisions(subs);
    repl.Set(SubdivisionsKey, Subdivs(padded));
    ghost var head := repl.log;
    ghost var blocks := SubdivisionBlocks(padded);
    for index := 0 to |padded|
      invariant repl.log == head + Concat(blocks[..index])
    {
      SetSubdivision(repl, index, padded[index]);
      assert blocks[..index + 1][..index] == blocks[..index];
      AppendAssociative(head, Concat(blocks[..index]), blocks[index]);
    }
    assert blocks[..|padded|] == blocks;
    AppendAssociative(old(repl.log), [Write(SubdivisionsKey, Subdivs(padded))], Concat(blocks));
  }

  method SetTraits(repl: Replacer, t: Traits)
    modifies repl
    ensures repl.log == old(repl.log) + TraitsWrites(t)
  {
    var s := TraitsBlock;
    var w1 := Write(Key(s, "autonomous_system_number"), Nat(t.autonomousSystemNumber));
    var w2 := Write(Key(s, "autonomous_system_organization"), Str(t.autonomousSystemOrganization));
    var w3 := Write(Key(s, "connection_type"), Str(t.connectionType));
    var w4 := Write(Key(s, "domain"), Str(t.domain));
    var w5 := Write(Key(s, "is_anonymous_proxy"), Bool(t.isAnonymousProxy));
    var w6 := Write(Key(s, "is_anycast"), Bool(t.isAnycast));
    var w7 := Write(Key(s, "is_legitimate_proxy"), Bool(t.isLegitimateProxy));
    var w8 := Write(Key(s, "is_satellite_provider"), Bool(t.isSatelliteProvider));
    var w9 := Write(Key(s, "isp"), Str(t.isp));
    var w10 := Write(Key(s, "mobile_country_code"), Str(t.mobileCountryCode));
    var w11 := Write(Key(s, "mobile_network_code"), Str(t.mobileNetworkCode));
    var w12 := Write(Key(s, "organization"), Str(t.organization));
    var w13 := Write(Key(s, "static_ip_score"), Float(t.staticIpScore));
    var w14 := Write(Key(s, "user_type"), Str(t.userType));
    repl.Set(w1.key, w1.value);
    repl.Set(w2.key, w2.value);
    repl.Set(w3.key, w3.value);
    repl.Set(w4.key, w4.value);
    repl.Set(w5.key, w5.value);
    repl.Set(w6.key, w6.value);
    repl.Set(w7.key, w7.value);
    repl.Set(w8.key, w8.value);
    repl.Set(w9.key, w9.value);
    repl.Set(w10.key, w10.value);
    repl.Set(w11.key, w11.value);
    repl.Set(w12.key, w12.value);
    repl.Set(w13.key, w13.value);
    repl.Set(w14.key, w14.value);
    Appended14(old(repl.log), w1, w2, w3, w4, w5, w6, w7, w8, w9, w10, w11, w12, w13, w14);
  }

  /** `SetEnterprise`: exactly the writes of `EnterpriseWrites`, in order. */
  method SetEnterprise(repl: Replacer, r: EnterpriseRecord)
    modifies repl
    ensures repl.log == old(repl.log) + EnterpriseWrites(r)
    ensures repl.Vars() == Apply(old(repl.Vars()), EnterpriseWrites(r))
  {
    SetCountry(repl, r.country);
    SetContinent(repl, r.continent);
    SetCity(repl, r.city);
    SetLocation(repl, r.location);
    SetPostal(repl, r.postal);
    SetRegisteredCountry(repl, r.registeredCountry);
    SetRepresentedCountry(repl, r.representedCountry);
    SetSubdivisions(repl, r.subdivisions);
    SetTraits(repl, r.traits);
    EnterpriseBlocks(old(repl.log), r);
    ApplyConcat(repl.initial, old(repl.log), EnterpriseWrites(r));
  }

  /** `Enterprise.Lookup`: decode the record for `clientIP` and project it.
      A decode error is only logged, so the projection runs either way. */
  method Lookup(reader: Decoder, repl: Replacer, clientIP: IP)
    modifies repl
    ensures repl.log == old(repl.log) + EnterpriseWrites(reader.enterprise(clientIP).record)
    ensures repl.Vars() == Apply(old(repl.Vars()), EnterpriseWrites(reader.enterprise(clientIP).record))
  {
    var decoded := reader.enterprise(clientIP);
    SetEnterprise(repl, decoded.record);
  }
}
