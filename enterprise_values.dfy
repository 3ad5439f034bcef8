/** What the sink holds after `SetEnterprise`, variable by variable. */
module EnterpriseValues {
  import opened Basics
  import opened Records
  import opened Sink
  import opened Text
  import opened EnterpriseKeys
  import opened EnterpriseReplacer
  import opened EnterpriseFacts

  /** Every write of `w` is what `F` holds for its key. */
  predicate Holds(F: map<string, Value>, w: seq<Write>) {
    forall x :: x in w ==> x.key in F && F[x.key] == x.value
  }

  lemma HoldsParts(F: map<string, Value>, a: seq<Write>, b: seq<Write>)
    requires Holds(F, a + b)
    ensures Holds(F, a) && Holds(F, b)
  {
  }

  /** Section `s` publishes its name map, the name of every locale (empty when
      the locale is missing), and the English name once more under `name`. */
  predicate NamesPublished(F: map<string, Value>, s: Section, names: Names) {
    && Key(s, "names") in F && F[Key(s, "names")] == NameMap(names)
    && Key(s, "name") in F && F[Key(s, "name")] == Str(NameOf(names, "en"))
    && forall lc :: lc in LanguageCodes ==>
         Key(s, "names_" + lc) in F && F[Key(s, "names_" + lc)] == Str(NameOf(names, lc))
  }

  lemma NamedBlockPublished(F: map<string, Value>, s: Section, fixed: seq<Write>, names: Names)
    requires Write(Key(s, "names"), NameMap(names)) in fixed
    requires Holds(F, fixed + LocalizedWrites(s, names, LanguageCodes))
    ensures NamesPublished(F, s, names)
  {
    LocalizedContains(s, names, LanguageCodes);
    assert "en" in LanguageCodes;
  }

  /** The blocks of `SetEnterprise` each hold in the final sink. */
  predicate BlocksHold(F: map<string, Value>, r: EnterpriseRecord) {
    && Holds(F, CountryWrites(r.country))
    && Holds(F, ContinentWrites(r.continent))
    && Holds(F, CityWrites(r.city))
    && Holds(F, LocationWrites(r.location))
    && Holds(F, PostalWrites(r.postal))
    && Holds(F, RegisteredCountryWrites(r.registeredCountry))
    && Holds(F, RepresentedCountryWrites(r.representedCountry))
    && Holds(F, SubdivisionsWrites(r.subdivisions))
    && Holds(F, TraitsWrites(r.traits))
  }

  lemma EnterpriseBlocksHold(m: map<string, Value>, r: EnterpriseRecord)
    ensures BlocksHold(Apply(m, EnterpriseWrites(r)), r)
  {
    var F := Apply(m, EnterpriseWrites(r));
    EnterpriseSurvives(m, r);
    var a := CountryWrites(r.country);
    var b := ContinentWrites(r.continent);
    var c := CityWrites(r.city);
    var d := LocationWrites(r.location);
    var e := PostalWrites(r.postal);
    var f := RegisteredCountryWrites(r.registeredCountry);
    var g := RepresentedCountryWrites(r.representedCountry);
    var h := SubdivisionsWrites(r.subdivisions);
    var i := TraitsWrites(r.traits);
    assert Holds(F, a + b + c + d + e + f + g + h + i);
    HoldsParts(F, a + b + c + d + e + f + g + h, i);
    HoldsParts(F, a + b + c + d + e + f + g, h);
    HoldsParts(F, a + b + c + d + e + f, g);
    HoldsParts(F, a + b + c + d + e, f);
    HoldsParts(F, a + b + c + d, e);
    HoldsParts(F, a + b + c, d);
    HoldsParts(F, a + b, c);
    HoldsParts(F, a, b);
  }

  /** After `SetEnterprise`, every named section publishes its names. */
  lemma EnterpriseNames(m: map<string, Value>, r: EnterpriseRecord)
    ensures NamesPublished(Apply(m, EnterpriseWrites(r)), CountryBlock, r.country.names)
    ensures NamesPublished(Apply(m, EnterpriseWrites(r)), ContinentBlock, r.continent.names)
    ensures NamesPublished(Apply(m, EnterpriseWrites(r)), CityBlock, r.city.names)
    ensures NamesPublished(Apply(m, EnterpriseWrites(r)), RegisteredCountryBlock, r.registeredCountry.names)
    ensures NamesPublished(Apply(m, EnterpriseWrites(r)), RepresentedCountryBlock, r.representedCountry.names)
  {
    var F := Apply(m, EnterpriseWrites(r));
    EnterpriseBlocksHold(m, r);
    NamedBlockPublished(F, CountryBlock, CountryFieldWrites(r.country), r.country.names);
    NamedBlockPublished(F, ContinentBlock, ContinentFieldWrites(r.continent), r.continent.names);
    NamedBlockPublished(F, CityBlock, CityFieldWrites(r.city), r.city.names);
    NamedBlockPublished(F, RegisteredCountryBlock, RegisteredCountryFieldWrites(r.registeredCountry),
                        r.registeredCountry.names);
    NamedBlockPublished(F, RepresentedCountryBlock, RepresentedCountryFieldWrites(r.representedCountry),
                        r.representedCountry.names);
  }

  /** Subdivision entry `i` (counted from 0, numbered `i + 1` in its keys)
      publishes its confidence, GeoName ID, ISO code and names. */
  predicate SubdivisionPublished(F: map<string, Value>, i: nat, d: Subdivision) {
    var s := SubdivisionBlock(i);
    && Key(s, "confidence") in F && F[Key(s, "confidence")] == Nat(d.confidence)
    && Key(s, "geoname_id") in F && F[Key(s, "geoname_id")] == Nat(d.geoNameId)
    && Key(s, "iso_code") in F && F[Key(s, "iso_code")] == Str(d.isoCode)
    && NamesPublished(F, s, d.names)
  }

  lemma SubdivisionEntryPublished(F: map<string, Value>, subs: seq<Subdivision>, i: nat)
    requires i < |subs| && Holds(F, Concat(SubdivisionBlocks(subs)))
    ensures SubdivisionPublished(F, i, subs[i])
  {
    var bs := SubdivisionBlocks(subs);
    forall x | x in bs[i] ensures x in Concat(bs) {
      ConcatContains(bs, i, x);
    }
    NamedBlockPublished(F, SubdivisionBlock(i), SubdivisionFieldWrites(i, subs[i]), subs[i].names);
  }

  /** After `SetEnterprise`, `geoip2.subdivisions` holds the padded list and
      every entry of it, real or padding, publishes its fields. */
  lemma EnterpriseSubdivisions(m: map<string, Value>, r: EnterpriseRecord)
    ensures var F := Apply(m, EnterpriseWrites(r));
            && SubdivisionsKey in F && F[SubdivisionsKey] == Subdivs(Padded(r.subdivisions))
            && forall i :: 0 <= i < |Padded(r.subdivisions)| ==>
                 SubdivisionPublished(F, i, Padded(r.subdivisions)[i])
  {
    var F := Apply(m, EnterpriseWrites(r));
    var padded := Padded(r.subdivisions);
    EnterpriseBlocksHold(m, r);
    HoldsParts(F, [Write(SubdivisionsKey, Subdivs(padded))], Concat(SubdivisionBlocks(padded)));
    forall i | 0 <= i < |padded| ensures SubdivisionPublished(F, i, padded[i]) {
      SubdivisionEntryPublished(F, padded, i);
    }
  }

  // ---------------------------------------------------------------------
  // Variable names spelled out

  /** Subdivision entry `i` writes under `geoip2.subdivisions_<i + 1>_`. */
  lemma SubdivisionPrefixSpelling(i: nat)
    ensures Prefix(SubdivisionBlock(i)) == "geoip2.subdivisions_" + Itoa(i + 1) + "_"
  {
  }

  lemma CountryCodeSpelling()
    ensures Key(CountryBlock, "code") == "geoip2.country_code"
  {
  }

  lemma CountryNameSpelling()
    ensures Key(CountryBlock, "name") == "geoip2.country_name"
    ensures Key(CountryBlock, "names_" + "en") == "geoip2.country_names_en"
  {
  }

  lemma CityNameSpelling()
    ensures Key(CityBlock, "name") == "geoip2.city_name"
  {
  }

  lemma LocationSpelling()
    ensures Key(LocationBlock, "latitude") == "geoip2.location_latitude"
    ensures Key(LocationBlock, "time_zone") == "geoip2.location_time_zone"
  {
  }

  lemma FirstSubdivisionSpelling()
    ensures Key(SubdivisionBlock(0), "iso_code") == "geoip2.subdivisions_1_iso_code"
  {
    assert Itoa(1) == "1";
  }

  lemma TraitsIspSpelling()
    ensures Key(TraitsBlock, "isp") == "geoip2.traits_isp"
  {
  }

  lemma CountryCodeHolds(F: map<string, Value>, c: Country)
    requires Holds(F, CountryWrites(c))
    ensures Key(CountryBlock, "code") in F && F[Key(CountryBlock, "code")] == Str(c.isoCode)
  {
    assert CountryWrites(c)[0] == Write(Key(CountryBlock, "code"), Str(c.isoCode));
  }

  lemma LocationHolds(F: map<string, Value>, l: Location)
    requires Holds(F, LocationWrites(l))
    ensures Key(LocationBlock, "latitude") in F && F[Key(LocationBlock, "latitude")] == Float(l.latitude)
    ensures Key(LocationBlock, "time_zone") in F && F[Key(LocationBlock, "time_zone")] == Str(l.timeZone)
  {
    assert LocationWrites(l)[0] in LocationWrites(l);
    assert LocationWrites(l)[2] in LocationWrites(l);
  }

  lemma TraitsIspHolds(F: map<string, Value>, t: Traits)
    requires Holds(F, TraitsWrites(t))
    ensures Key(TraitsBlock, "isp") in F && F[Key(TraitsBlock, "isp")] == Str(t.isp)
  {
    assert TraitsWrites(t)[8] in TraitsWrites(t);
  }

  /** The first subdivision is always addressable: the zero subdivision
      stands in when the record has none. */
  lemma FirstSubdivisionHolds(m: map<string, Value>, r: EnterpriseRecord)
    ensures var F := Apply(m, EnterpriseWrites(r));
            && Key(SubdivisionBlock(0), "iso_code") in F
            && F[Key(SubdivisionBlock(0), "iso_code")] == Str(if r.subdivisions == [] then "" else r.subdivisions[0].isoCode)
  {
    EnterpriseSubdivisions(m, r);
    PaddedShape(r.subdivisions);
    if r.subdivisions != [] {
      assert Padded(r.subdivisions)[0] == Padded(r.subdivisions)[..|r.subdivisions|][0];
    }
  }

  /** Scalar fields are copied verbatim. */
  lemma EnterpriseScalars(m: map<string, Value>, r: EnterpriseRecord)
    ensures var F := Apply(m, EnterpriseWrites(r));
            && Key(CountryBlock, "code") in F && F[Key(CountryBlock, "code")] == Str(r.country.isoCode)
            && Key(LocationBlock, "latitude") in F && F[Key(LocationBlock, "latitude")] == Float(r.location.latitude)
            && Key(LocationBlock, "time_zone") in F && F[Key(LocationBlock, "time_zone")] == Str(r.location.timeZone)
            && Key(TraitsBlock, "isp") in F && F[Key(TraitsBlock, "isp")] == Str(r.traits.isp)
  {
    var F := Apply(m, EnterpriseWrites(r));
    EnterpriseBlocksHold(m, r);
    CountryCodeHolds(F, r.country);
    LocationHolds(F, r.location);
    TraitsIspHolds(F, r.traits);
  }

  /** The same facts under the variables' full names. */
  lemma EnterpriseVariables(m: map<string, Value>, r: EnterpriseRecord)
    ensures var F := Apply(m, EnterpriseWrites(r));
            && "geoip2.country_code" in F && F["geoip2.country_code"] == Str(r.country.isoCode)
            && "geoip2.country_name" in F && "geoip2.country_names_en" in F
            && F["geoip2.country_name"] == F["geoip2.country_names_en"]
            && "geoip2.city_name" in F && F["geoip2.city_name"] == Str(NameOf(r.city.names, "en"))
            && "geoip2.location_latitude" in F && F["geoip2.location_latitude"] == Float(r.location.latitude)
            && "geoip2.location_time_zone" in F && F["geoip2.location_time_zone"] == Str(r.location.timeZone)
            && "geoip2.traits_isp" in F && F["geoip2.traits_isp"] == Str(r.traits.isp)
            && "geoip2.subdivisions_1_iso_code" in F
            && F["geoip2.subdivisions_1_iso_code"] == Str(if r.subdivisions == [] then "" else r.subdivisions[0].isoCode)
  {
    EnterpriseScalars(m, r);
    FirstSubdivisionHolds(m, r);
    EnterpriseNames(m, r);
    assert "en" in LanguageCodes;
    CountryCodeSpelling();
    CountryNameSpelling();
    CityNameSpelling();
    LocationSpelling();
    FirstSubdivisionSpelling();
    TraitsIspSpelling();
  }

  // ---------------------------------------------------------------------
  // Priming with the zero record


  lemma {:induction false} ConcatAllZero(bs: seq<seq<Write>>)
    requires forall j :: 0 <= j < |bs| ==> AllZero(bs[j])
    ensures AllZero(Concat(bs))
    decreases |bs|
  {
    if bs != [] {
      ConcatAllZero(bs[..|bs| - 1]);
    }
  }

  lemma PaddedZero()
    ensures Padded([]) == [ZeroSubdivision, ZeroSubdivision]
  {
    PaddedShape([]);
  }


  /** A section's fixed writes and its locale loop over empty names. */
  lemma NamedZero(s: Section, fixed: seq<Write>, names: Names)
    requires AllZero(fixed) && names == map[]
    ensures AllZero(fixed + LocalizedWrites(s, names, LanguageCodes))
  {
    LocalizedZero(s, LanguageCodes);
    AllZeroJoin(fixed, LocalizedWrites(s, names, LanguageCodes));
  }

  lemma ZeroSubdivisionEntry(j: nat, d: Subdivision)
    requires d == ZeroSubdivision
    ensures AllZero(SubdivisionWrites(j, d))
  {
    assert AllZero(SubdivisionFieldWrites(j, d));
    NamedZero(SubdivisionBlock(j), SubdivisionFieldWrites(j, d), d.names);
  }

  lemma ZeroSubdivisionList(padded: seq<Subdivision>)
    requires forall i :: 0 <= i < |padded| ==> padded[i] == ZeroSubdivision
    ensures AllZero([Write(SubdivisionsKey, Subdivs(padded))] + Concat(SubdivisionBlocks(padded)))
  {
    var bs := SubdivisionBlocks(padded);
    forall j | 0 <= j < |bs| ensures AllZero(bs[j]) {
      ZeroSubdivisionEntry(j, padded[j]);
    }
    ConcatAllZero(bs);
    AllZeroJoin([Write(SubdivisionsKey, Subdivs(padded))], Concat(bs));
  }

  lemma ZeroSubdivisions()
    ensures AllZero(SubdivisionsWrites([]))
  {
    PaddedZero();
    ZeroSubdivisionList(Padded([]));
  }

  lemma ZeroCountry(c: Country)
    requires c == ZeroEnterprise.country
    ensures AllZero(CountryWrites(c))
  {
    assert AllZero(CountryFieldWrites(c));
    NamedZero(CountryBlock, CountryFieldWrites(c), c.names);
  }

  lemma ZeroContinent(c: Continent)
    requires c == ZeroEnterprise.continent
    ensures AllZero(ContinentWrites(c))
  {
    assert AllZero(ContinentFieldWrites(c));
    NamedZero(ContinentBlock, ContinentFieldWrites(c), c.names);
  }

  lemma ZeroCity(c: City)
    requires c == ZeroEnterprise.city
    ensures AllZero(CityWrites(c))
  {
    assert AllZero(CityFieldWrites(c));
    NamedZero(CityBlock, CityFieldWrites(c), c.names);
  }

  lemma ZeroRegisteredCountry(c: RegisteredCountry)
    requires c == ZeroEnterprise.registeredCountry
    ensures AllZero(RegisteredCountryWrites(c))
  {
    assert AllZero(RegisteredCountryFieldWrites(c));
    NamedZero(RegisteredCountryBlock, RegisteredCountryFieldWrites(c), c.names);
  }

  lemma ZeroRepresentedCountry(c: RepresentedCountry)
    requires c == ZeroEnterprise.representedCountry
    ensures AllZero(RepresentedCountryWrites(c))
  {
    assert AllZero(RepresentedCountryFieldWrites(c));
    NamedZero(RepresentedCountryBlock, RepresentedCountryFieldWrites(c), c.names);
  }

  lemma ZeroLocation(l: Location)
    requires l == ZeroEnterprise.location
    ensures AllZero(LocationWrites(l))
  {
  }

  lemma ZeroPostal(p: Postal)
    requires p == ZeroEnterprise.postal
    ensures AllZero(PostalWrites(p))
  {
  }

  lemma AllZeroByIndex(w: seq<Write>)
    requires forall k :: 0 <= k < |w| ==> IsZero(w[k].value)
    ensures AllZero(w)
  {
  }

  lemma ZeroTraits(t: Traits)
    requires t == ZeroEnterprise.traits
    ensures AllZero(TraitsWrites(t))
  {
    var w := TraitsWrites(t);
    forall k | 0 <= k < |w| ensures IsZero(w[k].value) {
    }
    AllZeroByIndex(w);
  }

  lemma AllZeroNine(a: seq<Write>, b: seq<Write>, c: seq<Write>, d: seq<Write>, e: seq<Write>,
                    f: seq<Write>, g: seq<Write>, h: seq<Write>, i: seq<Write>)
    requires AllZero(a) && AllZero(b) && AllZero(c) && AllZero(d) && AllZero(e)
    requires AllZero(f) && AllZero(g) && AllZero(h) && AllZero(i)
    ensures AllZero(a + b + c + d + e + f + g + h + i)
  {
    AllZeroJoin(a, b);
    AllZeroJoin(a + b, c);
    AllZeroJoin(a + b + c, d);
    AllZeroJoin(a + b + c + d, e);
    AllZeroJoin(a + b + c + d + e, f);
    AllZeroJoin(a + b + c + d + e + f, g);
    AllZeroJoin(a + b + c + d + e + f + g, h);
    AllZeroJoin(a + b + c + d + e + f + g + h, i);
  }

  /** `SetEnterprise` on the zero record writes only zero values:
      empty strings and name maps, false, 0 and 0.0, and zero subdivisions. */
  lemma EnterpriseZero()
    ensures AllZero(EnterpriseWrites(ZeroEnterprise))
  {
    var r := ZeroEnterprise;
    ZeroCountry(r.country);
    ZeroContinent(r.continent);
    ZeroCity(r.city);
    ZeroLocation(r.location);
    ZeroPostal(r.postal);
    ZeroRegisteredCountry(r.registeredCountry);
    ZeroRepresentedCountry(r.representedCountry);
    ZeroSubdivisions();
    ZeroTraits(r.traits);
    AllZeroNine(CountryWrites(r.country), ContinentWrites(r.continent), CityWrites(r.city),
                LocationWrites(r.location), PostalWrites(r.postal),
                RegisteredCountryWrites(r.registeredCountry), RepresentedCountryWrites(r.representedCountry),
                SubdivisionsWrites(r.subdivisions), TraitsWrites(r.traits));
  }
}
