/** Which variables `SetEnterprise` writes, independently of their values. */
module EnterpriseShape {
  import opened Basics
  import opened Records
  import opened Sink
  import opened EnterpriseKeys
  import opened EnterpriseReplacer
  import opened EnterpriseFacts

  /** Two write lists that name the same keys in the same order. */
  predicate SameKeys(a: seq<Write>, b: seq<Write>) {
    KeyList(a) == KeyList(b)
  }

  lemma SameKeysJoin(a1: seq<Write>, b1: seq<Write>, a2: seq<Write>, b2: seq<Write>)
    requires SameKeys(a1, a2) && SameKeys(b1, b2)
    ensures SameKeys(a1 + b1, a2 + b2)
  {
    KeyListConcat(a1, b1);
    KeyListConcat(a2, b2);
  }

  lemma SameKeysByIndex(a: seq<Write>, b: seq<Write>)
    requires |a| == |b| && forall k :: 0 <= k < |a| ==> a[k].key == b[k].key
    ensures SameKeys(a, b)
  {
  }

  lemma NamedKeys(s: Section, f1: seq<Write>, n1: Names, f2: seq<Write>, n2: Names)
    requires SameKeys(f1, f2)
    ensures SameKeys(f1 + LocalizedWrites(s, n1, LanguageCodes), f2 + LocalizedWrites(s, n2, LanguageCodes))
  {
    LocalizedKeyList(s, n1, n2, LanguageCodes);
    SameKeysJoin(f1, LocalizedWrites(s, n1, LanguageCodes), f2, LocalizedWrites(s, n2, LanguageCodes));
  }

  lemma CountryKeys(c1: Country, c2: Country)
    ensures SameKeys(CountryWrites(c1), CountryWrites(c2))
  {
    SameKeysByIndex(CountryFieldWrites(c1), CountryFieldWrites(c2));
    NamedKeys(CountryBlock, CountryFieldWrites(c1), c1.names, CountryFieldWrites(c2), c2.names);
  }

  lemma ContinentKeys(c1: Continent, c2: Continent)
    ensures SameKeys(ContinentWrites(c1), ContinentWrites(c2))
  {
    SameKeysByIndex(ContinentFieldWrites(c1), ContinentFieldWrites(c2));
    NamedKeys(ContinentBlock, ContinentFieldWrites(c1), c1.names, ContinentFieldWrites(c2), c2.names);
  }

  lemma CityKeys(c1: City, c2: City)
    ensures SameKeys(CityWrites(c1), CityWrites(c2))
  {
    SameKeysByIndex(CityFieldWrites(c1), CityFieldWrites(c2));
    NamedKeys(CityBlock, CityFieldWrites(c1), c1.names, CityFieldWrites(c2), c2.names);
  }

  lemma RegisteredCountryKeys(c1: RegisteredCountry, c2: RegisteredCountry)
    ensures SameKeys(RegisteredCountryWrites(c1), RegisteredCountryWrites(c2))
  {
    SameKeysByIndex(RegisteredCountryFieldWrites(c1), RegisteredCountryFieldWrites(c2));
    NamedKeys(RegisteredCountryBlock, RegisteredCountryFieldWrites(c1), c1.names,
              RegisteredCountryFieldWrites(c2), c2.names);
  }

  lemma RepresentedCountryKeys(c1: RepresentedCountry, c2: RepresentedCountry)
    ensures SameKeys(RepresentedCountryWrites(c1), RepresentedCountryWrites(c2))
  {
    SameKeysByIndex(RepresentedCountryFieldWrites(c1), RepresentedCountryFieldWrites(c2));
    NamedKeys(RepresentedCountryBlock, RepresentedCountryFieldWrites(c1), c1.names,
              RepresentedCountryFieldWrites(c2), c2.names);
  }

  lemma LocationKeys(l1: Location, l2: Location)
    ensures SameKeys(LocationWrites(l1), LocationWrites(l2))
  {
    SameKeysByIndex(LocationWrites(l1), LocationWrites(l2));
  }

  lemma PostalKeys(p1: Postal, p2: Postal)
    ensures SameKeys(PostalWrites(p1), PostalWrites(p2))
  {
    SameKeysByIndex(PostalWrites(p1), PostalWrites(p2));
  }

  lemma TraitsKeys(t1: Traits, t2: Traits)
    ensures SameKeys(TraitsWrites(t1), TraitsWrites(t2))
  {
    SameKeysByIndex(TraitsWrites(t1), TraitsWrites(t2));
  }

  lemma SubdivisionKeys(j: nat, d1: Subdivision, d2: Subdivision)
    ensures SameKeys(SubdivisionWrites(j, d1), SubdivisionWrites(j, d2))
  {
    SameKeysByIndex(SubdivisionFieldWrites(j, d1), SubdivisionFieldWrites(j, d2));
    NamedKeys(SubdivisionBlock(j), SubdivisionFieldWrites(j, d1), d1.names,
              SubdivisionFieldWrites(j, d2), d2.names);
  }

  lemma {:induction false} ConcatKeys(bs1: seq<seq<Write>>, bs2: seq<seq<Write>>)
    requires |bs1| == |bs2| && forall j :: 0 <= j < |bs1| ==> SameKeys(bs1[j], bs2[j])
    ensures SameKeys(Concat(bs1), Concat(bs2))
    decreases |bs1|
  {
    if bs1 != [] {
      var n := |bs1| - 1;
      ConcatKeys(bs1[..n], bs2[..n]);
      SameKeysJoin(Concat(bs1[..n]), bs1[n], Concat(bs2[..n]), bs2[n]);
    }
  }

  lemma SubdivisionsKeys(s1: seq<Subdivision>, s2: seq<Subdivision>)
    requires |Padded(s1)| == |Padded(s2)|
    ensures SameKeys(SubdivisionsWrites(s1), SubdivisionsWrites(s2))
  {
    var p1, p2 := Padded(s1), Padded(s2);
    var bs1, bs2 := SubdivisionBlocks(p1), SubdivisionBlocks(p2);
    forall j | 0 <= j < |bs1| ensures SameKeys(bs1[j], bs2[j]) {
      SubdivisionKeys(j, p1[j], p2[j]);
    }
    ConcatKeys(bs1, bs2);
    SameKeysJoin([Write(SubdivisionsKey, Subdivs(p1))], Concat(bs1), [Write(SubdivisionsKey, Subdivs(p2))], Concat(bs2));
  }

  lemma SameKeysNine(a1: seq<Write>, b1: seq<Write>, c1: seq<Write>, d1: seq<Write>, e1: seq<Write>,
                     f1: seq<Write>, g1: seq<Write>, h1: seq<Write>, i1: seq<Write>,
                     a2: seq<Write>, b2: seq<Write>, c2: seq<Write>, d2: seq<Write>, e2: seq<Write>,
                     f2: seq<Write>, g2: seq<Write>, h2: seq<Write>, i2: seq<Write>)
    requires SameKeys(a1, a2) && SameKeys(b1, b2) && SameKeys(c1, c2) && SameKeys(d1, d2)
    requires SameKeys(e1, e2) && SameKeys(f1, f2) && SameKeys(g1, g2) && SameKeys(h1, h2)
    requires SameKeys(i1, i2)
    ensures SameKeys(a1 + b1 + c1 + d1 + e1 + f1 + g1 + h1 + i1, a2 + b2 + c2 + d2 + e2 + f2 + g2 + h2 + i2)
  {
    SameKeysJoin(a1, b1, a2, b2);
    SameKeysJoin(a1 + b1, c1, a2 + b2, c2);
    SameKeysJoin(a1 + b1 + c1, d1, a2 + b2 + c2, d2);
    SameKeysJoin(a1 + b1 + c1 + d1, e1, a2 + b2 + c2 + d2, e2);
    SameKeysJoin(a1 + b1 + c1 + d1 + e1, f1, a2 + b2 + c2 + d2 + e2, f2);
    SameKeysJoin(a1 + b1 + c1 + d1 + e1 + f1, g1, a2 + b2 + c2 + d2 + e2 + f2, g2);
    SameKeysJoin(a1 + b1 + c1 + d1 + e1 + f1 + g1, h1, a2 + b2 + c2 + d2 + e2 + f2 + g2, h2);
    SameKeysJoin(a1 + b1 + c1 + d1 + e1 + f1 + g1 + h1, i1, a2 + b2 + c2 + d2 + e2 + f2 + g2 + h2, i2);
  }

  /** The keys `SetEnterprise` writes, and their order, depend only on
      the length of the padded subdivision list, `max(2, len(subdivisions))`. */
  lemma EnterpriseKeySet(r1: EnterpriseRecord, r2: EnterpriseRecord)
    requires Max(SubdivisionSize, |r1.subdivisions|) == Max(SubdivisionSize, |r2.subdivisions|)
    ensures KeyList(EnterpriseWrites(r1)) == KeyList(EnterpriseWrites(r2))
  {
    PaddedShape(r1.subdivisions);
    PaddedShape(r2.subdivisions);
    CountryKeys(r1.country, r2.country);
    ContinentKeys(r1.continent, r2.continent);
    CityKeys(r1.city, r2.city);
    LocationKeys(r1.location, r2.location);
    PostalKeys(r1.postal, r2.postal);
    RegisteredCountryKeys(r1.registeredCountry, r2.registeredCountry);
    RepresentedCountryKeys(r1.representedCountry, r2.representedCountry);
    SubdivisionsKeys(r1.subdivisions, r2.subdivisions);
    TraitsKeys(r1.traits, r2.traits);
    SameKeysNine(CountryWrites(r1.country), ContinentWrites(r1.continent), CityWrites(r1.city),
                 LocationWrites(r1.location), PostalWrites(r1.postal),
                 RegisteredCountryWrites(r1.registeredCountry), RepresentedCountryWrites(r1.representedCountry),
                 SubdivisionsWrites(r1.subdivisions), TraitsWrites(r1.traits),
                 CountryWrites(r2.country), ContinentWrites(r2.continent), CityWrites(r2.city),
                 LocationWrites(r2.location), PostalWrites(r2.postal),
                 RegisteredCountryWrites(r2.registeredCountry), RepresentedCountryWrites(r2.representedCountry),
                 SubdivisionsWrites(r2.subdivisions), TraitsWrites(r2.traits));
  }

  /** Priming with the zero record creates every variable that a lookup of a
      record with at most two subdivisions writes. */
  lemma PrimedKeysCover(r: EnterpriseRecord, zero: EnterpriseRecord)
    requires zero == ZeroEnterprise
    requires |r.subdivisions| <= SubdivisionSize
    ensures KeysOf(EnterpriseWrites(r)) == KeysOf(EnterpriseWrites(zero))
  {
    EnterpriseKeySet(r, zero);
    KeysOfSame(EnterpriseWrites(r), EnterpriseWrites(zero));
  }
}
