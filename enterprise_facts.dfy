/** What `SetEnterprise` guarantees about the sink it fills. */
module EnterpriseFacts {
  import opened Basics
  import opened Records
  import opened Sink
  import opened Text
  import opened EnterpriseKeys
  import opened EnterpriseReplacer

  /** Every key of `w` belongs to section `s`. */
  predicate InSection(w: seq<Write>, s: Section) {
    forall x :: x in w ==> Prefix(s) <= x.key
  }

  /** A block of writes confined to section `s`, no key written twice. */
  predicate SectionBlock(w: seq<Write>, s: Section) {
    InSection(w, s) && DistinctKeys(w)
  }

  /** The field part of a key of section `s`. */
  function FieldOf(s: Section, k: string): string
    requires Prefix(s) <= k
  {
    k[|Prefix(s)|..]
  }

  /** A field a locale loop over `codes` writes: `name`, or `names_<code>`. */
  predicate LocaleField(f: string, codes: seq<string>) {
    (f == "name" && "en" in codes) || (|f| >= 6 && f[..6] == "names_" && f[6..] in codes)
  }

  /** A fixed field never looks like a locale field: it is `names` or does not
      start with `n`. */
  predicate PlainField(f: string) {
    |f| == 5 || (|f| > 0 && f[0] != 'n')
  }

  predicate DistinctStrings(fs: seq<string>) {
    forall i, j :: 0 <= i < j < |fs| ==> fs[i] != fs[j]
  }

  /** The writes `w` set the fields `fields` of section `s`, one each, in order. */
  predicate WritesFields(w: seq<Write>, s: Section, fields: seq<string>) {
    |w| == |fields| && forall i :: 0 <= i < |w| ==> w[i].key == Key(s, fields[i])
  }

  /** Writes of distinct fields of one section have distinct keys. */
  lemma FieldWritesFacts(w: seq<Write>, s: Section, fields: seq<string>)
    requires WritesFields(w, s, fields) && DistinctStrings(fields)
    ensures SectionBlock(w, s)
    ensures forall i :: 0 <= i < |w| ==> FieldOf(s, w[i].key) == fields[i]
  {
    KeysHavePrefix(s);
    FieldKeysDiffer(s);
  }

  lemma LocaleFieldIsNotPlain(f: string, codes: seq<string>)
    requires LocaleField(f, codes)
    ensures !PlainField(f)
  {
    if f != "name" {
      assert f[..6][0] == f[0];
    }
  }

  lemma KeysHavePrefix(s: Section)
    ensures forall f :: Prefix(s) <= Key(s, f) && FieldOf(s, Key(s, f)) == f
  {
    forall f ensures Prefix(s) <= Key(s, f) && FieldOf(s, Key(s, f)) == f {
      KeyHasPrefix(s, f);
    }
  }

  // ---------------------------------------------------------------------
  // Locale loops

  /** A locale loop writes only locale fields of its section. */
  lemma {:induction false} LocalizedFields(s: Section, names: Names, codes: seq<string>)
    ensures forall x :: x in LocalizedWrites(s, names, codes) ==>
              Prefix(s) <= x.key && LocaleField(FieldOf(s, x.key), codes)
    decreases |codes|
  {
    if codes != [] {
      var init := codes[..|codes| - 1];
      var lc := codes[|codes| - 1];
      LocalizedFields(s, names, init);
      KeysHavePrefix(s);
      assert ("names_" + lc)[..6] == "names_" && ("names_" + lc)[6..] == lc;
      assert lc in codes;
      forall x: Write | x in LocalizedWrites(s, names, init)
        ensures LocaleField(FieldOf(s, x.key), codes)
      {
        var f := FieldOf(s, x.key);
        if f == "name" && "en" in init {
          var k :| 0 <= k < |init| && init[k] == "en";
          assert codes[k] == "en";
        } else {
          var k :| 0 <= k < |init| && init[k] == f[6..];
          assert codes[k] == f[6..];
        }
      }
    }
  }

  /** A locale loop over distinct codes writes no key twice. */
  lemma {:induction false} LocalizedDistinct(s: Section, names: Names, codes: seq<string>)
    requires DistinctStrings(codes)
    ensures DistinctKeys(LocalizedWrites(s, names, codes))
    decreases |codes|
  {
    if codes != [] {
      var init := codes[..|codes| - 1];
      var lc := codes[|codes| - 1];
      LocalizedDistinct(s, names, init);
      LocalizedFields(s, names, init);
      var a := LocalizedWrites(s, names, init);
      var b := LocaleWrites(s, names, lc);
      KeysHavePrefix(s);
      assert ("names_" + lc)[6..] == lc;
      forall k | 0 <= k < |init| ensures init[k] != lc {
        assert codes[k] != codes[|codes| - 1];
      }
      FieldKeysDiffer(s);
      forall x: Write, y: Write | x in a && y in b ensures x.key != y.key {
        assert x.key == Key(s, FieldOf(s, x.key));
      }
      DistinctConcat(a, b);
    }
  }

  /** A locale loop writes `names_<lc>` for every code, and `name` when English
      is among the codes, both from the section's names. */
  lemma {:induction false} LocalizedContains(s: Section, names: Names, codes: seq<string>)
    ensures forall lc :: lc in codes ==>
              Write(Key(s, "names_" + lc), Str(NameOf(names, lc))) in LocalizedWrites(s, names, codes)
    ensures "en" in codes ==> Write(Key(s, "name"), Str(NameOf(names, "en"))) in LocalizedWrites(s, names, codes)
    decreases |codes|
  {
    if codes != [] {
      var init := codes[..|codes| - 1];
      LocalizedContains(s, names, init);
      assert codes == init + [codes[|codes| - 1]];
    }
  }

  lemma {:induction false} LocalizedZero(s: Section, codes: seq<string>)
    ensures forall x :: x in LocalizedWrites(s, map[], codes) ==> IsZero(x.value)
    decreases |codes|
  {
    if codes != [] {
      LocalizedZero(s, codes[..|codes| - 1]);
    }
  }

  lemma {:induction false} LocalizedKeyList(s: Section, n1: Names, n2: Names, codes: seq<string>)
    ensures KeyList(LocalizedWrites(s, n1, codes)) == KeyList(LocalizedWrites(s, n2, codes))
    decreases |codes|
  {
    if codes != [] {
      var init := codes[..|codes| - 1];
      LocalizedKeyList(s, n1, n2, init);
      KeyListConcat(LocalizedWrites(s, n1, init), LocaleWrites(s, n1, codes[|codes| - 1]));
      KeyListConcat(LocalizedWrites(s, n2, init), LocaleWrites(s, n2, codes[|codes| - 1]));
    }
  }

  lemma KeyListConcat(a: seq<Write>, b: seq<Write>)
    ensures KeyList(a + b) == KeyList(a) + KeyList(b)
  {
  }

  // ---------------------------------------------------------------------
  // Section blocks

  // The fields each block writes outside its locale loop, in order.
  const CountryFields: seq<string> := ["code", "confidence", "eu", "geoname_id", "names"]
  const ContinentFields: seq<string> := ["code", "names", "geoname_id"]
  const CityFields: seq<string> := ["confidence", "geoname_id", "names"]
  const LocationFields: seq<string> := ["latitude", "longitude", "time_zone", "accuracy_radius", "metro_code"]
  const PostalFields: seq<string> := ["code", "confidence"]
  const RegisteredCountryFields: seq<string> := ["geoname_id", "is_in_european_union", "iso_code", "names"]
  const RepresentedCountryFields: seq<string> := ["geoname_id", "is_in_european_union", "iso_code", "names", "type"]
  const SubdivisionFields: seq<string> := ["confidence", "geoname_id", "iso_code", "names"]
  const TraitsFields: seq<string> :=
    ["autonomous_system_number", "autonomous_system_organization", "connection_type", "domain",
     "is_anonymous_proxy", "is_anycast", "is_legitimate_proxy", "is_satellite_provider", "isp",
     "mobile_country_code", "mobile_network_code", "organization", "static_ip_score", "user_type"]

  predicate AllPlain(fields: seq<string>) {
    forall i :: 0 <= i < |fields| ==> PlainField(fields[i])
  }

  /** Fixed fields followed by the locale loop: one section, no key twice. */
  lemma NamedBlock(s: Section, fixed: seq<Write>, fields: seq<string>, names: Names)
    requires WritesFields(fixed, s, fields) && DistinctStrings(fields) && AllPlain(fields)
    ensures SectionBlock(fixed + LocalizedWrites(s, names, LanguageCodes), s)
  {
    var loc := LocalizedWrites(s, names, LanguageCodes);
    FieldWritesFacts(fixed, s, fields);
    LocalizedFields(s, names, LanguageCodes);
    LocalizedDistinct(s, names, LanguageCodes);
    forall x: Write, y: Write | x in fixed && y in loc ensures x.key != y.key {
      LocaleFieldIsNotPlain(FieldOf(s, y.key), LanguageCodes);
    }
    DistinctConcat(fixed, loc);
  }

  lemma CountryFacts(c: Country)
    ensures SectionBlock(CountryWrites(c), CountryBlock)
  {
    NamedBlock(CountryBlock, CountryFieldWrites(c), CountryFields, c.names);
  }

  lemma ContinentFacts(c: Continent)
    ensures SectionBlock(ContinentWrites(c), ContinentBlock)
  {
    NamedBlock(ContinentBlock, ContinentFieldWrites(c), ContinentFields, c.names);
  }

  lemma CityFacts(c: City)
    ensures SectionBlock(CityWrites(c), CityBlock)
  {
    NamedBlock(CityBlock, CityFieldWrites(c), CityFields, c.names);
  }

  lemma LocationFacts(l: Location)
    ensures SectionBlock(LocationWrites(l), LocationBlock)
  {
    FieldWritesFacts(LocationWrites(l), LocationBlock, LocationFields);
  }

  lemma PostalFacts(p: Postal)
    ensures SectionBlock(PostalWrites(p), PostalBlock)
  {
    FieldWritesFacts(PostalWrites(p), PostalBlock, PostalFields);
  }

  lemma RegisteredCountryFacts(c: RegisteredCountry)
    ensures SectionBlock(RegisteredCountryWrites(c), RegisteredCountryBlock)
  {
    NamedBlock(RegisteredCountryBlock, RegisteredCountryFieldWrites(c), RegisteredCountryFields, c.names);
  }

  lemma RepresentedCountryFacts(c: RepresentedCountry)
    ensures SectionBlock(RepresentedCountryWrites(c), RepresentedCountryBlock)
  {
    NamedBlock(RepresentedCountryBlock, RepresentedCountryFieldWrites(c), RepresentedCountryFields, c.names);
  }

  lemma SubdivisionFacts(index: nat, d: Subdivision)
    ensures SectionBlock(SubdivisionWrites(index, d), SubdivisionBlock(index))
  {
    NamedBlock(SubdivisionBlock(index), SubdivisionFieldWrites(index, d), SubdivisionFields, d.names);
  }

  lemma TraitsFacts(t: Traits)
    ensures SectionBlock(TraitsWrites(t), TraitsBlock)
  {
    FieldWritesFacts(TraitsWrites(t), TraitsBlock, TraitsFields);
  }

  // ---------------------------------------------------------------------
  // The subdivisions

  /** Padding keeps the entries, appends zero subdivisions, and reaches
      `SubdivisionSize` entries or stays as long as it was. */
  lemma {:induction false} PaddedShape(subs: seq<Subdivision>)
    ensures |Padded(subs)| == Max(SubdivisionSize, |subs|)
    ensures Padded(subs)[..|subs|] == subs
    ensures forall i :: |subs| <= i < |Padded(subs)| ==> Padded(subs)[i] == ZeroSubdivision
    decreases SubdivisionSize - |subs|
  {
    if |subs| < SubdivisionSize {
      var next := subs + [ZeroSubdivision];
      PaddedShape(next);
      assert Padded(subs) == Padded(next);
      assert Padded(subs)[..|subs|] == Padded(next)[..|next|][..|subs|];
      assert Padded(subs)[|subs|] == Padded(next)[..|next|][|subs|];
    }
  }

  /** Every key of `w` belongs to a subdivision section numbered below `n`. */
  predicate InSubdivisions(w: seq<Write>, n: nat) {
    forall x :: x in w ==>
      0 <= SubdivisionIndex(x.key) < n && HeadOfKey(x.key) == Head(SubdivisionBlock(0))
  }

  /** Writes of the first `n` subdivision sections, no key twice. */
  predicate ListBlock(w: seq<Write>, n: nat) {
    InSubdivisions(w, n) && DistinctKeys(w)
  }

  /** One more entry of the subdivision loop keeps the loop's facts. */
  lemma SubdivisionStep(a: seq<Write>, b: seq<Write>, n: nat)
    requires ListBlock(a, n) && SectionBlock(b, SubdivisionBlock(n))
    ensures ListBlock(a + b, n + 1)
  {
    forall y | y in b ensures SubdivisionIndex(y.key) == n && HeadOfKey(y.key) == Head(SubdivisionBlock(0)) {
      SubdivisionIndexOf(n, y.key);
      HeadOfKeyOf(SubdivisionBlock(n), y.key);
    }
    forall x: Write, y: Write | x in a && y in b ensures x.key != y.key {
      assert SubdivisionIndex(x.key) < SubdivisionIndex(y.key);
    }
    DistinctConcat(a, b);
  }

  /** Blocks each confined to the subdivision section of their position join
      into writes of the first `|bs|` subdivisions, none twice. */
  lemma {:induction false} ConcatListFacts(bs: seq<seq<Write>>)
    requires forall j :: 0 <= j < |bs| ==> SectionBlock(bs[j], SubdivisionBlock(j))
    ensures ListBlock(Concat(bs), |bs|)
    decreases |bs|
  {
    if bs != [] {
      var init := bs[..|bs| - 1];
      ConcatListFacts(init);
      ListJoin(Concat(bs), Concat(init), bs[|bs| - 1], |bs|);
    }
  }

  lemma ListJoin(w: seq<Write>, a: seq<Write>, b: seq<Write>, n: nat)
    requires w == a + b && n > 0
    requires ListBlock(a, n - 1) && SectionBlock(b, SubdivisionBlock(n - 1))
    ensures ListBlock(w, n)
  {
    SubdivisionStep(a, b, n - 1);
  }

  /** The loop's writes include every write of every entry. */
  lemma {:induction false} ConcatContains(bs: seq<seq<Write>>, j: nat, x: Write)
    requires j < |bs| && x in bs[j]
    ensures x in Concat(bs)
    decreases |bs|
  {
    if j < |bs| - 1 {
      ConcatContains(bs[..|bs| - 1], j, x);
    }
  }

  lemma SubdivisionBlocksFacts(subs: seq<Subdivision>)
    ensures ListBlock(Concat(SubdivisionBlocks(subs)), |subs|)
  {
    var bs := SubdivisionBlocks(subs);
    forall j | 0 <= j < |bs| ensures SectionBlock(bs[j], SubdivisionBlock(j)) {
      SubdivisionFacts(j, subs[j]);
    }
    ConcatListFacts(bs);
  }

  // ---------------------------------------------------------------------
  // The whole record

  /** Every key of `w` has its section head in `hs`. */
  predicate HeadsIn(w: seq<Write>, hs: set<string>) {
    forall x :: x in w ==> HeadOfKey(x.key) in hs
  }

  /** Writes confined to the sections headed by `hs`, no key twice. */
  predicate HeadBlock(w: seq<Write>, hs: set<string>) {
    HeadsIn(w, hs) && DistinctKeys(w)
  }

  lemma SectionHeads(w: seq<Write>, s: Section)
    requires SectionBlock(w, s)
    ensures HeadBlock(w, {Head(s)})
  {
    forall x | x in w ensures HeadOfKey(x.key) == Head(s) {
      HeadOfKeyOf(s, x.key);
    }
  }

  /** Blocks with disjoint heads join without writing a key twice. */
  lemma JoinBlocks(a: seq<Write>, b: seq<Write>, ha: set<string>, hb: set<string>)
    requires HeadBlock(a, ha) && HeadBlock(b, hb) && ha !! hb
    ensures HeadBlock(a + b, ha + hb)
  {
    forall x: Write, y: Write | x in a && y in b ensures x.key != y.key {
      assert HeadOfKey(x.key) in ha && HeadOfKey(y.key) in hb;
    }
    DistinctConcat(a, b);
  }

  /** The list key followed by the loop: head `subdivisions`, no key twice. */
  lemma SubdivisionsJoin(first: Write, list: seq<Write>, n: nat)
    requires first.key == SubdivisionsKey
    requires ListBlock(list, n)
    ensures HeadBlock([first] + list, {Head(SubdivisionBlock(0))})
  {
    HeadOfSubdivisionsKey();
    assert SubdivisionIndex(SubdivisionsKey) == -1;
    forall x: Write, y: Write | x in [first] && y in list ensures x.key != y.key {
      assert SubdivisionIndex(x.key) < SubdivisionIndex(y.key);
    }
    DistinctConcat([first], list);
  }

  lemma SubdivisionsFacts(subs: seq<Subdivision>)
    ensures HeadBlock(SubdivisionsWrites(subs), {Head(SubdivisionBlock(0))})
  {
    var padded := Padded(subs);
    SubdivisionBlocksFacts(padded);
    SubdivisionsJoin(Write(SubdivisionsKey, Subdivs(padded)), Concat(SubdivisionBlocks(padded)), |padded|);
  }

  /** The section heads of the Enterprise record, in writing order. */
  const EnterpriseHeads: set<string> :=
    {Head(CountryBlock), Head(ContinentBlock), Head(CityBlock), Head(LocationBlock), Head(PostalBlock),
     Head(RegisteredCountryBlock), Head(RepresentedCountryBlock), Head(SubdivisionBlock(0)), Head(TraitsBlock)}

  /** Nine blocks, each confined to its own section head and without a
      repeated key, join without a repeated key. */
  lemma JoinNine(a: seq<Write>, b: seq<Write>, c: seq<Write>, d: seq<Write>, e: seq<Write>,
                 f: seq<Write>, g: seq<Write>, h: seq<Write>, i: seq<Write>)
    requires HeadBlock(a, {Head(CountryBlock)}) && HeadBlock(b, {Head(ContinentBlock)})
    requires HeadBlock(c, {Head(CityBlock)}) && HeadBlock(d, {Head(LocationBlock)})
    requires HeadBlock(e, {Head(PostalBlock)}) && HeadBlock(f, {Head(RegisteredCountryBlock)})
    requires HeadBlock(g, {Head(RepresentedCountryBlock)}) && HeadBlock(h, {Head(SubdivisionBlock(0))})
    requires HeadBlock(i, {Head(TraitsBlock)})
    ensures HeadBlock(a + b + c + d + e + f + g + h + i, EnterpriseHeads)
  {
    var h1 := {Head(CountryBlock)};
    var h2 := h1 + {Head(ContinentBlock)};
    var h3 := h2 + {Head(CityBlock)};
    var h4 := h3 + {Head(LocationBlock)};
    var h5 := h4 + {Head(PostalBlock)};
    var h6 := h5 + {Head(RegisteredCountryBlock)};
    var h7 := h6 + {Head(RepresentedCountryBlock)};
    var h8 := h7 + {Head(SubdivisionBlock(0))};
    JoinBlocks(a, b, h1, {Head(ContinentBlock)});
    JoinBlocks(a + b, c, h2, {Head(CityBlock)});
    JoinBlocks(a + b + c, d, h3, {Head(LocationBlock)});
    JoinBlocks(a + b + c + d, e, h4, {Head(PostalBlock)});
    JoinBlocks(a + b + c + d + e, f, h5, {Head(RegisteredCountryBlock)});
    JoinBlocks(a + b + c + d + e + f, g, h6, {Head(RepresentedCountryBlock)});
    JoinBlocks(a + b + c + d + e + f + g, h, h7, {Head(SubdivisionBlock(0))});
    JoinBlocks(a + b + c + d + e + f + g + h, i, h8, {Head(TraitsBlock)});
    assert h8 + {Head(TraitsBlock)} == EnterpriseHeads;
  }

  lemma EnterpriseBlock(r: EnterpriseRecord)
    ensures HeadBlock(EnterpriseWrites(r), EnterpriseHeads)
  {
    CountryFacts(r.country);
    SectionHeads(CountryWrites(r.country), CountryBlock);
    ContinentFacts(r.continent);
    SectionHeads(ContinentWrites(r.continent), ContinentBlock);
    CityFacts(r.city);
    SectionHeads(CityWrites(r.city), CityBlock);
    LocationFacts(r.location);
    SectionHeads(LocationWrites(r.location), LocationBlock);
    PostalFacts(r.postal);
    SectionHeads(PostalWrites(r.postal), PostalBlock);
    RegisteredCountryFacts(r.registeredCountry);
    SectionHeads(RegisteredCountryWrites(r.registeredCountry), RegisteredCountryBlock);
    RepresentedCountryFacts(r.representedCountry);
    SectionHeads(RepresentedCountryWrites(r.representedCountry), RepresentedCountryBlock);
    SubdivisionsFacts(r.subdivisions);
    TraitsFacts(r.traits);
    SectionHeads(TraitsWrites(r.traits), TraitsBlock);
    JoinNine(CountryWrites(r.country), ContinentWrites(r.continent), CityWrites(r.city),
             LocationWrites(r.location), PostalWrites(r.postal),
             RegisteredCountryWrites(r.registeredCountry), RepresentedCountryWrites(r.representedCountry),
             SubdivisionsWrites(r.subdivisions), TraitsWrites(r.traits));
  }

  /** `SetEnterprise` never writes a key twice. */
  lemma EnterpriseDistinct(r: EnterpriseRecord)
    ensures DistinctKeys(EnterpriseWrites(r))
  {
    EnterpriseBlock(r);
  }

  /** So every write survives: after `SetEnterprise` each key it writes holds
      what it wrote, whatever the sink held before. */
  lemma EnterpriseSurvives(m: map<string, Value>, r: EnterpriseRecord)
    ensures forall x :: x in EnterpriseWrites(r) ==>
              x.key in Apply(m, EnterpriseWrites(r)) && Apply(m, EnterpriseWrites(r))[x.key] == x.value
  {
    EnterpriseDistinct(r);
    ApplyDistinct(m, EnterpriseWrites(r));
  }
}
