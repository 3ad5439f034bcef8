/** The variable names the Enterprise projector writes. Every name is
    `geoip2.<section>_<field>`, where a subdivision's section is
    `subdivisions_<n>` with `n` counted from 1. */
module EnterpriseKeys {
  import opened Text

  const Namespace: string := "geoip2."

  /** The blocks of the Enterprise record, each with its own key prefix. */
  datatype Section =
    | CountryBlock
    | ContinentBlock
    | CityBlock
    | LocationBlock
    | PostalBlock
    | RegisteredCountryBlock
    | RepresentedCountryBlock
    | SubdivisionBlock(index: nat)
    | TraitsBlock

  /** The section name up to its first underscore. */
  function Head(s: Section): string {
    match s
    case CountryBlock => "country"
    case ContinentBlock => "continent"
    case CityBlock => "city"
    case LocationBlock => "location"
    case PostalBlock => "postal"
    case RegisteredCountryBlock => "registeredcountry"
    case RepresentedCountryBlock => "representedcountry"
    case SubdivisionBlock(_) => "subdivisions"
    case TraitsBlock => "traits"
  }

  function SectionName(s: Section): string {
    if s.SubdivisionBlock? then Head(s) + "_" + Itoa(s.index + 1) else Head(s)
  }

  /** What every key of section `s` starts with. */
  function Prefix(s: Section): string {
    Namespace + SectionName(s) + "_"
  }

  function Key(s: Section, field: string): string {
    Prefix(s) + field
  }

  /** The key holding the padded subdivision list itself. */
  const SubdivisionsKey: string := "geoip2.subdivisions"

  lemma HeadHasNoUnderscore(s: Section)
    ensures '_' !in Head(s)
  {
  }

  /** A key read as namespace, head, underscore, remainder. */
  function Remainder(s: Section, field: string): string {
    if s.SubdivisionBlock? then Itoa(s.index + 1) + "_" + field else field
  }

  lemma KeyShape(s: Section, field: string)
    ensures Key(s, field) == Namespace + (Head(s) + ['_'] + Remainder(s, field))
  {
  }

  /** The head of a section can be read back from any string with its prefix. */
  lemma HeadOfPrefixed(s: Section, k: string)
    requires Prefix(s) <= k
    ensures BeforeChar(k[|Namespace|..], '_') == Head(s)
  {
    var f := k[|Prefix(s)|..];
    assert k == Key(s, f);
    KeyShape(s, f);
    assert k[|Namespace|..] == Head(s) + ['_'] + Remainder(s, f);
    HeadHasNoUnderscore(s);
    BeforeCharOf(Head(s), '_', Remainder(s, f));
  }

  /** So can the counter of a subdivision section. */
  lemma CounterOfPrefixed(s: Section, k: string)
    requires s.SubdivisionBlock? && Prefix(s) <= k
    ensures |Namespace| + |Head(s)| + 1 <= |k|
    ensures BeforeChar(k[|Namespace| + |Head(s)| + 1..], '_') == Itoa(s.index + 1)
  {
    var f := k[|Prefix(s)|..];
    var d := Itoa(s.index + 1);
    assert k == Namespace + Head(s) + ['_'] + (d + ['_'] + f);
    assert k[|Namespace| + |Head(s)| + 1..] == d + ['_'] + f;
    DigitsHaveNoUnderscore(d);
    BeforeCharOf(d, '_', f);
  }

  /** No string starts with the prefixes of two different sections. */
  lemma PrefixesDisjoint(s1: Section, s2: Section, k: string)
    requires Prefix(s1) <= k && Prefix(s2) <= k
    ensures s1 == s2
  {
    HeadOfPrefixed(s1, k);
    HeadOfPrefixed(s2, k);
    if s1.SubdivisionBlock? {
      CounterOfPrefixed(s1, k);
      CounterOfPrefixed(s2, k);
      ItoaInjective(s1.index + 1, s2.index + 1);
    }
  }

  lemma DigitsHaveNoUnderscore(d: string)
    requires AllDigits(d)
    ensures '_' !in d
  {
    forall k | 0 <= k < |d| ensures d[k] != '_' {
      assert IsDigit(d[k]);
    }
  }

  /** Within a section, keys differ exactly when fields differ. */
  lemma KeyFieldInjective(s: Section, f1: string, f2: string)
    requires Key(s, f1) == Key(s, f2)
    ensures f1 == f2
  {
    assert f1 == Key(s, f1)[|Prefix(s)|..];
    assert f2 == Key(s, f2)[|Prefix(s)|..];
  }

  /** Keys of different sections never coincide, and the key of a section
      determines both the section and the field. */
  lemma KeyInjective(s1: Section, f1: string, s2: Section, f2: string)
    requires Key(s1, f1) == Key(s2, f2)
    ensures s1 == s2 && f1 == f2
  {
    PrefixesDisjoint(s1, s2, Key(s1, f1));
    KeyFieldInjective(s1, f1, f2);
  }

  /** A key whose part after the namespace has no underscore is no section key. */
  lemma PlainNameIsNoKey(name: string, s: Section, field: string)
    requires '_' !in name
    ensures Namespace + name != Key(s, field)
  {
    KeyShape(s, field);
    assert Key(s, field)[|Namespace|..][|Head(s)|] == '_';
    assert (Namespace + name)[|Namespace|..] == name;
  }

  /** A key `geoip2.<head>_<rest>` whose head is no section head is no section key. */
  lemma ForeignHeadIsNoKey(head: string, rest: string, s: Section, field: string)
    requires '_' !in head
    requires head != Head(s)
    ensures Namespace + (head + ['_'] + rest) != Key(s, field)
  {
    HeadOfPrefixed(s, Key(s, field));
    assert (Namespace + (head + ['_'] + rest))[|Namespace|..] == head + ['_'] + rest;
    BeforeCharOf(head, '_', rest);
  }

  lemma SubdivisionsKeyIsNoSectionKey(s: Section, field: string)
    ensures SubdivisionsKey != Key(s, field)
  {
    assert SubdivisionsKey == Namespace + "subdivisions";
    PlainNameIsNoKey("subdivisions", s, field);
  }

  /** Every key of a section starts with the section's prefix. */
  lemma KeyHasPrefix(s: Section, field: string)
    ensures Prefix(s) <= Key(s, field)
    ensures Key(s, field)[|Prefix(s)|..] == field
  {
  }

  /** The section head of a key: the text between the namespace and the first
      underscore after it. */
  function HeadOfKey(k: string): string {
    if |k| < |Namespace| then k else BeforeChar(k[|Namespace|..], '_')
  }

  lemma HeadOfKeyOf(s: Section, k: string)
    requires Prefix(s) <= k
    ensures HeadOfKey(k) == Head(s)
  {
    HeadOfPrefixed(s, k);
  }

  lemma HeadOfSubdivisionsKey()
    ensures HeadOfKey(SubdivisionsKey) == Head(SubdivisionBlock(0))
  {
    assert SubdivisionsKey[|Namespace|..] == "subdivisions";
    BeforeCharAbsent("subdivisions", '_');
  }

  /** Keys of two different sections differ. */
  lemma SectionKeysDiffer(s1: Section, s2: Section, k1: string, k2: string)
    requires Prefix(s1) <= k1 && Prefix(s2) <= k2
    requires s1 != s2
    ensures k1 != k2
  {
    HeadOfPrefixed(s1, k1);
    HeadOfPrefixed(s2, k2);
    if s1.SubdivisionBlock? && s2.SubdivisionBlock? {
      CounterOfPrefixed(s1, k1);
      CounterOfPrefixed(s2, k2);
      DigitsValueOfItoa(s1.index + 1);
      DigitsValueOfItoa(s2.index + 1);
    }
  }

  /** Within a section, different fields give different keys. */
  lemma FieldKeysDiffer(s: Section)
    ensures forall f1, f2 :: f1 != f2 ==> Key(s, f1) != Key(s, f2)
  {
    forall f1, f2 | f1 != f2 ensures Key(s, f1) != Key(s, f2) {
      KeyHasPrefix(s, f1);
      KeyHasPrefix(s, f2);
    }
  }

  /** Every key of a subdivision section is longer than `SubdivisionsKey`. */
  lemma SubdivisionKeyIsLong(i: nat, k: string)
    requires Prefix(SubdivisionBlock(i)) <= k
    ensures |k| > |SubdivisionsKey|
  {
    assert |Itoa(i + 1)| > 0;
  }

  /** The index of the subdivision section a key belongs to, read back from
      its counter; -1 for a key without a counter. */
  function SubdivisionIndex(k: string): int {
    if |k| <= |SubdivisionsKey| then -1
    else
      var counter := BeforeChar(k[|SubdivisionsKey| + 1..], '_');
      if AllDigits(counter) then DigitsValue(counter) - 1 else -1
  }

  lemma SubdivisionIndexOf(i: nat, k: string)
    requires Prefix(SubdivisionBlock(i)) <= k
    ensures SubdivisionIndex(k) == i
  {
    CounterOfPrefixed(SubdivisionBlock(i), k);
    SubdivisionKeyIsLong(i, k);
    DigitsValueOfItoa(i + 1);
  }
}
