/** The decoded record shapes of the geoip2 library, reduced to the fields the
    projectors read. Unsigned integer fields (`uint`, `uint8`, `uint16`) are
    `nat`; `float64` fields are carried as an opaque bit pattern. */
module Records {

  /** An IEEE-754 binary64 value, kept as its bit pattern: it is copied into the
      sink and never computed with. */
  datatype Float64 = Float64(bits: bv64)

  const ZeroFloat: Float64 := Float64(0)

  type Names = map<string, string>

  datatype City = City(names: Names, geoNameId: nat, confidence: nat)

  datatype Continent = Continent(names: Names, code: string, geoNameId: nat)

  datatype Country = Country(names: Names, isoCode: string, geoNameId: nat, confidence: nat,
                             isInEuropeanUnion: bool)

  datatype Location = Location(timeZone: string, latitude: Float64, longitude: Float64,
                               metroCode: nat, accuracyRadius: nat)

  datatype Postal = Postal(code: string, confidence: nat)

  datatype RegisteredCountry = RegisteredCountry(names: Names, isoCode: string, geoNameId: nat,
                                                 isInEuropeanUnion: bool)

  datatype RepresentedCountry = RepresentedCountry(names: Names, isoCode: string, typeName: string,
                                                   geoNameId: nat, isInEuropeanUnion: bool)

  datatype Subdivision = Subdivision(names: Names, isoCode: string, geoNameId: nat, confidence: nat)

  datatype Traits = Traits(
    autonomousSystemNumber: nat, autonomousSystemOrganization: string, connectionType: string,
    domain: string, isAnonymousProxy: bool, isAnycast: bool, isLegitimateProxy: bool,
    isSatelliteProvider: bool, isp: string, mobileCountryCode: string, mobileNetworkCode: string,
    organization: string, staticIpScore: Float64, userType: string)

  /** `geoip2.Enterprise`, also used for City and Country databases. */
  datatype EnterpriseRecord = EnterpriseRecord(
    city: City, continent: Continent, country: Country, location: Location, postal: Postal,
    registeredCountry: RegisteredCountry, representedCountry: RepresentedCountry,
    subdivisions: seq<Subdivision>, traits: Traits)

  /** `geoip2.ISP`, also used for ASN databases. */
  datatype IspRecord = IspRecord(
    autonomousSystemNumber: nat, autonomousSystemOrganization: string, isp: string,
    mobileCountryCode: string, mobileNetworkCode: string, organization: string)

  /** `geoip2.AnonymousIP`. */
  datatype AnonymousRecord = AnonymousRecord(
    isAnonymous: bool, isAnonymousVpn: bool, isHostingProvider: bool, isPublicProxy: bool,
    isResidentialProxy: bool, isTorExitNode: bool)

  /** `geoip2.ConnectionType`. */
  datatype ConnectionTypeRecord = ConnectionTypeRecord(connectionType: string)

  /** `geoip2.Domain`. */
  datatype DomainRecord = DomainRecord(domain: string)

  // The zero values of the record types: what Go's `T{}` denotes, and what a
  // lookup that finds nothing leaves behind.

  const ZeroSubdivision: Subdivision := Subdivision(map[], "", 0, 0)

  const ZeroEnterprise: EnterpriseRecord := EnterpriseRecord(
    City(map[], 0, 0), Continent(map[], "", 0), Country(map[], "", 0, 0, false),
    Location("", ZeroFloat, ZeroFloat, 0, 0), Postal("", 0),
    RegisteredCountry(map[], "", 0, false), RepresentedCountry(map[], "", "", 0, false),
    [], Traits(0, "", "", "", false, false, false, false, "", "", "", "", ZeroFloat, ""))

  const ZeroIsp: IspRecord := IspRecord(0, "", "", "", "", "")

  const ZeroAnonymous: AnonymousRecord := AnonymousRecord(false, false, false, false, false, false)

  const ZeroConnectionType: ConnectionTypeRecord := ConnectionTypeRecord("")

  const ZeroDomain: DomainRecord := DomainRecord("")
}
