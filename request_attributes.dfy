/** The `request.cf` attribute record a Cloudflare Worker sees, the
    recursively partial version a test supplies, and a by-name view of both
    (a JavaScript object is read property by property). */
module RequestAttributes {
  import opened JsValues

  /** The nested `tlsClientAuth` group. */
  datatype TlsClientAuth = TlsClientAuth(
    certIssuerDNLegacy: string,
    certIssuerDN: string,
    certIssuerDNRFC2253: string,
    certPresented: string,
    certSubjectDNLegacy: string,
    certSubjectDN: string,
    certNotBefore: string,
    certNotAfter: string,
    certSerial: string,
    certFingerprintSHA1: string,
    certVerified: string)

  /** A fully populated attribute record; `groupWeight` is the property
      spelled `group-weight`. */
  datatype CloudflareRequestAttributes = CloudflareRequestAttributes(
    asn: string,
    city: string,
    colo: string,
    continent: string,
    country: string,
    exclusive: string,
    group: string,
    groupWeight: string,
    httpProtocol: string,
    latitude: JsNumber,
    longitude: JsNumber,
    postalCode: string,
    region: string,
    regionCode: string,
    requestPriority: string,
    timezone: string,
    tlsCipher: string,
    tlsClientAuth: TlsClientAuth,
    tlsVersion: string,
    weight: string)

  /** `RecursivePartial<TlsClientAuth>`: any sub-field may be missing. */
  datatype PartialTlsClientAuth = PartialTlsClientAuth(
    certIssuerDNLegacy: Option<string>,
    certIssuerDN: Option<string>,
    certIssuerDNRFC2253: Option<string>,
    certPresented: Option<string>,
    certSubjectDNLegacy: Option<string>,
    certSubjectDN: Option<string>,
    certNotBefore: Option<string>,
    certNotAfter: Option<string>,
    certSerial: Option<string>,
    certFingerprintSHA1: Option<string>,
    certVerified: Option<string>)

  /** `RecursivePartial<CloudflareRequestAttributes>`: any field may be
      missing, and a present `tlsClientAuth` is itself partial. */
  datatype PartialRequestAttributes = PartialRequestAttributes(
    asn: Option<string>,
    city: Option<string>,
    colo: Option<string>,
    continent: Option<string>,
    country: Option<string>,
    exclusive: Option<string>,
    group: Option<string>,
    groupWeight: Option<string>,
    httpProtocol: Option<string>,
    latitude: Option<JsNumber>,
    longitude: Option<JsNumber>,
    postalCode: Option<string>,
    region: Option<string>,
    regionCode: Option<string>,
    requestPriority: Option<string>,
    timezone: Option<string>,
    tlsCipher: Option<string>,
    tlsClientAuth: Option<PartialTlsClientAuth>,
    tlsVersion: Option<string>,
    weight: Option<string>)

  /** The empty object `{}` in either position. */
  const NoTlsOverrides := PartialTlsClientAuth(
    None, None, None, None, None, None, None, None, None, None, None)

  const NoOverrides := PartialRequestAttributes(
    None, None, None, None, None, None, None, None, None, None,
    None, None, None, None, None, None, None, None, None, None)

  /** The names of the record's non-object properties. */
  datatype Field =
    | Asn | City | Colo | Continent | Country | Exclusive | Group | GroupWeight
    | HttpProtocol | Latitude | Longitude | PostalCode | Region | RegionCode
    | RequestPriority | Timezone | TlsCipher | TlsVersion | Weight

  /** The names of the `tlsClientAuth` properties. */
  datatype TlsField =
    | CertIssuerDNLegacy | CertIssuerDN | CertIssuerDNRFC2253 | CertPresented
    | CertSubjectDNLegacy | CertSubjectDN | CertNotBefore | CertNotAfter
    | CertSerial | CertFingerprintSHA1 | CertVerified

  /** `a[f]` */
  function Get(a: CloudflareRequestAttributes, f: Field): Scalar {
    match f
    case Asn => Str(a.asn)
    case City => Str(a.city)
    case Colo => Str(a.colo)
    case Continent => Str(a.continent)
    case Country => Str(a.country)
    case Exclusive => Str(a.exclusive)
    case Group => Str(a.group)
    case GroupWeight => Str(a.groupWeight)
    case HttpProtocol => Str(a.httpProtocol)
    case Latitude => Num(a.latitude)
    case Longitude => Num(a.longitude)
    case PostalCode => Str(a.postalCode)
    case Region => Str(a.region)
    case RegionCode => Str(a.regionCode)
    case RequestPriority => Str(a.requestPriority)
    case Timezone => Str(a.timezone)
    case TlsCipher => Str(a.tlsCipher)
    case TlsVersion => Str(a.tlsVersion)
    case Weight => Str(a.weight)
  }

  /** `p[f]`, `undefined` when the test did not give it. */
  function GetPartial(p: PartialRequestAttributes, f: Field): Option<Scalar> {
    match f
    case Asn => LiftString(p.asn)
    case City => LiftString(p.city)
    case Colo => LiftString(p.colo)
    case Continent => LiftString(p.continent)
    case Country => LiftString(p.country)
    case Exclusive => LiftString(p.exclusive)
    case Group => LiftString(p.group)
    case GroupWeight => LiftString(p.groupWeight)
    case HttpProtocol => LiftString(p.httpProtocol)
    case Latitude => LiftNumber(p.latitude)
    case Longitude => LiftNumber(p.longitude)
    case PostalCode => LiftString(p.postalCode)
    case Region => LiftString(p.region)
    case RegionCode => LiftString(p.regionCode)
    case RequestPriority => LiftString(p.requestPriority)
    case Timezone => LiftString(p.timezone)
    case TlsCipher => LiftString(p.tlsCipher)
    case TlsVersion => LiftString(p.tlsVersion)
    case Weight => LiftString(p.weight)
  }

  /** `t[g]` */
  function TlsGet(t: TlsClientAuth, g: TlsField): Scalar {
    match g
    case CertIssuerDNLegacy => Str(t.certIssuerDNLegacy)
    case CertIssuerDN => Str(t.certIssuerDN)
    case CertIssuerDNRFC2253 => Str(t.certIssuerDNRFC2253)
    case CertPresented => Str(t.certPresented)
    case CertSubjectDNLegacy => Str(t.certSubjectDNLegacy)
    case CertSubjectDN => Str(t.certSubjectDN)
    case CertNotBefore => Str(t.certNotBefore)
    case CertNotAfter => Str(t.certNotAfter)
    case CertSerial => Str(t.certSerial)
    case CertFingerprintSHA1 => Str(t.certFingerprintSHA1)
    case CertVerified => Str(t.certVerified)
  }

  /** `t[g]`, `undefined` when the test did not give it. */
  function TlsGetPartial(t: PartialTlsClientAuth, g: TlsField): Option<Scalar> {
    match g
    case CertIssuerDNLegacy => LiftString(t.certIssuerDNLegacy)
    case CertIssuerDN => LiftString(t.certIssuerDN)
    case CertIssuerDNRFC2253 => LiftString(t.certIssuerDNRFC2253)
    case CertPresented => LiftString(t.certPresented)
    case CertSubjectDNLegacy => LiftString(t.certSubjectDNLegacy)
    case CertSubjectDN => LiftString(t.certSubjectDN)
    case CertNotBefore => LiftString(t.certNotBefore)
    case CertNotAfter => LiftString(t.certNotAfter)
    case CertSerial => LiftString(t.certSerial)
    case CertFingerprintSHA1 => LiftString(t.certFingerprintSHA1)
    case CertVerified => LiftString(t.certVerified)
  }

  /** Two attribute records that agree on every property, nested ones
      included, are the same record: the by-name view loses nothing. */
  lemma SameFieldsSameRecord(a: CloudflareRequestAttributes, b: CloudflareRequestAttributes)
    requires forall f :: Get(a, f) == Get(b, f)
    requires forall g :: TlsGet(a.tlsClientAuth, g) == TlsGet(b.tlsClientAuth, g)
    ensures a == b
  {
    SameLeadingFields(a, b);
    SameTrailingFields(a, b);
    SameTlsFieldsSameGroup(a.tlsClientAuth, b.tlsClientAuth);
  }

  /** The properties from `asn` to `latitude`, one name at a time. */
  lemma SameLeadingFields(a: CloudflareRequestAttributes, b: CloudflareRequestAttributes)
    requires forall f :: Get(a, f) == Get(b, f)
    ensures a.asn == b.asn
    ensures a.city == b.city
    ensures a.colo == b.colo
    ensures a.continent == b.continent
    ensures a.country == b.country
    ensures a.exclusive == b.exclusive
    ensures a.group == b.group
    ensures a.groupWeight == b.groupWeight
    ensures a.httpProtocol == b.httpProtocol
    ensures a.latitude == b.latitude
  {
    assert Get(a, Asn) == Get(b, Asn);
    assert Get(a, City) == Get(b, City);
    assert Get(a, Colo) == Get(b, Colo);
    assert Get(a, Continent) == Get(b, Continent);
    assert Get(a, Country) == Get(b, Country);
    assert Get(a, Exclusive) == Get(b, Exclusive);
    assert Get(a, Group) == Get(b, Group);
    assert Get(a, GroupWeight) == Get(b, GroupWeight);
    assert Get(a, HttpProtocol) == Get(b, HttpProtocol);
    assert Get(a, Latitude) == Get(b, Latitude);
  }

  /** The properties from `longitude` to `weight`, one name at a time. */
  lemma SameTrailingFields(a: CloudflareRequestAttributes, b: CloudflareRequestAttributes)
    requires forall f :: Get(a, f) == Get(b, f)
    ensures a.longitude == b.longitude
    ensures a.postalCode == b.postalCode
    ensures a.region == b.region
    ensures a.regionCode == b.regionCode
    ensures a.requestPriority == b.requestPriority
    ensures a.timezone == b.timezone
    ensures a.tlsCipher == b.tlsCipher
    ensures a.tlsVersion == b.tlsVersion
    ensures a.weight == b.weight
  {
    assert Get(a, Longitude) == Get(b, Longitude);
    assert Get(a, PostalCode) == Get(b, PostalCode);
    assert Get(a, Region) == Get(b, Region);
    assert Get(a, RegionCode) == Get(b, RegionCode);
    assert Get(a, RequestPriority) == Get(b, RequestPriority);
    assert Get(a, Timezone) == Get(b, Timezone);
    assert Get(a, TlsCipher) == Get(b, TlsCipher);
    assert Get(a, TlsVersion) == Get(b, TlsVersion);
    assert Get(a, Weight) == Get(b, Weight);
  }

  /** The same for two `tlsClientAuth` groups. */
  lemma SameTlsFieldsSameGroup(s: TlsClientAuth, t: TlsClientAuth)
    requires forall g :: TlsGet(s, g) == TlsGet(t, g)
    ensures s == t
  {
    assert s.certIssuerDNLegacy == t.certIssuerDNLegacy by { assert TlsGet(s, CertIssuerDNLegacy) == TlsGet(t, CertIssuerDNLegacy); }
    assert s.certIssuerDN == t.certIssuerDN by { assert TlsGet(s, CertIssuerDN) == TlsGet(t, CertIssuerDN); }
    assert s.certIssuerDNRFC2253 == t.certIssuerDNRFC2253 by { assert TlsGet(s, CertIssuerDNRFC2253) == TlsGet(t, CertIssuerDNRFC2253); }
    assert s.certPresented == t.certPresented by { assert TlsGet(s, CertPresented) == TlsGet(t, CertPresented); }
    assert s.certSubjectDNLegacy == t.certSubjectDNLegacy by { assert TlsGet(s, CertSubjectDNLegacy) == TlsGet(t, CertSubjectDNLegacy); }
    assert s.certSubjectDN == t.certSubjectDN by { assert TlsGet(s, CertSubjectDN) == TlsGet(t, CertSubjectDN); }
    assert s.certNotBefore == t.certNotBefore by { assert TlsGet(s, CertNotBefore) == TlsGet(t, CertNotBefore); }
    assert s.certNotAfter == t.certNotAfter by { assert TlsGet(s, CertNotAfter) == TlsGet(t, CertNotAfter); }
    assert s.certSerial == t.certSerial by { assert TlsGet(s, CertSerial) == TlsGet(t, CertSerial); }
    assert s.certFingerprintSHA1 == t.certFingerprintSHA1 by { assert TlsGet(s, CertFingerprintSHA1) == TlsGet(t, CertFingerprintSHA1); }
    assert s.certVerified == t.certVerified by { assert TlsGet(s, CertVerified) == TlsGet(t, CertVerified); }
  }
}
