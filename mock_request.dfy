/** `makeCloudflareWorkerRequest`: builds a mock request whose `cf`
    attribute record is the override-or-default merge of the attributes a
    test supplies, field by field and, inside `tlsClientAuth`, sub-field by
    sub-field. Every fallback is JavaScript's `||`, so a falsy override (an
    empty string, 0, NaN) counts as not given. */
module MockRequest {
  import opened JsValues
  import opened RequestAttributes

  /** The default of each property. The builder's object literal
      (`CfLiteral`, `MergeTlsClientAuth`) writes these values out once more,
      as the source does; keeping both copies is deliberate, and the merge
      lemmas hold only because the two agree. */
  function Default(f: Field): Scalar {
    match f
    case Asn => Str("395747")
    case City => Str("Austin")
    case Colo => Str("AUS")
    case Continent => Str("NA")
    case Country => Str("US")
    case Exclusive => Str("0")
    case Group => Str("0")
    case GroupWeight => Str("0")
    case HttpProtocol => Str("HTTP/2")
    case Latitude => Num(Finite(30.2713))
    case Longitude => Num(Finite(-97.7426))
    case PostalCode => Str("78701")
    case Region => Str("Texas")
    case RegionCode => Str("TX")
    case RequestPriority => Str("weight=192;exclusive=0;group=3;group-weight=127")
    case Timezone => Str("America/Chicago")
    case TlsCipher => Str("AEAD-AES128-GCM-SHA256")
    case TlsVersion => Str("TLSv1.3")
    case Weight => Str("0")
  }

  /** The default of each `tlsClientAuth` property. */
  function TlsDefault(g: TlsField): Scalar {
    match g
    case CertNotBefore => Str("Dec 22 19:39:00 2018 GMT")
    case CertNotAfter => Str("Dec 22 19:39:00 2018 GMT")
    case CertPresented => Str("1")
    case CertVerified => Str("SUCCESS")
    case _ => Str("")
  }

  /** The override each property is read from. Every property reads its own,
      except `group`, which reads `exclusive`, and `tlsVersion`, which reads
      `weight`. */
  function Source(f: Field): Field {
    match f
    case Group => Exclusive
    case TlsVersion => Weight
    case _ => f
  }

  /** The override is present and truthy, so `||` keeps it. */
  predicate Supplied(o: Option<Scalar>) {
    o.Some? && Truthy(o.value)
  }

  /** `attr.tlsClientAuth || {}`: an object is always truthy, so only a
      missing group falls back to the empty one. */
  function TlsOverrides(attr: PartialRequestAttributes): (t: PartialTlsClientAuth)
    ensures attr.tlsClientAuth.Some? ==> t == attr.tlsClientAuth.value
    ensures attr.tlsClientAuth.None? ==> forall g :: TlsGetPartial(t, g).None?
  {
    if attr.tlsClientAuth.Some? then attr.tlsClientAuth.value else NoTlsOverrides
  }

  /** Reference meaning of the nested merge: each sub-field separately. */
  ghost predicate IsTlsMerge(t: PartialTlsClientAuth, c: TlsClientAuth) {
    forall g {:trigger TlsGet(c, g)} :: TlsGet(c, g) == Or(TlsGetPartial(t, g), TlsDefault(g))
  }

  /** Reference meaning of the whole merge: property by property, the
      override the property reads or else its default, and the nested group
      merged sub-field by sub-field. */
  ghost predicate IsMerge(attr: PartialRequestAttributes, cf: CloudflareRequestAttributes) {
    && (forall f {:trigger Get(cf, f)} :: Get(cf, f) == Or(GetPartial(attr, Source(f)), Default(f)))
    && IsTlsMerge(TlsOverrides(attr), cf.tlsClientAuth)
  }

  /** The `tlsClientAuth` literal of the builder. */
  function MergeTlsClientAuth(tlsAttr: PartialTlsClientAuth): (c: TlsClientAuth)
    ensures IsTlsMerge(tlsAttr, c)
  {
    TlsClientAuth(
      certFingerprintSHA1 := OrString(tlsAttr.certFingerprintSHA1, ""),
      certIssuerDN := OrString(tlsAttr.certIssuerDN, ""),
      certIssuerDNLegacy := OrString(tlsAttr.certIssuerDNLegacy, ""),
      certIssuerDNRFC2253 := OrString(tlsAttr.certIssuerDNRFC2253, ""),
      certNotAfter := OrString(tlsAttr.certNotAfter, "Dec 22 19:39:00 2018 GMT"),
      certNotBefore := OrString(tlsAttr.certNotBefore, "Dec 22 19:39:00 2018 GMT"),
      certPresented := OrString(tlsAttr.certPresented, "1"),
      certSerial := OrString(tlsAttr.certSerial, ""),
      certSubjectDN := OrString(tlsAttr.certSubjectDN, ""),
      certSubjectDNLegacy := OrString(tlsAttr.certSubjectDNLegacy, ""),
      certVerified := OrString(tlsAttr.certVerified, "SUCCESS"))
  }

  /** The `cf` object literal of the builder, property by property,
      including its two cross-wired properties: `group` is taken from the
      `exclusive` override and `tlsVersion` from the `weight` override. The
      defaults are written here as in the source and once more in `Default`;
      `CfLiteralMeetsSpec` checks that the two copies agree. */
  function CfLiteral(attr: PartialRequestAttributes): CloudflareRequestAttributes {
    var tlsAttr := TlsOverrides(attr);
    CloudflareRequestAttributes(
      asn := OrString(attr.asn, "395747"),
      city := OrString(attr.city, "Austin"),
      colo := OrString(attr.colo, "AUS"),
      continent := OrString(attr.continent, "NA"),
      country := OrString(attr.country, "US"),
      exclusive := OrString(attr.exclusive, "0"),
      group := OrString(attr.exclusive, "0"),
      groupWeight := OrString(attr.groupWeight, "0"),
      httpProtocol := OrString(attr.httpProtocol, "HTTP/2"),
      latitude := OrNumber(attr.latitude, Finite(30.2713)),
      longitude := OrNumber(attr.longitude, Finite(-97.7426)),
      postalCode := OrString(attr.postalCode, "78701"),
      region := OrString(attr.region, "Texas"),
      regionCode := OrString(attr.regionCode, "TX"),
      requestPriority := OrString(attr.requestPriority, "weight=192;exclusive=0;group=3;group-weight=127"),
      timezone := OrString(attr.timezone, "America/Chicago"),
      tlsCipher := OrString(attr.tlsCipher, "AEAD-AES128-GCM-SHA256"),
      tlsClientAuth := MergeTlsClientAuth(tlsAttr),
      tlsVersion := OrString(attr.weight, "TLSv1.3"),
      weight := OrString(attr.weight, "0"))
  }

  /** The literal meets the reference meaning of the merge, one property
      name at a time. */
  lemma CfLiteralMeetsSpec(attr: PartialRequestAttributes)
    ensures IsMerge(attr, CfLiteral(attr))
  {
    var cf := CfLiteral(attr);
    forall f ensures Get(cf, f) == Or(GetPartial(attr, Source(f)), Default(f)) {
      match f
      case Asn =>
      case City =>
      case Colo =>
      case Continent =>
      case Country =>
      case Exclusive =>
      case Group =>
      case GroupWeight =>
      case HttpProtocol =>
      case Latitude =>
      case Longitude =>
      case PostalCode =>
      case Region =>
      case RegionCode =>
      case RequestPriority =>
      case Timezone =>
      case TlsCipher =>
      case TlsVersion =>
      case Weight =>
    }
  }

  /** The merged `cf` record the builder attaches: it meets the reference
      meaning of the merge. */
  function MergeAttributes(attr: PartialRequestAttributes): (r: CloudflareRequestAttributes)
    ensures IsMerge(attr, r)
  {
    CfLiteralMeetsSpec(attr);
    CfLiteral(attr)
  }

  /** The mock `RequestInit`: the runtime's own request options (opaque
      here) together with the partial attribute record. */
  datatype MockRequestInit<O> = MockRequestInit(options: O, cf: PartialRequestAttributes)

  /** What the built request exposes to a handler: the input URL, the
      runtime options it was made with, and the `cf` record if one was
      attached. */
  datatype Request<O> = Request(input: string, init: Option<O>, cf: Option<CloudflareRequestAttributes>)

  function MakeCloudflareWorkerRequest<O>(input: string, init: Option<MockRequestInit<O>>): (r: Request<O>)
    ensures r.input == input
    ensures init.None? <==> r.cf.None?
    ensures init.None? ==> r.init.None?
    ensures init.Some? ==> r.init == Some(init.value.options) && IsMerge(init.value.cf, r.cf.value)
  {
    match init
    case None => Request(input, None, None)
    case Some(i) =>
      Request(input, Some(i.options), Some(MergeAttributes(i.cf)))
  }

  /** The merge is fully determined by its reference meaning: the built
      record is the one and only record satisfying it. */
  lemma MergeIsUnique(attr: PartialRequestAttributes, cf: CloudflareRequestAttributes)
    ensures IsMerge(attr, cf) <==> cf == MergeAttributes(attr)
  {
    if IsMerge(attr, cf) {
      SameFieldsSameRecord(cf, MergeAttributes(attr));
    }
  }

  /** Every default is truthy, except the empty-string defaults of the DN,
      serial and fingerprint sub-fields of `tlsClientAuth`. */
  lemma DefaultsTruthy()
    ensures forall f :: Truthy(Default(f))
    ensures forall g :: Truthy(TlsDefault(g)) || TlsDefault(g) == Str("")
  {
  }

  /** A property other than `group` and `tlsVersion` is its own override
      when that override is truthy, and its default otherwise. */
  lemma OverrideOrDefault(attr: PartialRequestAttributes, f: Field)
    requires f != Group && f != TlsVersion
    ensures Supplied(GetPartial(attr, f)) ==> Get(MergeAttributes(attr), f) == GetPartial(attr, f).value
    ensures !Supplied(GetPartial(attr, f)) ==> Get(MergeAttributes(attr), f) == Default(f)
  {
    assert Get(MergeAttributes(attr), f) == Or(GetPartial(attr, Source(f)), Default(f));
  }

  /** The same rule, sub-field by sub-field, inside `tlsClientAuth`. */
  lemma TlsOverrideOrDefault(attr: PartialRequestAttributes, g: TlsField)
    ensures var o := TlsGetPartial(TlsOverrides(attr), g);
      && (Supplied(o) ==> TlsGet(MergeAttributes(attr).tlsClientAuth, g) == o.value)
      && (!Supplied(o) ==> TlsGet(MergeAttributes(attr).tlsClientAuth, g) == TlsDefault(g))
  {
  }

  /** A missing `tlsClientAuth` is treated like `{}`: every sub-field takes
      its default. */
  lemma MissingTlsClientAuthIsEmpty(attr: PartialRequestAttributes)
    requires attr.tlsClientAuth.None?
    ensures MergeAttributes(attr) == MergeAttributes(attr.(tlsClientAuth := Some(NoTlsOverrides)))
    ensures forall g :: TlsGet(MergeAttributes(attr).tlsClientAuth, g) == TlsDefault(g)
  {
  }

  /** Falsy overrides are dropped and truthy ones kept: an empty string,
      a zero and a NaN fall back to the default, while the string "0" is
      kept. */
  lemma FalsinessExamples(attr: PartialRequestAttributes)
    requires attr.country == Some("")
    requires attr.latitude == Some(Finite(0.0))
    requires attr.longitude == Some(NaN)
    requires attr.asn == Some("0")
    ensures MergeAttributes(attr).country == "US"
    ensures MergeAttributes(attr).latitude == Finite(30.2713)
    ensures MergeAttributes(attr).longitude == Finite(-97.7426)
    ensures MergeAttributes(attr).asn == "0"
  {
  }

  /** `group` always equals `exclusive`, and a supplied `group` override
      has no effect at all. */
  lemma GroupFollowsExclusive(attr: PartialRequestAttributes, group: Option<string>)
    ensures MergeAttributes(attr).group == MergeAttributes(attr).exclusive
    ensures MergeAttributes(attr.(group := group)) == MergeAttributes(attr)
  {
  }

  /** `tlsVersion` is the `weight` override when one is supplied and
      "TLSv1.3" otherwise; a supplied `tlsVersion` override has no effect. */
  lemma TlsVersionFollowsWeight(attr: PartialRequestAttributes, tlsVersion: Option<string>)
    ensures Supplied(GetPartial(attr, Weight)) <==> MergeAttributes(attr).tlsVersion == MergeAttributes(attr).weight
    ensures !Supplied(GetPartial(attr, Weight)) ==> MergeAttributes(attr).tlsVersion == "TLSv1.3"
    ensures MergeAttributes(attr.(tlsVersion := tlsVersion)) == MergeAttributes(attr)
  {
  }

  /** No property of a merged record is left falsy, except a
      `tlsClientAuth` sub-field whose default is the empty string. */
  lemma MergedIsPopulated(attr: PartialRequestAttributes, cf: CloudflareRequestAttributes)
    requires IsMerge(attr, cf)
    ensures forall f :: Truthy(Get(cf, f))
    ensures forall g :: Truthy(TlsDefault(g)) ==> Truthy(TlsGet(cf.tlsClientAuth, g))
  {
    DefaultsTruthy();
  }

  /** The same of the built record: every property is populated. */
  lemma BuiltRecordIsPopulated(attr: PartialRequestAttributes)
    ensures forall f :: Truthy(Get(MergeAttributes(attr), f))
    ensures forall g :: Truthy(TlsDefault(g)) ==> Truthy(TlsGet(MergeAttributes(attr).tlsClientAuth, g))
  {
    MergedIsPopulated(attr, MergeAttributes(attr));
  }

  /** A complete `tlsClientAuth` group offered as the overrides. */
  function ToPartialTls(t: TlsClientAuth): (p: PartialTlsClientAuth)
    ensures forall g :: TlsGetPartial(p, g) == Some(TlsGet(t, g))
  {
    PartialTlsClientAuth(
      Some(t.certIssuerDNLegacy), Some(t.certIssuerDN), Some(t.certIssuerDNRFC2253),
      Some(t.certPresented), Some(t.certSubjectDNLegacy), Some(t.certSubjectDN),
      Some(t.certNotBefore), Some(t.certNotAfter), Some(t.certSerial),
      Some(t.certFingerprintSHA1), Some(t.certVerified))
  }

  /** A complete record offered as the overrides. */
  function ToPartial(a: CloudflareRequestAttributes): (p: PartialRequestAttributes)
    ensures forall f :: GetPartial(p, f) == Some(Get(a, f))
    ensures p.tlsClientAuth == Some(ToPartialTls(a.tlsClientAuth))
  {
    PartialRequestAttributes(
      Some(a.asn), Some(a.city), Some(a.colo), Some(a.continent), Some(a.country),
      Some(a.exclusive), Some(a.group), Some(a.groupWeight), Some(a.httpProtocol),
      Some(a.latitude), Some(a.longitude), Some(a.postalCode), Some(a.region),
      Some(a.regionCode), Some(a.requestPriority), Some(a.timezone), Some(a.tlsCipher),
      Some(ToPartialTls(a.tlsClientAuth)), Some(a.tlsVersion), Some(a.weight))
  }

  /** The nested merge, unlike the outer one, is idempotent: merging a
      merged `tlsClientAuth` group again gives the same group. */
  lemma TlsMergeIdempotent(t: PartialTlsClientAuth, c: TlsClientAuth, m: TlsClientAuth)
    requires IsTlsMerge(t, c)
    requires IsTlsMerge(ToPartialTls(c), m)
    ensures m == c
  {
    forall g ensures TlsGet(m, g) == TlsGet(c, g) {
      assert TlsGet(m, g) == Or(TlsGetPartial(ToPartialTls(c), g), TlsDefault(g));
      assert TlsGet(c, g) == Or(TlsGetPartial(t, g), TlsDefault(g));
    }
    SameTlsFieldsSameGroup(m, c);
  }

  /** The complete records the builder reproduces when given all of their
      own properties as overrides. */
  ghost predicate Reproducible(a: CloudflareRequestAttributes) {
    && (forall f :: f != Group && f != TlsVersion ==> Truthy(Get(a, f)))
    && a.group == a.exclusive
    && a.tlsVersion == a.weight
    && (forall g :: Truthy(TlsDefault(g)) ==> Truthy(TlsGet(a.tlsClientAuth, g)))
  }

  /** A record written out in full and merged comes back unchanged
      exactly when it is Reproducible. */
  lemma MergeOfFullRecord(a: CloudflareRequestAttributes, m: CloudflareRequestAttributes)
    requires IsMerge(ToPartial(a), m)
    ensures m == a <==> Reproducible(a)
  {
    var p := ToPartial(a);
    DefaultsTruthy();
    if m == a {
      forall f | f != Group && f != TlsVersion
        ensures Truthy(Get(a, f))
      {
        assert Get(m, f) == Or(GetPartial(p, f), Default(f));
      }
      assert Get(m, Group) == Or(GetPartial(p, Exclusive), Default(Group));
      assert Get(m, Exclusive) == Or(GetPartial(p, Exclusive), Default(Exclusive));
      assert Get(m, TlsVersion) == Or(GetPartial(p, Weight), Default(TlsVersion));
      assert Get(m, Weight) == Or(GetPartial(p, Weight), Default(Weight));
      forall g | Truthy(TlsDefault(g))
        ensures Truthy(TlsGet(a.tlsClientAuth, g))
      {
        assert TlsGet(m.tlsClientAuth, g) == Or(TlsGetPartial(p.tlsClientAuth.value, g), TlsDefault(g));
      }
    }
    if Reproducible(a) {
      assert Truthy(Get(a, Exclusive)) && Truthy(Get(a, Weight));
      forall f ensures Get(m, f) == Get(a, f) {
        assert Get(m, f) == Or(GetPartial(p, Source(f)), Default(f));
      }
      forall g ensures TlsGet(m.tlsClientAuth, g) == TlsGet(a.tlsClientAuth, g) {
        assert TlsGet(m.tlsClientAuth, g) == Or(TlsGetPartial(p.tlsClientAuth.value, g), TlsDefault(g));
      }
      SameFieldsSameRecord(m, a);
    }
  }

  /** A record written out in full and passed through the builder comes
      back unchanged exactly when it is Reproducible. */
  lemma ReproducesExactly(a: CloudflareRequestAttributes)
    ensures MergeAttributes(ToPartial(a)) == a <==> Reproducible(a)
  {
    MergeOfFullRecord(a, MergeAttributes(ToPartial(a)));
  }

  /** Merging a merged record once more changes its `tlsVersion` to its
      already defaulted `weight` and nothing else. */
  lemma MergeOfMergedRecord(attr: PartialRequestAttributes, a: CloudflareRequestAttributes, m: CloudflareRequestAttributes)
    requires IsMerge(attr, a)
    requires IsMerge(ToPartial(a), m)
    ensures m == a.(tlsVersion := a.weight)
  {
    var p := ToPartial(a);
    MergedIsPopulated(attr, a);
    forall f | f != TlsVersion ensures Get(m, f) == Get(a, f) {
      assert Get(m, f) == Or(GetPartial(p, Source(f)), Default(f));
      assert Get(a, f) == Or(GetPartial(attr, Source(f)), Default(f));
    }
    assert Get(m, TlsVersion) == Or(GetPartial(p, Weight), Default(TlsVersion));
    var b := a.(tlsVersion := a.weight);
    forall f ensures Get(m, f) == Get(b, f) {
      if f != TlsVersion {
        assert Get(m, f) == Get(a, f);
      }
    }
    TlsMergeIdempotent(TlsOverrides(attr), a.tlsClientAuth, m.tlsClientAuth);
    SameFieldsSameRecord(m, b);
  }

  /** Feeding the builder's own output back in changes `tlsVersion` to the
      already defaulted `weight` and nothing else. */
  lemma RebuildCopiesWeightIntoTlsVersion(attr: PartialRequestAttributes)
    ensures var a := MergeAttributes(attr);
      MergeAttributes(ToPartial(a)) == a.(tlsVersion := a.weight)
  {
    var a := MergeAttributes(attr);
    MergeOfMergedRecord(attr, a, MergeAttributes(ToPartial(a)));
  }

  /** So the builder is idempotent on its own output exactly when a truthy
      `weight` override was given. */
  lemma RebuildIsIdentityIffWeightSupplied(attr: PartialRequestAttributes)
    ensures var a := MergeAttributes(attr);
      MergeAttributes(ToPartial(a)) == a <==> Supplied(GetPartial(attr, Weight))
  {
    RebuildCopiesWeightIntoTlsVersion(attr);
    TlsVersionFollowsWeight(attr, None);
  }
}
