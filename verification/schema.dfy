/**
 The shape a successful reply must have (the zod object schema of
 `getIPInfo`): `ip` a string; `network`, `version`, `city`, `region` and
 `country` each absent or a string; `latitude` and `longitude` each absent or a
 number. Validation keeps exactly these fields and drops every other one.
 */
module Schema {
  import opened Wrappers
  import opened Json

  /** The validated record describing an IP address and its location. */
  datatype IPInfo = IPInfo(
    ip: string,
    network: Option<string>,
    version: Option<string>,
    city: Option<string>,
    region: Option<string>,
    country: Option<string>,
    latitude: Option<real>,
    longitude: Option<real>)

  /** The schema's fields. */
  datatype Key = Ip | Network | Version | City | Region | Country | Latitude | Longitude

  /** The schema's fields in declaration order. */
  const Order: seq<Key> := [Ip, Network, Version, City, Region, Country, Latitude, Longitude]

  lemma EveryKeyInOrder()
    ensures forall k: Key :: k in Order
  {
    forall k: Key ensures k in Order {
      match k
      case Ip => assert Order[0] == k;
      case Network => assert Order[1] == k;
      case Version => assert Order[2] == k;
      case City => assert Order[3] == k;
      case Region => assert Order[4] == k;
      case Country => assert Order[5] == k;
      case Latitude => assert Order[6] == k;
      case Longitude => assert Order[7] == k;
    }
  }

  /** The field's name in the payload. */
  function Name(k: Key): string
  {
    match k
    case Ip => "ip"
    case Network => "network"
    case Version => "version"
    case City => "city"
    case Region => "region"
    case Country => "country"
    case Latitude => "latitude"
    case Longitude => "longitude"
  }

  /** Different fields have different names. */
  lemma NameInjective(a: Key, b: Key)
    requires Name(a) == Name(b)
    ensures a == b
  {
  }

  /** The payload names the schema knows. */
  const Keys: set<string> :=
    {"ip", "network", "version", "city", "region", "country", "latitude", "longitude"}

  lemma NameInKeys(k: Key)
    ensures Name(k) in Keys
  {
  }

  /** Every name the schema knows is some field's name. */
  lemma KeyOfName(n: string) returns (k: Key)
    requires n in Keys
    ensures Name(k) == n
  {
    if n == "ip" { k := Ip; }
    else if n == "network" { k := Network; }
    else if n == "version" { k := Version; }
    else if n == "city" { k := City; }
    else if n == "region" { k := Region; }
    else if n == "country" { k := Country; }
    else if n == "latitude" { k := Latitude; }
    else { k := Longitude; }
  }

  /** The three kinds of field in the schema: `z.string()`,
      `z.string().optional()` and `z.number().optional()`. */
  datatype Kind = TextField | OptionalTextField | OptionalNumberField

  function KindOf(k: Key): Kind
  {
    match k
    case Ip => TextField
    case Latitude => OptionalNumberField
    case Longitude => OptionalNumberField
    case _ => OptionalTextField
  }

  /** What a field of the given kind accepts, `None` being an absent field.
      `null` is never accepted. */
  predicate Allows(kind: Kind, v: Option<Json>)
  {
    match kind
    case TextField => v.Some? && v.value.JStr?
    case OptionalTextField => v.None? || v.value.JStr?
    case OptionalNumberField => v.None? || v.value.JNum?
  }

  /** What one field's schema accepts. */
  predicate Accepts(k: Key, v: Option<Json>)
  {
    Allows(KindOf(k), v)
  }

  /** The schema, stated field by field over the payload. */
  predicate Fits(body: Json)
  {
    body.JObj? && forall k: Key :: Accepts(k, Prop(body, Name(k)))
  }

  /** The schema, spelled out for each of its eight fields. */
  lemma FitsByField(body: Json)
    ensures Fits(body) <==>
      && body.JObj?
      && Accepts(Ip, Prop(body, "ip"))
      && Accepts(Network, Prop(body, "network"))
      && Accepts(Version, Prop(body, "version"))
      && Accepts(City, Prop(body, "city"))
      && Accepts(Region, Prop(body, "region"))
      && Accepts(Country, Prop(body, "country"))
      && Accepts(Latitude, Prop(body, "latitude"))
      && Accepts(Longitude, Prop(body, "longitude"))
  {
    assert Name(Ip) == "ip" && Name(Network) == "network" && Name(Version) == "version";
    assert Name(City) == "city" && Name(Region) == "region" && Name(Country) == "country";
    assert Name(Latitude) == "latitude" && Name(Longitude) == "longitude";
  }

  /** The payload value a record's field stands for, `undefined` (None)
      for an absent optional field. */
  function FieldOf(info: IPInfo, k: Key): Option<Json>
  {
    match k
    case Ip => Some(JStr(info.ip))
    case Network => StrValue(info.network)
    case Version => StrValue(info.version)
    case City => StrValue(info.city)
    case Region => StrValue(info.region)
    case Country => StrValue(info.country)
    case Latitude => NumValue(info.latitude)
    case Longitude => NumValue(info.longitude)
  }

  function StrValue(v: Option<string>): Option<Json>
  {
    match v
    case None => None
    case Some(s) => Some(JStr(s))
  }

  function NumValue(v: Option<real>): Option<Json>
  {
    match v
    case None => None
    case Some(n) => Some(JNum(n))
  }

  /** The payload a record stands for: an object with its present fields
      under their schema names. */
  function Encode(info: IPInfo): (body: Json)
    ensures body.JObj? && body.fields.Keys <= Keys
    ensures forall k: Key :: Prop(body, Name(k)) == FieldOf(info, k)
  {
    EveryKeyInOrder();
    JObj(FieldsOf(info, Order))
  }

  /** The present fields of `info` among `ks`, under their names. */
  function FieldsOf(info: IPInfo, ks: seq<Key>): (m: map<string, Json>)
    ensures m.Keys <= Keys
    ensures forall k: Key :: Name(k) in m <==> k in ks && FieldOf(info, k).Some?
    ensures forall k: Key :: Name(k) in m ==> m[Name(k)] == FieldOf(info, k).value
  {
    if |ks| == 0 then map[]
    else
      var m := FieldsOf(info, ks[1..]);
      var k0 := ks[0];
      NameInKeys(k0);
      forall k: Key | Name(k) == Name(k0) ensures k == k0 {
        NameInjective(k, k0);
      }
      match FieldOf(info, k0)
      case None => m
      case Some(v) => m[Name(k0) := v]
  }

  /** The outcome of checking one field. */
  datatype Check<+T> = Pass(value: T) | Reject

  /** `z.string()` on the payload's field `key`: passes exactly when the
      field is what a required text field allows, and yields the field's
      text. */
  function RequiredString(fields: map<string, Json>, key: string): (r: Check<string>)
    ensures r.Pass? <==> Allows(TextField, Prop(JObj(fields), key))
    ensures r.Pass? ==> Prop(JObj(fields), key) == Some(JStr(r.value))
  {
    if key in fields && fields[key].JStr? then Pass(fields[key].s) else Reject
  }

  /** `z.string().optional()` on the payload's field `key`: passes exactly
      when the field is what an optional text field allows, and yields the
      field unchanged. */
  function OptionalString(fields: map<string, Json>, key: string): (r: Check<Option<string>>)
    ensures r.Pass? <==> Allows(OptionalTextField, Prop(JObj(fields), key))
    ensures r.Pass? ==> StrValue(r.value) == Prop(JObj(fields), key)
  {
    if key !in fields then Pass(None)
    else if fields[key].JStr? then Pass(Some(fields[key].s))
    else Reject
  }

  /** `z.number().optional()` on the payload's field `key`: passes exactly
      when the field is what an optional number field allows, and yields the
      field unchanged. */
  function OptionalNumber(fields: map<string, Json>, key: string): (r: Check<Option<real>>)
    ensures r.Pass? <==> Allows(OptionalNumberField, Prop(JObj(fields), key))
    ensures r.Pass? ==> NumValue(r.value) == Prop(JObj(fields), key)
  {
    if key !in fields then Pass(None)
    else if fields[key].JNum? then Pass(Some(fields[key].n))
    else Reject
  }

  /** `ipInfoSchema.safeParse(data)`: checks every schema field of an object
      and builds the record from them; anything that is not an object is
      rejected. Accepts exactly the payloads that fit the schema, and the
      accepted record carries the payload's value of every schema field. */
  function Validate(body: Json): (r: Option<IPInfo>)
    ensures r.Some? <==> Fits(body)
    ensures r.Some? ==> forall k: Key :: FieldOf(r.value, k) == Prop(body, Name(k))
  {
    FitsByField(body);
    match body
    case JObj(f) =>
      var ip := RequiredString(f, "ip");
      var network := OptionalString(f, "network");
      var version := OptionalString(f, "version");
      var city := OptionalString(f, "city");
      var region := OptionalString(f, "region");
      var country := OptionalString(f, "country");
      var latitude := OptionalNumber(f, "latitude");
      var longitude := OptionalNumber(f, "longitude");
      if ip.Pass? && network.Pass? && version.Pass? && city.Pass? && region.Pass?
         && country.Pass? && latitude.Pass? && longitude.Pass?
      then
        Some(IPInfo(ip.value, network.value, version.value, city.value,
                    region.value, country.value, latitude.value, longitude.value))
      else
        None
    case _ => None
  }

  /** Two records that stand for the same payload fields are the same record. */
  lemma FieldOfInjective(a: IPInfo, b: IPInfo)
    requires forall k: Key :: FieldOf(a, k) == FieldOf(b, k)
    ensures a == b
  {
    assert FieldOf(a, Ip) == FieldOf(b, Ip);
    assert FieldOf(a, Network) == FieldOf(b, Network);
    assert FieldOf(a, Version) == FieldOf(b, Version);
    assert FieldOf(a, City) == FieldOf(b, City);
    assert FieldOf(a, Region) == FieldOf(b, Region);
    assert FieldOf(a, Country) == FieldOf(b, Country);
    assert FieldOf(a, Latitude) == FieldOf(b, Latitude);
    assert FieldOf(a, Longitude) == FieldOf(b, Longitude);
  }

  /** Every record's payload passes validation and gives the record back. */
  lemma ValidateEncode(info: IPInfo)
    ensures Validate(Encode(info)) == Some(info)
  {
    var body := Encode(info);
    forall k: Key ensures Accepts(k, Prop(body, Name(k))) {
      assert Prop(body, Name(k)) == FieldOf(info, k);
    }
    assert Fits(body);
    FieldOfInjective(Validate(body).value, info);
  }

  /** Validation keeps the schema fields of an accepted payload and drops
      every other field. */
  lemma EncodeValidate(body: Json)
    requires Validate(body).Some?
    ensures Encode(Validate(body).value) == JObj(Restrict(body.fields, Keys))
  {
    var e := Encode(Validate(body).value);
    var m := Restrict(body.fields, Keys);
    forall n | n in Keys
      ensures (n in e.fields <==> n in m) && (n in m ==> e.fields[n] == m[n])
    {
      var k := KeyOfName(n);
      assert Prop(e, Name(k)) == Prop(body, Name(k));
    }
    assert e.fields.Keys == m.Keys;
  }

  /** Fields outside the schema never change the verdict or the record. */
  lemma ExtraFieldsIgnored(fields: map<string, Json>, extra: map<string, Json>)
    requires extra.Keys !! Keys
    ensures Validate(JObj(fields + extra)) == Validate(JObj(fields))
  {
  }

  /** The fields of `m` whose keys are in `keys`. */
  function Restrict(m: map<string, Json>, keys: set<string>): (r: map<string, Json>)
    ensures r.Keys == m.Keys * keys
    ensures forall k :: k in r ==> r[k] == m[k]
  {
    map k | k in m && k in keys :: m[k]
  }
}
