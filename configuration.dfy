/**
 * The export configuration record and the pure rules the configuration registry follows: the
 * incremental names offered for duplicates and imports, the upsert by name, the selection of
 * the configurations that are persisted, and the map-schema encoding of a configuration.
 */
module IfcExportConfiguration {
  import opened Wrappers
  import opened IfcEnums

  /**
   * An export configuration. The fields the registry and the migrations look at are explicit;
   * every other setting is kept as the text its `ToString()` writes into the map schema, keyed
   * by the map key it is written under.
   */
  datatype Configuration = Configuration(
    name: string,
    ifcVersion: IFCVersion,
    exchangeRequirement: KnownERNames,
    isBuiltIn: bool,
    isInSession: bool,
    geoRefCRSName: string,
    geoRefCRSDesc: string,
    geoRefEPSGCode: string,
    geoRefGeodeticDatum: string,
    geoRefMapUnit: string,
    otherSettings: map<string, string>)

  // ---------------------------------------------------------------------------------------
  // Incremental names

  function Digit(d: int): char
    requires 0 <= d < 10
  {
    "0123456789"[d]
  }

  /** The decimal text of a non-negative `int`, as C# `int.ToString()` writes it. */
  function DecimalString(n: nat): (s: string)
    ensures |s| >= 1
    ensures n < 10 <==> |s| == 1
    decreases n
  {
    if n < 10 then [Digit(n)] else DecimalString(n / 10) + [Digit(n % 10)]
  }

  /** `nameRoot + " " + number`. */
  function IncrementalName(nameRoot: string, number: nat): (r: string)
    ensures |r| > |nameRoot| + 1
    ensures r[..|nameRoot| + 1] == nameRoot + " "
  {
    nameRoot + " " + DecimalString(number)
  }

  /** Distinct numbers have distinct decimal texts. */
  lemma {:induction false} DecimalStringInjective(a: nat, b: nat)
    requires DecimalString(a) == DecimalString(b)
    ensures a == b
    decreases a
  {
    if a >= 10 && b >= 10 {
      var sa, sb := DecimalString(a), DecimalString(b);
      assert sa[..|sa| - 1] == DecimalString(a / 10);
      assert sb[..|sb| - 1] == DecimalString(b / 10);
      DecimalStringInjective(a / 10, b / 10);
      assert Digit(a % 10) == sa[|sa| - 1] == sb[|sb| - 1] == Digit(b % 10);
    }
  }

  /** Distinct numbers give distinct incremental names for the same root. */
  lemma IncrementalNameInjective(nameRoot: string, a: nat, b: nat)
    requires IncrementalName(nameRoot, a) == IncrementalName(nameRoot, b)
    ensures a == b
  {
    var k := |nameRoot| + 1;
    assert DecimalString(a) == IncrementalName(nameRoot, a)[k..];
    assert DecimalString(b) == IncrementalName(nameRoot, b)[k..];
    DecimalStringInjective(a, b);
  }

  /** An incremental name is never its own root. */
  lemma IncrementalNameIsFresh(nameRoot: string, number: nat)
    ensures IncrementalName(nameRoot, number) != nameRoot
  {
    assert |IncrementalName(nameRoot, number)| > |nameRoot|;
  }

  /** The names the configurations carry. */
  function Names(cs: seq<Configuration>): (r: set<string>)
    ensures forall i :: 0 <= i < |cs| ==> cs[i].name in r
    ensures forall n :: n in r ==> exists i :: 0 <= i < |cs| && cs[i].name == n
  {
    set i | 0 <= i < |cs| :: cs[i].name
  }

  /** A registry of `|cs|` configurations carries at most `|cs|` names. */
  lemma {:induction false} NamesBound(cs: seq<Configuration>)
    ensures |Names(cs)| <= |cs|
  {
    if cs != [] {
      var rest := cs[..|cs| - 1];
      NamesBound(rest);
      assert Names(cs) == Names(rest) + {cs[|cs| - 1].name};
    }
  }

  /**
   * If the incremental names 1 to `n` of `nameRoot` are all in `names`, then `names` has at
   * least `n` members: the search for a free incremental name needs at most one probe more
   * than the registry has names.
   */
  lemma {:induction false} TakenIncrementalNamesBound(nameRoot: string, names: set<string>, n: nat)
    requires forall k :: 1 <= k <= n ==> IncrementalName(nameRoot, k) in names
    ensures n <= |names|
    decreases n
  {
    if n > 0 {
      var last := IncrementalName(nameRoot, n);
      var rest := names - {last};
      forall k | 1 <= k <= n - 1
        ensures IncrementalName(nameRoot, k) in rest
      {
        if IncrementalName(nameRoot, k) == last {
          IncrementalNameInjective(nameRoot, k, n);
        }
      }
      TakenIncrementalNamesBound(nameRoot, rest, n - 1);
    }
  }

  // ---------------------------------------------------------------------------------------
  // The registry as a sequence of configurations in iteration order

  /** No two configurations share a name. */
  predicate UniqueNames(cs: seq<Configuration>)
  {
    forall i, j :: 0 <= i < j < |cs| ==> cs[i].name != cs[j].name
  }

  /**
   * `AddOrReplace` (the dictionary indexer): a configuration whose name is present replaces the
   * one with that name in its place; otherwise it is appended.
   */
  function Upsert(cs: seq<Configuration>, c: Configuration): (r: seq<Configuration>)
    ensures c.name in Names(cs) ==> |r| == |cs|
    ensures c.name !in Names(cs) ==> r == cs + [c]
    ensures c in r
  {
    if cs == [] then [c]
    else if cs[0].name == c.name then [c] + cs[1..]
    else [cs[0]] + Upsert(cs[1..], c)
  }

  /** Prepending a configuration whose name is new keeps names unique. */
  lemma UniqueNamesCons(c: Configuration, cs: seq<Configuration>)
    requires UniqueNames(cs) && c.name !in Names(cs)
    ensures UniqueNames([c] + cs)
  {
    forall i, j | 0 <= i < j < |[c] + cs|
      ensures ([c] + cs)[i].name != ([c] + cs)[j].name
    {
      if i > 0 {
        assert ([c] + cs)[i] == cs[i - 1] && ([c] + cs)[j] == cs[j - 1];
      } else {
        assert ([c] + cs)[j] == cs[j - 1];
      }
    }
  }

  /** Upsert keeps every entry with another name and brings in no entry but `c`. */
  lemma {:induction false} UpsertKeepsOthers(cs: seq<Configuration>, c: Configuration)
    ensures forall d :: d in cs && d.name != c.name ==> d in Upsert(cs, c)
    ensures forall d :: d in Upsert(cs, c) ==> d == c || d in cs
  {
    if cs != [] && cs[0].name != c.name {
      UpsertKeepsOthers(cs[1..], c);
    }
  }

  /** Upsert adds exactly `c`'s name. */
  lemma UpsertNames(cs: seq<Configuration>, c: Configuration)
    ensures Names(Upsert(cs, c)) == Names(cs) + {c.name}
  {
    var r := Upsert(cs, c);
    UpsertKeepsOthers(cs, c);
    forall n | n in Names(r)
      ensures n in Names(cs) + {c.name}
    {
      var i :| 0 <= i < |r| && r[i].name == n;
      assert r[i] in r;
    }
    forall n | n in Names(cs) && n != c.name
      ensures n in Names(r)
    {
      var i :| 0 <= i < |cs| && cs[i].name == n;
      assert cs[i] in cs;
      var j :| 0 <= j < |r| && r[j] == cs[i];
    }
    var j :| 0 <= j < |r| && r[j] == c;
  }

  /** Upsert keeps names unique. */
  lemma {:induction false} UpsertUnique(cs: seq<Configuration>, c: Configuration)
    requires UniqueNames(cs)
    ensures UniqueNames(Upsert(cs, c))
  {
    if cs != [] {
      assert UniqueNames(cs[1..]);
      if cs[0].name != c.name {
        UpsertUnique(cs[1..], c);
        UpsertNames(cs[1..], c);
        assert cs[0].name !in Names(cs[1..]);
        UniqueNamesCons(cs[0], Upsert(cs[1..], c));
      } else {
        assert c.name !in Names(cs[1..]);
        UniqueNamesCons(c, cs[1..]);
      }
    }
  }

  /** Upserting the same configuration twice is the same as upserting it once. */
  lemma {:induction false} UpsertIdempotent(cs: seq<Configuration>, c: Configuration)
    ensures Upsert(Upsert(cs, c), c) == Upsert(cs, c)
  {
    if cs != [] && cs[0].name != c.name {
      UpsertIdempotent(cs[1..], c);
    }
  }

  /** The deprecated IFCBCA version is rewritten to its successor IFC2x3CV2 on import. */
  function NormalizedVersion(v: IFCVersion): (r: IFCVersion)
    ensures r != IFCBCA
    ensures v != IFCBCA ==> r == v
  {
    if v == IFCBCA then IFC2x3CV2 else v
  }

  // ---------------------------------------------------------------------------------------
  // Persistable configurations

  /** A configuration that is written to the document: neither built in nor in session. */
  predicate Persistable(c: Configuration)
  {
    !c.isBuiltIn && !c.isInSession
  }

  /** The configurations the migrations queue for saving, in registry iteration order. */
  function PersistableSetups(cs: seq<Configuration>): (r: seq<Configuration>)
    ensures |r| <= |cs|
    ensures forall c :: c in r <==> c in cs && Persistable(c)
  {
    if cs == [] then []
    else
      var init := PersistableSetups(cs[..|cs| - 1]);
      var last := cs[|cs| - 1];
      assert forall c :: c in cs <==> c in cs[..|cs| - 1] || c == last;
      if Persistable(last) then init + [last] else init
  }

  /** Queuing a registry in two parts queues each part in order. */
  lemma {:induction false} PersistableSetupsAppend(a: seq<Configuration>, b: seq<Configuration>)
    ensures PersistableSetups(a + b) == PersistableSetups(a) + PersistableSetups(b)
    decreases |b|
  {
    if b == [] {
      assert a + b == a;
    } else {
      var b' := b[..|b| - 1];
      assert (a + b)[..|a + b| - 1] == a + b';
      PersistableSetupsAppend(a, b');
    }
  }

  /**
   * The process-wide in-session slot after the queuing loop: `SetInSession` is called for every
   * in-session configuration that is not built in, so the last such configuration wins.
   */
  function InSessionAfter(cs: seq<Configuration>, previous: Option<Configuration>): (r: Option<Configuration>)
    ensures r != previous ==> r.Some? && r.value in cs && r.value.isInSession && !r.value.isBuiltIn
    ensures (forall c :: c in cs ==> c.isBuiltIn || !c.isInSession) ==> r == previous
  {
    if cs == [] then previous
    else
      var init := InSessionAfter(cs[..|cs| - 1], previous);
      var last := cs[|cs| - 1];
      assert forall c :: c in cs <==> c in cs[..|cs| - 1] || c == last;
      if !last.isBuiltIn && last.isInSession then Some(last) else init
  }

  /**
   * The last in-session configuration that is not built in is the one left in the slot,
   * wherever it stands in the registry.
   */
  lemma {:induction false} InSessionAfterLast(cs: seq<Configuration>, previous: Option<Configuration>, j: nat)
    requires j < |cs| && !cs[j].isBuiltIn && cs[j].isInSession
    requires forall k :: j < k < |cs| ==> cs[k].isBuiltIn || !cs[k].isInSession
    ensures InSessionAfter(cs, previous) == Some(cs[j])
    decreases |cs|
  {
    if j < |cs| - 1 {
      InSessionAfterLast(cs[..|cs| - 1], previous, j);
    }
  }

  // ---------------------------------------------------------------------------------------
  // The map-schema encoding

  /** The keys of the map-schema field that the model distinguishes; the rest are `Setting` keys. */
  datatype MapKey =
    | SetupName | SetupVersion | ExchangeRequirementKey
    | GeoRefCRSNameKey | GeoRefCRSDescKey | GeoRefEPSGCodeKey | GeoRefGeodeticDatumKey | GeoRefMapUnitKey
    | Setting(key: string)

  /**
   * What `IsNullOrEmpty(field) ? "" : GeoRefCRSName` writes for a geo-reference field other
   * than the CRS name itself: the CRS name, not the field's own value.
   */
  function GeoReferenceEntry(field: string, crsName: string): string
  {
    if field == "" then "" else crsName
  }

  /** The dictionary a configuration is written as under the map schema. */
  function MapEncode(c: Configuration): (m: map<MapKey, string>)
    ensures SetupName in m && SetupVersion in m && ExchangeRequirementKey in m
    ensures forall k :: k in c.otherSettings ==> Setting(k) in m
    ensures m[SetupName] == c.name
    ensures m[SetupVersion] == VersionName(c.ifcVersion)
    ensures m[ExchangeRequirementKey] == ErName(c.exchangeRequirement)
    ensures forall k :: k in c.otherSettings ==> m[Setting(k)] == c.otherSettings[k]
  {
    (map k | k in c.otherSettings :: Setting(k) := c.otherSettings[k])
    [SetupName := c.name]
    [SetupVersion := VersionName(c.ifcVersion)]
    [ExchangeRequirementKey := ErName(c.exchangeRequirement)]
    [GeoRefCRSNameKey := c.geoRefCRSName]
    [GeoRefCRSDescKey := GeoReferenceEntry(c.geoRefCRSDesc, c.geoRefCRSName)]
    [GeoRefEPSGCodeKey := GeoReferenceEntry(c.geoRefEPSGCode, c.geoRefCRSName)]
    [GeoRefGeodeticDatumKey := GeoReferenceEntry(c.geoRefGeodeticDatum, c.geoRefCRSName)]
    [GeoRefMapUnitKey := GeoReferenceEntry(c.geoRefMapUnit, c.geoRefCRSName)]
  }

  /**
   * As written, the map schema cannot tell apart two configurations whose geo-reference
   * description, EPSG code, geodetic datum and map unit differ but are empty in the same places:
   * only the CRS name is stored for them.
   */
  lemma MapEncodeLosesGeoReferenceValues(c: Configuration, desc: string, epsg: string, datum: string, unit: string)
    requires (desc == "") == (c.geoRefCRSDesc == "") && (epsg == "") == (c.geoRefEPSGCode == "")
    requires (datum == "") == (c.geoRefGeodeticDatum == "") && (unit == "") == (c.geoRefMapUnit == "")
    ensures MapEncode(c.(geoRefCRSDesc := desc, geoRefEPSGCode := epsg, geoRefGeodeticDatum := datum, geoRefMapUnit := unit))
         == MapEncode(c)
  {
  }
}
