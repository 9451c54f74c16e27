/**
 * The exchange-requirement tables of the exporter: which exchange requirements each IFC version
 * offers, their labels for the user interface, and the parser from member names.
 */
module IfcExchangeRequirements {
  import opened Wrappers
  import opened IfcEnums
  import opened IfcEnumExtensions

  /** The exchange requirements both IFC2x3CV2 and IFC4RV offer, in the order the tables list them. */
  const ReferenceViewRequirements: seq<KnownERNames> :=
    [KnownERNames.Architecture, KnownERNames.BuildingService, KnownERNames.Structural]

  /**
   * The two static dictionaries of `IFCExchangeRequirements`, filled lazily by `Initialize`.
   * The source adds the same list object under both versions; the model holds it as a value.
   */
  class ExchangeRequirementTables {
    var knownExchangeRequirements: map<IFCVersion, seq<KnownERNames>>
    var knownExchangeRequirementsLocalized: map<IFCVersion, seq<string>>

    /** The tables as `Initialize` leaves them: both versions share one label list. */
    predicate Populated()
      reads this
    {
      && knownExchangeRequirements == map[IFC2x3CV2 := ReferenceViewRequirements, IFC4RV := ReferenceViewRequirements]
      && knownExchangeRequirementsLocalized.Keys == {IFC2x3CV2, IFC4RV}
      && knownExchangeRequirementsLocalized[IFC2x3CV2] == knownExchangeRequirementsLocalized[IFC4RV]
      && IsLabelList(knownExchangeRequirementsLocalized[IFC2x3CV2], ReferenceViewRequirements, ErFullLabel)
    }

    /** Either nothing has been loaded yet or everything has. */
    predicate Valid()
      reads this
    {
      || (knownExchangeRequirements == map[] && knownExchangeRequirementsLocalized == map[])
      || Populated()
    }

    constructor ()
      ensures Valid() && knownExchangeRequirements == map[]
    {
      knownExchangeRequirements := map[];
      knownExchangeRequirementsLocalized := map[];
    }

    /** Fill the tables once; a second call leaves them as they are. */
    method Initialize()
      requires Valid()
      modifies this
      ensures Populated()
      ensures old(Populated()) ==> unchanged(this)
    {
      if knownExchangeRequirements == map[] {
        var ifcVersion := IFC2x3CV2;
        knownExchangeRequirements := knownExchangeRequirements[ifcVersion := ReferenceViewRequirements];
        var ers := knownExchangeRequirements[ifcVersion];
        var erNameListForUI := seq(|ers|, k requires 0 <= k < |ers| => ErFullLabel(ers[k]));
        knownExchangeRequirementsLocalized := knownExchangeRequirementsLocalized[ifcVersion := erNameListForUI];

        ifcVersion := IFC4RV;
        knownExchangeRequirements := knownExchangeRequirements[ifcVersion := ReferenceViewRequirements];
        knownExchangeRequirementsLocalized := knownExchangeRequirementsLocalized[ifcVersion := erNameListForUI];
      }
    }

    /** `ExchangeRequirements`: the version-to-requirements table, loaded first if need be. */
    method ExchangeRequirements() returns (r: map<IFCVersion, seq<KnownERNames>>)
      requires Valid()
      modifies this
      ensures Populated()
      ensures r == map[IFC2x3CV2 := ReferenceViewRequirements, IFC4RV := ReferenceViewRequirements]
    {
      Initialize();
      r := knownExchangeRequirements;
    }

    /** `ExchangeRequirementListForUI`: the UI labels for `ifcVersion`, or null when it has none. */
    method ExchangeRequirementListForUI(ifcVersion: IFCVersion) returns (r: Option<seq<string>>)
      requires Valid()
      modifies this
      ensures Populated()
      ensures r.Some? <==> ifcVersion == IFC2x3CV2 || ifcVersion == IFC4RV
      ensures r.Some? ==> IsLabelList(r.value, ReferenceViewRequirements, ErFullLabel)
    {
      Initialize();
      r := if ifcVersion in knownExchangeRequirementsLocalized
        then Some(knownExchangeRequirementsLocalized[ifcVersion])
        else None;
    }
  }

  /** `ParseEREnum`: the exchange requirement with member name `erName`, NotDefined when none has it. */
  function ParseEREnum(erName: string): (e: KnownERNames)
    ensures e != KnownERNames.NotDefined ==> ErName(e) == erName
    ensures (forall g :: ErName(g) != erName) ==> e == KnownERNames.NotDefined
  {
    match TryParse(erName, AllKnownERNames, ErName)
    case Some(e) => e
    case None => KnownERNames.NotDefined
  }

  /** Every exchange requirement is recovered from its member name. */
  lemma ParseEREnumRoundTrip(e: KnownERNames)
    ensures ParseEREnum(ErName(e)) == e
  {
  }

  /** Every exchange requirement is recovered from its short label, NotDefined from "". */
  lemma ParseEREnumInvertsShortLabel(e: KnownERNames)
    ensures ParseEREnum(ToShortLabel(e)) == e
  {
    if e != KnownERNames.NotDefined {
      ParseEREnumRoundTrip(e);
    }
  }

  /**
   * The UI labels are not member names: only "Architecture" parses back to its requirement; the
   * other two labels in the list fall back to NotDefined.
   */
  lemma ParseEREnumOnUILabels(l: seq<string>)
    requires IsLabelList(l, ReferenceViewRequirements, ErFullLabel)
    ensures ParseEREnum(l[0]) == KnownERNames.Architecture
    ensures ParseEREnum(l[1]) == KnownERNames.NotDefined
    ensures ParseEREnum(l[2]) == KnownERNames.NotDefined
  {
    ParseEREnumRoundTrip(KnownERNames.Architecture);
  }
}
