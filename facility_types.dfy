/**
 * Facility types and their predefined types (IFC4x3): the parsers that turn a UI label back
 * into an enumeration value, the member-name parsers behind `Enum.TryParse`, the check that a
 * predefined-type value belongs to a facility type's own family, and the build-once tables of
 * UI labels.
 */
module IfcFacilityTypes {
  import opened Wrappers
  import opened IfcEnums
  import opened IfcEnumExtensions

  /**
   * The value behind a C# `Enum` reference passed to the predefined-type functions: a bridge
   * type, a marine-facility type, or a value of some other enumeration type.
   */
  datatype PredefinedTypeEnum =
    | BridgeTypeValue(bridge: IFCBridgeType)
    | MarineFacilityTypeValue(marine: IFCMarineFacilityType)
    | OtherEnumValue(enumType: string, ordinal: int)

  /** A facility type owns a predefined-type family only when it is a bridge or a marine facility. */
  predicate HasPredefinedTypes(f: KnownFacilityTypes)
  {
    f == KnownFacilityTypes.Bridge || f == KnownFacilityTypes.MarineFacility
  }

  /** The run-time type of `e` is the predefined-type enumeration of facility type `f`. */
  predicate InFamilyOf(f: KnownFacilityTypes, e: PredefinedTypeEnum)
  {
    || (f == KnownFacilityTypes.Bridge && e.BridgeTypeValue?)
    || (f == KnownFacilityTypes.MarineFacility && e.MarineFacilityTypeValue?)
  }

  /** The UI label of a predefined-type value of either family ("" for any other enumeration). */
  function PredefinedTypeLabel(e: PredefinedTypeEnum): string
  {
    match e
    case BridgeTypeValue(b) => BridgeFullLabel(b)
    case MarineFacilityTypeValue(m) => MarineFacilityFullLabel(m)
    case OtherEnumValue(_, _) => ""
  }

  // ---------------------------------------------------------------------------------------
  // Label parsers (UI string to enumeration value)

  /** `GetFacilityEnum`: the facility type whose UI label is `s`, NotDefined for any other string. */
  function GetFacilityEnum(s: string): (f: KnownFacilityTypes)
    ensures f != KnownFacilityTypes.NotDefined ==> FacilityFullLabel(f) == s
  {
    if s == "Building (IfcBuilding)" then KnownFacilityTypes.Building
    else if s == "Bridge (IfcBridge)" then KnownFacilityTypes.Bridge
    else if s == "Marine Facility (IfcMarineFacility)" then KnownFacilityTypes.MarineFacility
    else if s == "Road (IfcRoad)" then KnownFacilityTypes.Road
    else if s == "Railway (IfcRailway)" then KnownFacilityTypes.Railway
    else KnownFacilityTypes.NotDefined
  }

  /** `GetBridgePredefinedTypeEnum`: NOTDEFINED for any unrecognized string. */
  function GetBridgePredefinedTypeEnum(s: string): (b: IFCBridgeType)
    ensures b != IFCBridgeType.NOTDEFINED ==> BridgeFullLabel(b) == s
  {
    if s == "Arched (ARCHED)" then IFCBridgeType.ARCHED
    else if s == "Cable Stayed (CABLESTAYED)" then IFCBridgeType.CABLE_STAYED
    else if s == "Cantilever (CANTILEVER)" then IFCBridgeType.CANTILEVER
    else if s == "Culvert (CULVERT)" then IFCBridgeType.CULVERT
    else if s == "Framework (FRAMEWORK)" then IFCBridgeType.FRAMEWORK
    else if s == "Girder (GIRDER)" then IFCBridgeType.GIRDER
    else if s == "Suspension (SUSPENSION)" then IFCBridgeType.SUSPENSION
    else if s == "Truss (TRUSS)" then IFCBridgeType.TRUSS
    else if s == "User Defined" then IFCBridgeType.USERDEFINED
    else IFCBridgeType.NOTDEFINED
  }

  /**
   * `GetMarineFacilityPredefinedTypeEnum`: NOTDEFINED for any unrecognized string. The source's
   * single chain of twenty comparisons is written as four consecutive pieces of five, each
   * falling through to the next. The split (`MarineChainFrom5`, `MarineChainFrom10`,
   * `MarineChainFrom15`) is not source structure: it exists only to keep each piece's proof
   * obligation small, and the four pieces together compute exactly the source's chain.
   */
  function GetMarineFacilityPredefinedTypeEnum(s: string): (m: IFCMarineFacilityType)
    ensures m != IFCMarineFacilityType.NOTDEFINED ==> MarineFacilityFullLabel(m) == s
  {
    if s == "Barrier Beach (BARRIERBEACH)" then IFCMarineFacilityType.BARRIERBEACH
    else if s == "Breakwater (BREAKWATER)" then IFCMarineFacilityType.BREAKWATER
    else if s == "Canal (CANAL)" then IFCMarineFacilityType.CANAL
    else if s == "Dry Dock (DRYDOCK)" then IFCMarineFacilityType.DRYDOCK
    else if s == "Floating Dock (FLOATINGDOCK)" then IFCMarineFacilityType.FLOATINGDOCK
    else MarineChainFrom5(s)
  }

  /** The marine chain from its literal number 5 (counting from zero) on. */
  function MarineChainFrom5(s: string): (m: IFCMarineFacilityType)
    ensures m != IFCMarineFacilityType.NOTDEFINED ==> MarineFacilityFullLabel(m) == s
  {
    if s == "Hydrolift (HYDROLIFT)" then IFCMarineFacilityType.HYDROLIFT
    else if s == "Jetty (JETTY)" then IFCMarineFacilityType.JETTY
    else if s == "Launch Recovery Facility (LAUNCHRECOVERYFACILITY)" then IFCMarineFacilityType.LAUNCHRECOVERY
    else if s == "Marine Defense (MARINEDEFENCE)" then IFCMarineFacilityType.MARINEDEFENCE
    else if s == "Navigational Channel (NAVIGATIONALCHANNEL)" then IFCMarineFacilityType.NAVIGATIONALCHANNEL
    else MarineChainFrom10(s)
  }

  /** The marine chain from its literal number 10 (counting from zero) on. */
  function MarineChainFrom10(s: string): (m: IFCMarineFacilityType)
    ensures m != IFCMarineFacilityType.NOTDEFINED ==> MarineFacilityFullLabel(m) == s
  {
    if s == "Port (PORT)" then IFCMarineFacilityType.PORT
    else if s == "Quay (QUAY)" then IFCMarineFacilityType.QUAY
    else if s == "Revetment (REVETMENT)" then IFCMarineFacilityType.REVETMENT
    else if s == "Shiplift (SHIPLIFT)" then IFCMarineFacilityType.SHIPLIFT
    else if s == "Ship Lock (SHIPLOCK)" then IFCMarineFacilityType.SHIPLOCK
    else MarineChainFrom15(s)
  }

  /** The marine chain from its literal number 15 (counting from zero) on. */
  function MarineChainFrom15(s: string): (m: IFCMarineFacilityType)
    ensures m != IFCMarineFacilityType.NOTDEFINED ==> MarineFacilityFullLabel(m) == s
  {
    if s == "Shipyard (SHIPYARD" then IFCMarineFacilityType.SHIPYARD
    else if s == "Slipway (SLIPWAY)" then IFCMarineFacilityType.SLIPWAY
    else if s == "User Defined" then IFCMarineFacilityType.USERDEFINED
    else if s == "Waterway (WATERWAY)" then IFCMarineFacilityType.WATERWAY
    else if s == "Waterway Shiplift (WATERWAYSHIPLIFT)" then IFCMarineFacilityType.WATERWAYSHIPLIFT
    else IFCMarineFacilityType.NOTDEFINED
  }

  /**
   * `GetFacilityPredefinedTypeEnum`: parse with the parser of the facility's family; null for
   * other facilities. A member other than NOTDEFINED is returned only for its own label, so any
   * other string gives the family's NOTDEFINED.
   */
  function GetFacilityPredefinedTypeEnum(f: KnownFacilityTypes, s: string): (r: Option<PredefinedTypeEnum>)
    ensures r.None? <==> !HasPredefinedTypes(f)
    ensures r.Some? ==> InFamilyOf(f, r.value)
    ensures r.Some? && r.value.BridgeTypeValue? && r.value.bridge != IFCBridgeType.NOTDEFINED ==>
      BridgeFullLabel(r.value.bridge) == s
    ensures r.Some? && r.value.MarineFacilityTypeValue? && r.value.marine != IFCMarineFacilityType.NOTDEFINED ==>
      MarineFacilityFullLabel(r.value.marine) == s
  {
    match f
    case Bridge => Some(BridgeTypeValue(GetBridgePredefinedTypeEnum(s)))
    case MarineFacility => Some(MarineFacilityTypeValue(GetMarineFacilityPredefinedTypeEnum(s)))
    case _ => None
  }

  // ---------------------------------------------------------------------------------------
  // Member-name parsers (`Enum.TryParse`)

  /** `ParseFacilityTypeEnum`: the facility type with member name `name`, NotDefined when none has it. */
  function ParseFacilityTypeEnum(name: string): (f: KnownFacilityTypes)
    ensures f != KnownFacilityTypes.NotDefined ==> FacilityName(f) == name
  {
    match TryParse(name, AllKnownFacilityTypes, FacilityName)
    case Some(f) => f
    case None => KnownFacilityTypes.NotDefined
  }

  /**
   * `ParseFacilityPredefinedTypeEnum`: the predefined type of the facility's family with member
   * name `name`; null when the name is not a member or the facility owns no predefined types.
   */
  function ParseFacilityPredefinedTypeEnum(f: KnownFacilityTypes, name: string): (r: Option<PredefinedTypeEnum>)
    ensures !HasPredefinedTypes(f) ==> r.None?
    ensures r.Some? ==> InFamilyOf(f, r.value)
    ensures r.Some? && r.value.BridgeTypeValue? ==> BridgeTypeName(r.value.bridge) == name
    ensures r.Some? && r.value.MarineFacilityTypeValue? ==> MarineFacilityTypeName(r.value.marine) == name
    ensures f == KnownFacilityTypes.Bridge && (exists b :: b in AllBridgeTypes && BridgeTypeName(b) == name) ==> r.Some?
    ensures f == KnownFacilityTypes.MarineFacility && (exists m :: m in AllMarineFacilityTypes && MarineFacilityTypeName(m) == name) ==> r.Some?
  {
    match f
    case Bridge =>
      (match TryParse(name, AllBridgeTypes, BridgeTypeName)
       case Some(b) => Some(BridgeTypeValue(b))
       case None => None)
    case MarineFacility =>
      (match TryParse(name, AllMarineFacilityTypes, MarineFacilityTypeName)
       case Some(m) => Some(MarineFacilityTypeValue(m))
       case None => None)
    case _ => None
  }

  // ---------------------------------------------------------------------------------------
  // Validation and labels of predefined types

  /**
   * `ValidatedPredefinedTypeEnum`: null stays null; otherwise the value is kept only when its
   * enumeration type is the predefined-type family of `f`.
   */
  function ValidatedPredefinedTypeEnum(f: KnownFacilityTypes, e: Option<PredefinedTypeEnum>): (r: Option<PredefinedTypeEnum>)
    ensures e.None? ==> r.None?
    ensures r.Some? <==> e.Some? && InFamilyOf(f, e.value)
    ensures r.Some? ==> r == e
  {
    if e.None? then None
    else
      match f
      case Bridge => if e.value.BridgeTypeValue? then e else None
      case MarineFacility => if e.value.MarineFacilityTypeValue? then e else None
      case _ => None
  }

  /** `ToFullLabel(facilityType, facility)`: null exactly when validation fails, else the family label. */
  function ToFullLabel(f: KnownFacilityTypes, e: Option<PredefinedTypeEnum>): (r: Option<string>)
    ensures r.None? <==> ValidatedPredefinedTypeEnum(f, e).None?
    ensures r.Some? ==> r.value == PredefinedTypeLabel(e.value)
  {
    var validated := ValidatedPredefinedTypeEnum(f, e);
    if validated.None? then None
    else
      match f
      case Bridge => Some(BridgeFullLabel(validated.value.bridge))
      case MarineFacility => Some(MarineFacilityFullLabel(validated.value.marine))
      case _ => None
  }

  // ---------------------------------------------------------------------------------------
  // Round trips between the label tables and the label parsers

  /** Every facility type except NotDefined is recovered from its UI label. */
  lemma FacilityLabelRoundTrip(f: KnownFacilityTypes)
    requires f != KnownFacilityTypes.NotDefined
    ensures GetFacilityEnum(FacilityFullLabel(f)) == f
  {
  }

  /** `GetFacilityEnum` recognizes exactly the UI labels of the five real facility types. */
  lemma GetFacilityEnumRecognizesIff(s: string)
    ensures GetFacilityEnum(s) != KnownFacilityTypes.NotDefined
      <==> exists f :: f != KnownFacilityTypes.NotDefined && FacilityFullLabel(f) == s
  {
    if f :| f != KnownFacilityTypes.NotDefined && FacilityFullLabel(f) == s {
      FacilityLabelRoundTrip(f);
    }
  }

  /** Every bridge type, NOTDEFINED included, is recovered from its UI label. */
  lemma BridgeLabelRoundTrip(b: IFCBridgeType)
    ensures GetBridgePredefinedTypeEnum(BridgeFullLabel(b)) == b
  {
  }

  // The round trip for the marine chain needs each label to differ from every literal the
  // chain tests before it. Those disequalities are proved a few positions at a time, apart from
  // the chain, and the round trip then only evaluates the chain. MarineChainLiteralsDistinct0-10
  // and MarineLabelParsesBack0-2 exist only to keep the solver's work per obligation small; they
  // state nothing the source structures this way.

  /** Chain positions 0-6 (BARRIERBEACH to JETTY): each label differs from the earlier literals. */
  lemma MarineChainLiteralsDistinct0()
    ensures "Breakwater (BREAKWATER)" != "Barrier Beach (BARRIERBEACH)"
    ensures "Canal (CANAL)" != "Barrier Beach (BARRIERBEACH)"
    ensures "Canal (CANAL)" != "Breakwater (BREAKWATER)"
    ensures "Dry Dock (DRYDOCK)" != "Barrier Beach (BARRIERBEACH)"
    ensures "Dry Dock (DRYDOCK)" != "Breakwater (BREAKWATER)"
    ensures "Dry Dock (DRYDOCK)" != "Canal (CANAL)"
    ensures "Floating Dock (FLOATINGDOCK)" != "Barrier Beach (BARRIERBEACH)"
    ensures "Floating Dock (FLOATINGDOCK)" != "Breakwater (BREAKWATER)"
    ensures "Floating Dock (FLOATINGDOCK)" != "Canal (CANAL)"
    ensures "Floating Dock (FLOATINGDOCK)" != "Dry Dock (DRYDOCK)"
    ensures "Hydrolift (HYDROLIFT)" != "Barrier Beach (BARRIERBEACH)"
    ensures "Hydrolift (HYDROLIFT)" != "Breakwater (BREAKWATER)"
    ensures "Hydrolift (HYDROLIFT)" != "Canal (CANAL)"
    ensures "Hydrolift (HYDROLIFT)" != "Dry Dock (DRYDOCK)"
    ensures "Hydrolift (HYDROLIFT)" != "Floating Dock (FLOATINGDOCK)"
    ensures "Jetty (JETTY)" != "Barrier Beach (BARRIERBEACH)"
    ensures "Jetty (JETTY)" != "Breakwater (BREAKWATER)"
    ensures "Jetty (JETTY)" != "Canal (CANAL)"
    ensures "Jetty (JETTY)" != "Dry Dock (DRYDOCK)"
    ensures "Jetty (JETTY)" != "Floating Dock (FLOATINGDOCK)"
    ensures "Jetty (JETTY)" != "Hydrolift (HYDROLIFT)"
  {
  }

  /** Chain positions 7-9 (LAUNCHRECOVERY to NAVIGATIONALCHANNEL): each label differs from the earlier literals. */
  lemma MarineChainLiteralsDistinct1()
    ensures "Launch Recovery Facility (LAUNCHRECOVERYFACILITY)" != "Barrier Beach (BARRIERBEACH)"
    ensures "Launch Recovery Facility (LAUNCHRECOVERYFACILITY)" != "Breakwater (BREAKWATER)"
    ensures "Launch Recovery Facility (LAUNCHRECOVERYFACILITY)" != "Canal (CANAL)"
    ensures "Launch Recovery Facility (LAUNCHRECOVERYFACILITY)" != "Dry Dock (DRYDOCK)"
    ensures "Launch Recovery Facility (LAUNCHRECOVERYFACILITY)" != "Floating Dock (FLOATINGDOCK)"
    ensures "Launch Recovery Facility (LAUNCHRECOVERYFACILITY)" != "Hydrolift (HYDROLIFT)"
    ensures "Launch Recovery Facility (LAUNCHRECOVERYFACILITY)" != "Jetty (JETTY)"
    ensures "Marine Defense (MARINEDEFENCE)" != "Barrier Beach (BARRIERBEACH)"
    ensures "Marine Defense (MARINEDEFENCE)" != "Breakwater (BREAKWATER)"
    ensures "Marine Defense (MARINEDEFENCE)" != "Canal (CANAL)"
    ensures "Marine Defense (MARINEDEFENCE)" != "Dry Dock (DRYDOCK)"
    ensures "Marine Defense (MARINEDEFENCE)" != "Floating Dock (FLOATINGDOCK)"
    ensures "Marine Defense (MARINEDEFENCE)" != "Hydrolift (HYDROLIFT)"
    ensures "Marine Defense (MARINEDEFENCE)" != "Jetty (JETTY)"
    ensures "Marine Defense (MARINEDEFENCE)" != "Launch Recovery Facility (LAUNCHRECOVERYFACILITY)"
    ensures "Navigational Channel (NAVIGATIONALCHANNEL)" != "Barrier Beach (BARRIERBEACH)"
    ensures "Navigational Channel (NAVIGATIONALCHANNEL)" != "Breakwater (BREAKWATER)"
    ensures "Navigational Channel (NAVIGATIONALCHANNEL)" != "Canal (CANAL)"
    ensures "Navigational Channel (NAVIGATIONALCHANNEL)" != "Dry Dock (DRYDOCK)"
    ensures "Navigational Channel (NAVIGATIONALCHANNEL)" != "Floating Dock (FLOATINGDOCK)"
    ensures "Navigational Channel (NAVIGATIONALCHANNEL)" != "Hydrolift (HYDROLIFT)"
    ensures "Navigational Channel (NAVIGATIONALCHANNEL)" != "Jetty (JETTY)"
    ensures "Navigational Channel (NAVIGATIONALCHANNEL)" != "Launch Recovery Facility (LAUNCHRECOVERYFACILITY)"
    ensures "Navigational Channel (NAVIGATIONALCHANNEL)" != "Marine Defense (MARINEDEFENCE)"
  {
  }

  /** Chain positions 10-11 (PORT to QUAY): each label differs from the earlier literals. */
  lemma MarineChainLiteralsDistinct2()
    ensures "Port (PORT)" != "Barrier Beach (BARRIERBEACH)"
    ensures "Port (PORT)" != "Breakwater (BREAKWATER)"
    ensures "Port (PORT)" != "Canal (CANAL)"
    ensures "Port (PORT)" != "Dry Dock (DRYDOCK)"
    ensures "Port (PORT)" != "Floating Dock (FLOATINGDOCK)"
    ensures "Port (PORT)" != "Hydrolift (HYDROLIFT)"
    ensures "Port (PORT)" != "Jetty (JETTY)"
    ensures "Port (PORT)" != "Launch Recovery Facility (LAUNCHRECOVERYFACILITY)"
    ensures "Port (PORT)" != "Marine Defense (MARINEDEFENCE)"
    ensures "Port (PORT)" != "Navigational Channel (NAVIGATIONALCHANNEL)"
    ensures "Quay (QUAY)" != "Barrier Beach (BARRIERBEACH)"
    ensures "Quay (QUAY)" != "Breakwater (BREAKWATER)"
    ensures "Quay (QUAY)" != "Canal (CANAL)"
    ensures "Quay (QUAY)" != "Dry Dock (DRYDOCK)"
    ensures "Quay (QUAY)" != "Floating Dock (FLOATINGDOCK)"
    ensures "Quay (QUAY)" != "Hydrolift (HYDROLIFT)"
    ensures "Quay (QUAY)" != "Jetty (JETTY)"
    ensures "Quay (QUAY)" != "Launch Recovery Facility (LAUNCHRECOVERYFACILITY)"
    ensures "Quay (QUAY)" != "Marine Defense (MARINEDEFENCE)"
    ensures "Quay (QUAY)" != "Navigational Channel (NAVIGATIONALCHANNEL)"
    ensures "Quay (QUAY)" != "Port (PORT)"
  {
  }

  /** Chain positions 12-13 (REVETMENT to SHIPLIFT): each label differs from the earlier literals. */
  lemma MarineChainLiteralsDistinct3()
    ensures "Revetment (REVETMENT)" != "Barrier Beach (BARRIERBEACH)"
    ensures "Revetment (REVETMENT)" != "Breakwater (BREAKWATER)"
    ensures "Revetment (REVETMENT)" != "Canal (CANAL)"
    ensures "Revetment (REVETMENT)" != "Dry Dock (DRYDOCK)"
    ensures "Revetment (REVETMENT)" != "Floating Dock (FLOATINGDOCK)"
    ensures "Revetment (REVETMENT)" != "Hydrolift (HYDROLIFT)"
    ensures "Revetment (REVETMENT)" != "Jetty (JETTY)"
    ensures "Revetment (REVETMENT)" != "Launch Recovery Facility (LAUNCHRECOVERYFACILITY)"
    ensures "Revetment (REVETMENT)" != "Marine Defense (MARINEDEFENCE)"
    ensures "Revetment (REVETMENT)" != "Navigational Channel (NAVIGATIONALCHANNEL)"
    ensures "Revetment (REVETMENT)" != "Port (PORT)"
    ensures "Revetment (REVETMENT)" != "Quay (QUAY)"
    ensures "Shiplift (SHIPLIFT)" != "Barrier Beach (BARRIERBEACH)"
    ensures "Shiplift (SHIPLIFT)" != "Breakwater (BREAKWATER)"
    ensures "Shiplift (SHIPLIFT)" != "Canal (CANAL)"
    ensures "Shiplift (SHIPLIFT)" != "Dry Dock (DRYDOCK)"
    ensures "Shiplift (SHIPLIFT)" != "Floating Dock (FLOATINGDOCK)"
    ensures "Shiplift (SHIPLIFT)" != "Hydrolift (HYDROLIFT)"
    ensures "Shiplift (SHIPLIFT)" != "Jetty (JETTY)"
    ensures "Shiplift (SHIPLIFT)" != "Launch Recovery Facility (LAUNCHRECOVERYFACILITY)"
    ensures "Shiplift (SHIPLIFT)" != "Marine Defense (MARINEDEFENCE)"
    ensures "Shiplift (SHIPLIFT)" != "Navigational Channel (NAVIGATIONALCHANNEL)"
    ensures "Shiplift (SHIPLIFT)" != "Port (PORT)"
    ensures "Shiplift (SHIPLIFT)" != "Quay (QUAY)"
    ensures "Shiplift (SHIPLIFT)" != "Revetment (REVETMENT)"
  {
  }

  /** Chain positions 14-14 (SHIPLOCK to SHIPLOCK): each label differs from the earlier literals. */
  lemma MarineChainLiteralsDistinct4()
    ensures "Ship Lock (SHIPLOCK)" != "Barrier Beach (BARRIERBEACH)"
    ensures "Ship Lock (SHIPLOCK)" != "Breakwater (BREAKWATER)"
    ensures "Ship Lock (SHIPLOCK)" != "Canal (CANAL)"
    ensures "Ship Lock (SHIPLOCK)" != "Dry Dock (DRYDOCK)"
    ensures "Ship Lock (SHIPLOCK)" != "Floating Dock (FLOATINGDOCK)"
    ensures "Ship Lock (SHIPLOCK)" != "Hydrolift (HYDROLIFT)"
    ensures "Ship Lock (SHIPLOCK)" != "Jetty (JETTY)"
    ensures "Ship Lock (SHIPLOCK)" != "Launch Recovery Facility (LAUNCHRECOVERYFACILITY)"
    ensures "Ship Lock (SHIPLOCK)" != "Marine Defense (MARINEDEFENCE)"
    ensures "Ship Lock (SHIPLOCK)" != "Navigational Channel (NAVIGATIONALCHANNEL)"
    ensures "Ship Lock (SHIPLOCK)" != "Port (PORT)"
    ensures "Ship Lock (SHIPLOCK)" != "Quay (QUAY)"
    ensures "Ship Lock (SHIPLOCK)" != "Revetment (REVETMENT)"
    ensures "Ship Lock (SHIPLOCK)" != "Shiplift (SHIPLIFT)"
  {
  }

  /** Chain positions 15-15 (SHIPYARD to SHIPYARD): each label differs from the earlier literals. */
  lemma MarineChainLiteralsDistinct5()
    ensures "Shipyard (SHIPYARD" != "Barrier Beach (BARRIERBEACH)"
    ensures "Shipyard (SHIPYARD" != "Breakwater (BREAKWATER)"
    ensures "Shipyard (SHIPYARD" != "Canal (CANAL)"
    ensures "Shipyard (SHIPYARD" != "Dry Dock (DRYDOCK)"
    ensures "Shipyard (SHIPYARD" != "Floating Dock (FLOATINGDOCK)"
    ensures "Shipyard (SHIPYARD" != "Hydrolift (HYDROLIFT)"
    ensures "Shipyard (SHIPYARD" != "Jetty (JETTY)"
    ensures "Shipyard (SHIPYARD" != "Launch Recovery Facility (LAUNCHRECOVERYFACILITY)"
    ensures "Shipyard (SHIPYARD" != "Marine Defense (MARINEDEFENCE)"
    ensures "Shipyard (SHIPYARD" != "Navigational Channel (NAVIGATIONALCHANNEL)"
    ensures "Shipyard (SHIPYARD" != "Port (PORT)"
    ensures "Shipyard (SHIPYARD" != "Quay (QUAY)"
    ensures "Shipyard (SHIPYARD" != "Revetment (REVETMENT)"
    ensures "Shipyard (SHIPYARD" != "Shiplift (SHIPLIFT)"
    ensures "Shipyard (SHIPYARD" != "Ship Lock (SHIPLOCK)"
  {
  }

  /** Chain positions 16-16 (SLIPWAY to SLIPWAY): each label differs from the earlier literals. */
  lemma MarineChainLiteralsDistinct6()
    ensures "Slipway (SLIPWAY)" != "Barrier Beach (BARRIERBEACH)"
    ensures "Slipway (SLIPWAY)" != "Breakwater (BREAKWATER)"
    ensures "Slipway (SLIPWAY)" != "Canal (CANAL)"
    ensures "Slipway (SLIPWAY)" != "Dry Dock (DRYDOCK)"
    ensures "Slipway (SLIPWAY)" != "Floating Dock (FLOATINGDOCK)"
    ensures "Slipway (SLIPWAY)" != "Hydrolift (HYDROLIFT)"
    ensures "Slipway (SLIPWAY)" != "Jetty (JETTY)"
    ensures "Slipway (SLIPWAY)" != "Launch Recovery Facility (LAUNCHRECOVERYFACILITY)"
    ensures "Slipway (SLIPWAY)" != "Marine Defense (MARINEDEFENCE)"
    ensures "Slipway (SLIPWAY)" != "Navigational Channel (NAVIGATIONALCHANNEL)"
    ensures "Slipway (SLIPWAY)" != "Port (PORT)"
    ensures "Slipway (SLIPWAY)" != "Quay (QUAY)"
    ensures "Slipway (SLIPWAY)" != "Revetment (REVETMENT)"
    ensures "Slipway (SLIPWAY)" != "Shiplift (SHIPLIFT)"
    ensures "Slipway (SLIPWAY)" != "Ship Lock (SHIPLOCK)"
    ensures "Slipway (SLIPWAY)" != "Shipyard (SHIPYARD"
  {
  }

  /** Chain positions 17-17 (USERDEFINED to USERDEFINED): each label differs from the earlier literals. */
  lemma MarineChainLiteralsDistinct7()
    ensures "User Defined" != "Barrier Beach (BARRIERBEACH)"
    ensures "User Defined" != "Breakwater (BREAKWATER)"
    ensures "User Defined" != "Canal (CANAL)"
    ensures "User Defined" != "Dry Dock (DRYDOCK)"
    ensures "User Defined" != "Floating Dock (FLOATINGDOCK)"
    ensures "User Defined" != "Hydrolift (HYDROLIFT)"
    ensures "User Defined" != "Jetty (JETTY)"
    ensures "User Defined" != "Launch Recovery Facility (LAUNCHRECOVERYFACILITY)"
    ensures "User Defined" != "Marine Defense (MARINEDEFENCE)"
    ensures "User Defined" != "Navigational Channel (NAVIGATIONALCHANNEL)"
    ensures "User Defined" != "Port (PORT)"
    ensures "User Defined" != "Quay (QUAY)"
    ensures "User Defined" != "Revetment (REVETMENT)"
    ensures "User Defined" != "Shiplift (SHIPLIFT)"
    ensures "User Defined" != "Ship Lock (SHIPLOCK)"
    ensures "User Defined" != "Shipyard (SHIPYARD"
    ensures "User Defined" != "Slipway (SLIPWAY)"
  {
  }

  /** Chain positions 18-18 (WATERWAY to WATERWAY): each label differs from the earlier literals. */
  lemma MarineChainLiteralsDistinct8()
    ensures "Waterway (WATERWAY)" != "Barrier Beach (BARRIERBEACH)"
    ensures "Waterway (WATERWAY)" != "Breakwater (BREAKWATER)"
    ensures "Waterway (WATERWAY)" != "Canal (CANAL)"
    ensures "Waterway (WATERWAY)" != "Dry Dock (DRYDOCK)"
    ensures "Waterway (WATERWAY)" != "Floating Dock (FLOATINGDOCK)"
    ensures "Waterway (WATERWAY)" != "Hydrolift (HYDROLIFT)"
    ensures "Waterway (WATERWAY)" != "Jetty (JETTY)"
    ensures "Waterway (WATERWAY)" != "Launch Recovery Facility (LAUNCHRECOVERYFACILITY)"
    ensures "Waterway (WATERWAY)" != "Marine Defense (MARINEDEFENCE)"
    ensures "Waterway (WATERWAY)" != "Navigational Channel (NAVIGATIONALCHANNEL)"
    ensures "Waterway (WATERWAY)" != "Port (PORT)"
    ensures "Waterway (WATERWAY)" != "Quay (QUAY)"
    ensures "Waterway (WATERWAY)" != "Revetment (REVETMENT)"
    ensures "Waterway (WATERWAY)" != "Shiplift (SHIPLIFT)"
    ensures "Waterway (WATERWAY)" != "Ship Lock (SHIPLOCK)"
    ensures "Waterway (WATERWAY)" != "Shipyard (SHIPYARD"
    ensures "Waterway (WATERWAY)" != "Slipway (SLIPWAY)"
    ensures "Waterway (WATERWAY)" != "User Defined"
  {
  }

  /** Chain positions 19-19 (WATERWAYSHIPLIFT to WATERWAYSHIPLIFT): each label differs from the earlier literals. */
  lemma MarineChainLiteralsDistinct9()
    ensures "Waterway Shiplift (WATERWAYSHIPLIFT)" != "Barrier Beach (BARRIERBEACH)"
    ensures "Waterway Shiplift (WATERWAYSHIPLIFT)" != "Breakwater (BREAKWATER)"
    ensures "Waterway Shiplift (WATERWAYSHIPLIFT)" != "Canal (CANAL)"
    ensures "Waterway Shiplift (WATERWAYSHIPLIFT)" != "Dry Dock (DRYDOCK)"
    ensures "Waterway Shiplift (WATERWAYSHIPLIFT)" != "Floating Dock (FLOATINGDOCK)"
    ensures "Waterway Shiplift (WATERWAYSHIPLIFT)" != "Hydrolift (HYDROLIFT)"
    ensures "Waterway Shiplift (WATERWAYSHIPLIFT)" != "Jetty (JETTY)"
    ensures "Waterway Shiplift (WATERWAYSHIPLIFT)" != "Launch Recovery Facility (LAUNCHRECOVERYFACILITY)"
    ensures "Waterway Shiplift (WATERWAYSHIPLIFT)" != "Marine Defense (MARINEDEFENCE)"
    ensures "Waterway Shiplift (WATERWAYSHIPLIFT)" != "Navigational Channel (NAVIGATIONALCHANNEL)"
    ensures "Waterway Shiplift (WATERWAYSHIPLIFT)" != "Port (PORT)"
    ensures "Waterway Shiplift (WATERWAYSHIPLIFT)" != "Quay (QUAY)"
    ensures "Waterway Shiplift (WATERWAYSHIPLIFT)" != "Revetment (REVETMENT)"
    ensures "Waterway Shiplift (WATERWAYSHIPLIFT)" != "Shiplift (SHIPLIFT)"
    ensures "Waterway Shiplift (WATERWAYSHIPLIFT)" != "Ship Lock (SHIPLOCK)"
    ensures "Waterway Shiplift (WATERWAYSHIPLIFT)" != "Shipyard (SHIPYARD"
    ensures "Waterway Shiplift (WATERWAYSHIPLIFT)" != "Slipway (SLIPWAY)"
    ensures "Waterway Shiplift (WATERWAYSHIPLIFT)" != "User Defined"
    ensures "Waterway Shiplift (WATERWAYSHIPLIFT)" != "Waterway (WATERWAY)"
  {
  }

  /** Chain positions 20-20 (NOTDEFINED to NOTDEFINED): each label differs from the earlier literals. */
  lemma MarineChainLiteralsDistinct10()
    ensures "Not Defined" != "Barrier Beach (BARRIERBEACH)"
    ensures "Not Defined" != "Breakwater (BREAKWATER)"
    ensures "Not Defined" != "Canal (CANAL)"
    ensures "Not Defined" != "Dry Dock (DRYDOCK)"
    ensures "Not Defined" != "Floating Dock (FLOATINGDOCK)"
    ensures "Not Defined" != "Hydrolift (HYDROLIFT)"
    ensures "Not Defined" != "Jetty (JETTY)"
    ensures "Not Defined" != "Launch Recovery Facility (LAUNCHRECOVERYFACILITY)"
    ensures "Not Defined" != "Marine Defense (MARINEDEFENCE)"
    ensures "Not Defined" != "Navigational Channel (NAVIGATIONALCHANNEL)"
    ensures "Not Defined" != "Port (PORT)"
    ensures "Not Defined" != "Quay (QUAY)"
    ensures "Not Defined" != "Revetment (REVETMENT)"
    ensures "Not Defined" != "Shiplift (SHIPLIFT)"
    ensures "Not Defined" != "Ship Lock (SHIPLOCK)"
    ensures "Not Defined" != "Shipyard (SHIPYARD"
    ensures "Not Defined" != "Slipway (SLIPWAY)"
    ensures "Not Defined" != "User Defined"
    ensures "Not Defined" != "Waterway (WATERWAY)"
    ensures "Not Defined" != "Waterway Shiplift (WATERWAYSHIPLIFT)"
  {
  }

  /** The round trip for the members at chain positions 0-6. */
  lemma MarineLabelParsesBack0(m: IFCMarineFacilityType)
    requires m == IFCMarineFacilityType.BARRIERBEACH || m == IFCMarineFacilityType.BREAKWATER || m == IFCMarineFacilityType.CANAL || m == IFCMarineFacilityType.DRYDOCK || m == IFCMarineFacilityType.FLOATINGDOCK || m == IFCMarineFacilityType.HYDROLIFT || m == IFCMarineFacilityType.JETTY
    ensures GetMarineFacilityPredefinedTypeEnum(MarineFacilityFullLabel(m)) == m
  {
    MarineChainLiteralsDistinct0();
  }

  /** The round trip for the members at chain positions 7-13. */
  lemma MarineLabelParsesBack1(m: IFCMarineFacilityType)
    requires m == IFCMarineFacilityType.LAUNCHRECOVERY || m == IFCMarineFacilityType.MARINEDEFENCE || m == IFCMarineFacilityType.NAVIGATIONALCHANNEL || m == IFCMarineFacilityType.PORT || m == IFCMarineFacilityType.QUAY || m == IFCMarineFacilityType.REVETMENT || m == IFCMarineFacilityType.SHIPLIFT
    ensures GetMarineFacilityPredefinedTypeEnum(MarineFacilityFullLabel(m)) == m
  {
    MarineChainLiteralsDistinct1();
    MarineChainLiteralsDistinct2();
    MarineChainLiteralsDistinct3();
  }

  /** The round trip for the members at chain positions 14-20. */
  lemma MarineLabelParsesBack2(m: IFCMarineFacilityType)
    requires m == IFCMarineFacilityType.SHIPLOCK || m == IFCMarineFacilityType.SHIPYARD || m == IFCMarineFacilityType.SLIPWAY || m == IFCMarineFacilityType.USERDEFINED || m == IFCMarineFacilityType.WATERWAY || m == IFCMarineFacilityType.WATERWAYSHIPLIFT || m == IFCMarineFacilityType.NOTDEFINED
    ensures GetMarineFacilityPredefinedTypeEnum(MarineFacilityFullLabel(m)) == m
  {
    MarineChainLiteralsDistinct4();
    MarineChainLiteralsDistinct5();
    MarineChainLiteralsDistinct6();
    MarineChainLiteralsDistinct7();
    MarineChainLiteralsDistinct8();
    MarineChainLiteralsDistinct9();
    MarineChainLiteralsDistinct10();
  }

  /** Every marine-facility type, NOTDEFINED included, is recovered from its UI label. */
  lemma MarineFacilityLabelRoundTrip(m: IFCMarineFacilityType)
    ensures GetMarineFacilityPredefinedTypeEnum(MarineFacilityFullLabel(m)) == m
  {
    if m == IFCMarineFacilityType.BARRIERBEACH || m == IFCMarineFacilityType.BREAKWATER || m == IFCMarineFacilityType.CANAL || m == IFCMarineFacilityType.DRYDOCK || m == IFCMarineFacilityType.FLOATINGDOCK || m == IFCMarineFacilityType.HYDROLIFT || m == IFCMarineFacilityType.JETTY {
      MarineLabelParsesBack0(m);
    } else if m == IFCMarineFacilityType.LAUNCHRECOVERY || m == IFCMarineFacilityType.MARINEDEFENCE || m == IFCMarineFacilityType.NAVIGATIONALCHANNEL || m == IFCMarineFacilityType.PORT || m == IFCMarineFacilityType.QUAY || m == IFCMarineFacilityType.REVETMENT || m == IFCMarineFacilityType.SHIPLIFT {
      MarineLabelParsesBack1(m);
    } else {
      MarineLabelParsesBack2(m);
    }
  }

  /** Distinct marine-facility types have distinct UI labels. */
  lemma MarineFacilityLabelsDistinct(m: IFCMarineFacilityType, n: IFCMarineFacilityType)
    requires m != n
    ensures MarineFacilityFullLabel(m) != MarineFacilityFullLabel(n)
  {
    MarineFacilityLabelRoundTrip(m);
    MarineFacilityLabelRoundTrip(n);
  }

  /** A valid predefined type is recovered by `GetFacilityPredefinedTypeEnum` from its `ToFullLabel`. */
  lemma PredefinedTypeLabelRoundTrip(f: KnownFacilityTypes, e: PredefinedTypeEnum)
    requires InFamilyOf(f, e)
    ensures ToFullLabel(f, Some(e)).Some?
    ensures GetFacilityPredefinedTypeEnum(f, ToFullLabel(f, Some(e)).value) == Some(e)
  {
    if e.BridgeTypeValue? {
      BridgeLabelRoundTrip(e.bridge);
    } else {
      MarineFacilityLabelRoundTrip(e.marine);
    }
  }

  /** Every facility type, NotDefined included, is recovered from its member name. */
  lemma ParseFacilityTypeEnumRoundTrip(f: KnownFacilityTypes)
    ensures ParseFacilityTypeEnum(FacilityName(f)) == f
  {
  }

  /** Every bridge type is recovered from its member name. */
  lemma ParseBridgePredefinedTypeRoundTrip(b: IFCBridgeType)
    ensures ParseFacilityPredefinedTypeEnum(KnownFacilityTypes.Bridge, BridgeTypeName(b)) == Some(BridgeTypeValue(b))
  {
  }

  // ---------------------------------------------------------------------------------------
  // The static tables

  /** The facility types offered for IFC4x3, in the order the table lists them. */
  const Ifc4x3FacilityTypes: seq<KnownFacilityTypes> :=
    [KnownFacilityTypes.Bridge, KnownFacilityTypes.Building, KnownFacilityTypes.MarineFacility,
     KnownFacilityTypes.Railway, KnownFacilityTypes.Road]

  /** A `foreach` over the members `xs` of an enumeration, appending each member's label to a new list. */
  method CollectLabels<T>(xs: seq<T>, labelOf: T -> string) returns (labels: seq<string>)
    ensures IsLabelList(labels, xs, labelOf)
  {
    labels := [];
    var i := 0;
    while i < |xs|
      invariant 0 <= i <= |xs|
      invariant IsLabelList(labels, xs[..i], labelOf)
    {
      labels := labels + [labelOf(xs[i])];
      i := i + 1;
    }
    assert xs[..i] == xs;
  }

  /**
   * The three static dictionaries of `IFCFacilityTypes`, filled lazily by `Initialize` on first
   * use by any of the accessors.
   */
  class FacilityTypeTables {
    var knownFacilityTypesByVersion: map<IFCVersion, seq<KnownFacilityTypes>>
    var knownFacilityTypesLocalized: map<IFCVersion, seq<string>>
    var knownFacilityPredefinedTypesLocalized: map<KnownFacilityTypes, seq<string>>

    /** The tables as `Initialize` leaves them. */
    predicate Populated()
      reads this
    {
      && knownFacilityTypesByVersion == map[IFC4x3 := Ifc4x3FacilityTypes]
      && knownFacilityTypesLocalized.Keys == {IFC4x3}
      && IsLabelList(knownFacilityTypesLocalized[IFC4x3], Ifc4x3FacilityTypes, FacilityFullLabel)
      && knownFacilityPredefinedTypesLocalized.Keys == {KnownFacilityTypes.Bridge, KnownFacilityTypes.MarineFacility}
      && IsLabelList(knownFacilityPredefinedTypesLocalized[KnownFacilityTypes.Bridge], AllBridgeTypes, BridgeFullLabel)
      && IsLabelList(knownFacilityPredefinedTypesLocalized[KnownFacilityTypes.MarineFacility],
                     AllMarineFacilityTypes, MarineFacilityFullLabel)
    }

    /** Either nothing has been loaded yet or everything has. */
    predicate Valid()
      reads this
    {
      || (knownFacilityTypesByVersion == map[] && knownFacilityTypesLocalized == map[]
          && knownFacilityPredefinedTypesLocalized == map[])
      || Populated()
    }

    constructor ()
      ensures Valid() && knownFacilityTypesByVersion == map[]
    {
      knownFacilityTypesByVersion := map[];
      knownFacilityTypesLocalized := map[];
      knownFacilityPredefinedTypesLocalized := map[];
    }

    /** Fill the tables once; a second call leaves them as they are. */
    method Initialize()
      requires Valid()
      modifies this
      ensures Populated()
      ensures old(Populated()) ==> unchanged(this)
    {
      if knownFacilityTypesByVersion != map[] {
        return;
      }
      knownFacilityTypesByVersion := knownFacilityTypesByVersion[IFC4x3 := Ifc4x3FacilityTypes];
      var types := knownFacilityTypesByVersion[IFC4x3];
      knownFacilityTypesLocalized :=
        knownFacilityTypesLocalized[IFC4x3 := seq(|types|, k requires 0 <= k < |types| => FacilityFullLabel(types[k]))];

      var bridgeLabels := CollectLabels(AllBridgeTypes, BridgeFullLabel);
      knownFacilityPredefinedTypesLocalized :=
        knownFacilityPredefinedTypesLocalized[KnownFacilityTypes.Bridge := bridgeLabels];
      var marineLabels := CollectLabels(AllMarineFacilityTypes, MarineFacilityFullLabel);
      knownFacilityPredefinedTypesLocalized :=
        knownFacilityPredefinedTypesLocalized[KnownFacilityTypes.MarineFacility := marineLabels];
    }

    /** `FacilityTypes`: the version-to-facility-types table, loaded first if need be. */
    method FacilityTypes() returns (r: map<IFCVersion, seq<KnownFacilityTypes>>)
      requires Valid()
      modifies this
      ensures Populated()
      ensures r == map[IFC4x3 := Ifc4x3FacilityTypes]
    {
      Initialize();
      r := knownFacilityTypesByVersion;
    }

    /** `FacilityTypesForUI`: the UI labels for `ifcVersion`, or null when the version has none. */
    method FacilityTypesForUI(ifcVersion: IFCVersion) returns (r: Option<seq<string>>)
      requires Valid()
      modifies this
      ensures Populated()
      ensures r.Some? <==> ifcVersion == IFC4x3
      ensures r.Some? ==> IsLabelList(r.value, Ifc4x3FacilityTypes, FacilityFullLabel)
    {
      Initialize();
      r := if ifcVersion in knownFacilityTypesLocalized then Some(knownFacilityTypesLocalized[ifcVersion]) else None;
    }

    /** `FacilityPredefinedTypesForUI`: the UI labels of the facility's predefined types, or null. */
    method FacilityPredefinedTypesForUI(f: KnownFacilityTypes) returns (r: Option<seq<string>>)
      requires Valid()
      modifies this
      ensures Populated()
      ensures r.Some? <==> HasPredefinedTypes(f)
      ensures f == KnownFacilityTypes.Bridge ==> r.Some? && IsLabelList(r.value, AllBridgeTypes, BridgeFullLabel)
      ensures f == KnownFacilityTypes.MarineFacility ==>
        r.Some? && IsLabelList(r.value, AllMarineFacilityTypes, MarineFacilityFullLabel)
    {
      Initialize();
      r := if f in knownFacilityPredefinedTypesLocalized then Some(knownFacilityPredefinedTypesLocalized[f]) else None;
    }
  }

  /** Every label of a facility list for the UI parses back, by `GetFacilityEnum`, to the type at its position. */
  lemma FacilityListParsesBack(l: seq<string>, i: int)
    requires IsLabelList(l, Ifc4x3FacilityTypes, FacilityFullLabel) && 0 <= i < |l|
    ensures GetFacilityEnum(l[i]) == Ifc4x3FacilityTypes[i]
  {
    FacilityLabelRoundTrip(Ifc4x3FacilityTypes[i]);
  }

  /** Every label of a bridge predefined-type list parses back to the type at its position. */
  lemma BridgeListParsesBack(l: seq<string>, i: int)
    requires IsLabelList(l, AllBridgeTypes, BridgeFullLabel) && 0 <= i < |l|
    ensures GetBridgePredefinedTypeEnum(l[i]) == AllBridgeTypes[i]
  {
    BridgeLabelRoundTrip(AllBridgeTypes[i]);
  }

  /** Every label of a marine predefined-type list parses back to the type at its position. */
  lemma MarineListParsesBack(l: seq<string>, i: int)
    requires IsLabelList(l, AllMarineFacilityTypes, MarineFacilityFullLabel) && 0 <= i < |l|
    ensures GetMarineFacilityPredefinedTypeEnum(l[i]) == AllMarineFacilityTypes[i]
  {
    MarineFacilityLabelRoundTrip(AllMarineFacilityTypes[i]);
  }
}
