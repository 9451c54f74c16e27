/**
 * The display labels of the exporter's enumerations (the extension methods of
 * IFCEnumExtensions). The facility, bridge and marine-facility labels are the strings the
 * parsers of IfcFacilityTypes read back.
 */
module IfcEnumExtensions {
  import opened IfcEnums

  const UnrecognizedVersionLabel := "Unrecognized IFC version"

  /**
   * `IFCVersion.ToLabel()`: every version has a label, and only a version the switch does not
   * list (Default) falls through to the fallback label.
   */
  function ToLabel(v: IFCVersion): (r: string)
    ensures |r| > 0
    ensures r == UnrecognizedVersionLabel <==> v == Default
  {
    match v
    case IFC2x2 => "IFC 2x2 Coordination View"
    case IFC2x3 => "IFC 2x3 Coordination View"
    case IFCBCA => "IFC 2x3 Coordination View 2.0"
    case IFC2x3CV2 => "IFC 2x3 Coordination View 2.0"
    case IFC4 => "IFC4 for General Use"
    case IFCCOBIE => "IFC 2x3 GSA Concept Design BIM 2010"
    case IFC2x3FM => "IFC2x3 COBie 2.4 Design Deliverable View"
    case IFC4DTV => "IFC4 Design Transfer View"
    case IFC4RV => "IFC4 Reference Vie"
    case IFC2x3BFM => "IFC 2x3 Basic FM Handover View"
    case IFC4x3 => "IFC4x3"
    case IFCSG => "IFC-SG Regulatory Requirements View"
    case Default => UnrecognizedVersionLabel
  }

  /**
   * `KnownERNames.ToShortLabel()`: the member name of a defined exchange requirement, and
   * empty exactly for NotDefined.
   */
  function ToShortLabel(e: KnownERNames): (r: string)
    ensures r == "" <==> e == KnownERNames.NotDefined
    ensures e != KnownERNames.NotDefined ==> r == ErName(e)
  {
    match e
    case Architecture => "Architecture"
    case BuildingService => "BuildingService"
    case Structural => "Structural"
    case NotDefined => ""
  }

  /**
   * `KnownERNames.ToFullLabel()`: the exchange-requirement name shown in the UI. It is empty
   * exactly for NotDefined, and only Architecture is shown under its member name.
   */
  function ErFullLabel(e: KnownERNames): (r: string)
    ensures r == "" <==> e == KnownERNames.NotDefined
    ensures r == ErName(e) <==> e == Architecture
  {
    match e
    case Architecture => "Architecture"
    case BuildingService => "MEP Reference Exchange"
    case Structural => "Structural Reference Exchange"
    case NotDefined => ""
  }

  /**
   * `KnownFacilityTypes.ToFullLabel()`: the label shown in the UI, empty exactly for NotDefined.
   */
  function FacilityFullLabel(f: KnownFacilityTypes): (r: string)
    ensures r == "" <==> f == KnownFacilityTypes.NotDefined
  {
    match f
    case Bridge => "Bridge (IfcBridge)"
    case Building => "Building (IfcBuilding)"
    case MarineFacility => "Marine Facility (IfcMarineFacility)"
    case Railway => "Railway (IfcRailway)"
    case Road => "Road (IfcRoad)"
    case NotDefined => ""
  }

  /**
   * `IFCBridgeType.ToFullLabel()`: "Not Defined" and "User Defined" are the labels of exactly
   * NOTDEFINED and USERDEFINED.
   */
  function BridgeFullLabel(b: IFCBridgeType): (r: string)
    ensures r == "Not Defined" <==> b == IFCBridgeType.NOTDEFINED
    ensures r == "User Defined" <==> b == IFCBridgeType.USERDEFINED
  {
    match b
    case ARCHED => "Arched (ARCHED)"
    case CABLE_STAYED => "Cable Stayed (CABLESTAYED)"
    case CANTILEVER => "Cantilever (CANTILEVER)"
    case CULVERT => "Culvert (CULVERT)"
    case FRAMEWORK => "Framework (FRAMEWORK)"
    case GIRDER => "Girder (GIRDER)"
    case NOTDEFINED => "Not Defined"
    case SUSPENSION => "Suspension (SUSPENSION)"
    case TRUSS => "Truss (TRUSS)"
    case USERDEFINED => "User Defined"
  }

  /**
   * `IFCMarineFacilityType.ToFullLabel()`: "Not Defined" and "User Defined" are the labels of
   * exactly NOTDEFINED and USERDEFINED. The SHIPYARD label lacks its closing parenthesis in the
   * source too.
   */
  function MarineFacilityFullLabel(m: IFCMarineFacilityType): (r: string)
    ensures r == "Not Defined" <==> m == IFCMarineFacilityType.NOTDEFINED
    ensures r == "User Defined" <==> m == IFCMarineFacilityType.USERDEFINED
  {
    match m
    case BARRIERBEACH => "Barrier Beach (BARRIERBEACH)"
    case BREAKWATER => "Breakwater (BREAKWATER)"
    case CANAL => "Canal (CANAL)"
    case DRYDOCK => "Dry Dock (DRYDOCK)"
    case FLOATINGDOCK => "Floating Dock (FLOATINGDOCK)"
    case HYDROLIFT => "Hydrolift (HYDROLIFT)"
    case JETTY => "Jetty (JETTY)"
    case LAUNCHRECOVERY => "Launch Recovery Facility (LAUNCHRECOVERYFACILITY)"
    case MARINEDEFENCE => "Marine Defense (MARINEDEFENCE)"
    case NAVIGATIONALCHANNEL => "Navigational Channel (NAVIGATIONALCHANNEL)"
    case NOTDEFINED => "Not Defined"
    case PORT => "Port (PORT)"
    case QUAY => "Quay (QUAY)"
    case REVETMENT => "Revetment (REVETMENT)"
    case SHIPLIFT => "Shiplift (SHIPLIFT)"
    case SHIPLOCK => "Ship Lock (SHIPLOCK)"
    case SHIPYARD => "Shipyard (SHIPYARD"
    case SLIPWAY => "Slipway (SLIPWAY)"
    case USERDEFINED => "User Defined"
    case WATERWAY => "Waterway (WATERWAY)"
    case WATERWAYSHIPLIFT => "Waterway Shiplift (WATERWAYSHIPLIFT)"
  }

  // ---------------------------------------------------------------------------------------
  // Properties of the label tables

  /** The deprecated IFCBCA alias shares the label of its successor IFC2x3CV2. */
  lemma BcaAliasLabel()
    ensures ToLabel(IFCBCA) == ToLabel(IFC2x3CV2) == "IFC 2x3 Coordination View 2.0"
  {
  }

  /** Apart from the IFCBCA/IFC2x3CV2 alias, distinct versions have distinct labels. */
  lemma VersionLabelsDistinct(v: IFCVersion, w: IFCVersion)
    requires v != w && {v, w} != {IFCBCA, IFC2x3CV2}
    ensures ToLabel(v) != ToLabel(w)
  {
    if v == Default || v == IFC2x2 || v == IFC2x3 || v == IFCBCA || v == IFCCOBIE || v == IFC2x3CV2 {
      EarlyVersionLabelDistinct(v, w);
    } else if w == Default || w == IFC2x2 || w == IFC2x3 || w == IFCBCA || w == IFCCOBIE || w == IFC2x3CV2 {
      EarlyVersionLabelDistinct(w, v);
    } else {
      LateVersionLabelsDistinct(v, w);
    }
  }

  /** The label of a version up to IFC2x3CV2 differs from the label of any other version but its alias. */
  lemma EarlyVersionLabelDistinct(v: IFCVersion, w: IFCVersion)
    requires v == Default || v == IFC2x2 || v == IFC2x3 || v == IFCBCA || v == IFCCOBIE || v == IFC2x3CV2
    requires v != w && {v, w} != {IFCBCA, IFC2x3CV2}
    ensures ToLabel(v) != ToLabel(w)
  {
  }

  /** Distinct versions from IFC4 on have distinct labels. */
  lemma LateVersionLabelsDistinct(v: IFCVersion, w: IFCVersion)
    requires v != w
    requires v == IFC4 || v == IFC2x3FM || v == IFC4RV || v == IFC4DTV || v == IFC2x3BFM || v == IFC4x3 || v == IFCSG
    requires w == IFC4 || w == IFC2x3FM || w == IFC4RV || w == IFC4DTV || w == IFC2x3BFM || w == IFC4x3 || w == IFCSG
    ensures ToLabel(v) != ToLabel(w)
  {
  }

  /** The three full exchange-requirement labels are pairwise distinct. */
  lemma ErFullLabelsDistinct(e: KnownERNames, g: KnownERNames)
    requires e != g
    ensures ErFullLabel(e) != ErFullLabel(g)
  {
  }

  /** Distinct facility types have distinct labels. */
  lemma FacilityLabelsDistinct(f: KnownFacilityTypes, g: KnownFacilityTypes)
    requires f != g
    ensures FacilityFullLabel(f) != FacilityFullLabel(g)
  {
  }

  /** Distinct bridge types have distinct labels. */
  lemma BridgeLabelsDistinct(b: IFCBridgeType, c: IFCBridgeType)
    requires b != c
    ensures BridgeFullLabel(b) != BridgeFullLabel(c)
  {
  }
}
