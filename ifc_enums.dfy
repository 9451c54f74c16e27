/**
 * The host enumerations the exporter works with: IFC schema versions, exchange requirements,
 * facility types and the IFC4x3 predefined types of bridges and marine facilities. Each comes
 * with the C# identifier of every member (what `ToString()` prints and what `Enum.TryParse`
 * accepts) and, where the exporter enumerates a type with `Enum.GetValues`, the list of its
 * members in declaration order.
 */
module IfcEnums {
  import opened Wrappers

  /** A C# identifier: a letter or `_` first, then letters, digits and `_`. */
  predicate IdentifierChar(c: char)
  {
    ('a' <= c <= 'z') || ('A' <= c <= 'Z') || ('0' <= c <= '9') || c == '_'
  }

  predicate IsIdentifier(s: string)
  {
    |s| > 0 && !('0' <= s[0] <= '9') && forall c :: c in s ==> IdentifierChar(c)
  }

  /** An identifier made of upper-case letters only, as the IFC4x3 enumeration members are. */
  predicate IsUpperCaseWord(s: string)
  {
    |s| > 0 && forall c :: c in s ==> 'A' <= c <= 'Z'
  }

  /** Autodesk.Revit.DB.IFCVersion, with every member a recent host defines. */
  datatype IFCVersion =
    | Default | IFC2x2 | IFC2x3 | IFCBCA | IFCCOBIE | IFC2x3CV2 | IFC4
    | IFC2x3FM | IFC4RV | IFC4DTV | IFC2x3BFM | IFC4x3 | IFCSG

  /** `IFCVersion.ToString()`: the member's identifier, so it never holds a space or a parenthesis. */
  function VersionName(v: IFCVersion): (r: string)
    ensures IsIdentifier(r)
  {
    match v
    case Default => "Default"
    case IFC2x2 => "IFC2x2"
    case IFC2x3 => "IFC2x3"
    case IFCBCA => "IFCBCA"
    case IFCCOBIE => "IFCCOBIE"
    case IFC2x3CV2 => "IFC2x3CV2"
    case IFC4 => "IFC4"
    case IFC2x3FM => "IFC2x3FM"
    case IFC4RV => "IFC4RV"
    case IFC4DTV => "IFC4DTV"
    case IFC2x3BFM => "IFC2x3BFM"
    case IFC4x3 => "IFC4x3"
    case IFCSG => "IFCSG"
  }

  /** Known exchange requirements (Revit.IFC.Common.Enums.KnownERNames). */
  datatype KnownERNames = NotDefined | Architecture | BuildingService | Structural

  /** `KnownERNames.ToString()`: the member's identifier, so it never holds a space or a parenthesis. */
  function ErName(e: KnownERNames): (r: string)
    ensures IsIdentifier(r)
  {
    match e
    case NotDefined => "NotDefined"
    case Architecture => "Architecture"
    case BuildingService => "BuildingService"
    case Structural => "Structural"
  }

  /** Known facility types (Revit.IFC.Common.Enums.KnownFacilityTypes). */
  datatype KnownFacilityTypes = NotDefined | Building | Bridge | MarineFacility | Road | Railway

  /** `KnownFacilityTypes.ToString()`: the member's identifier, so it never holds a space or a parenthesis. */
  function FacilityName(f: KnownFacilityTypes): (r: string)
    ensures IsIdentifier(r)
  {
    match f
    case NotDefined => "NotDefined"
    case Building => "Building"
    case Bridge => "Bridge"
    case MarineFacility => "MarineFacility"
    case Road => "Road"
    case Railway => "Railway"
  }

  /** IfcBridgeTypeEnum of IFC4x3. */
  datatype IFCBridgeType =
    | ARCHED | CABLE_STAYED | CANTILEVER | CULVERT | FRAMEWORK | GIRDER
    | SUSPENSION | TRUSS | USERDEFINED | NOTDEFINED

  /** `IFCBridgeType.ToString()`: the member's identifier, so it never holds a space or a parenthesis. */
  function BridgeTypeName(b: IFCBridgeType): (r: string)
    ensures IsIdentifier(r)
  {
    match b
    case ARCHED => "ARCHED"
    case CABLE_STAYED => "CABLE_STAYED"
    case CANTILEVER => "CANTILEVER"
    case CULVERT => "CULVERT"
    case FRAMEWORK => "FRAMEWORK"
    case GIRDER => "GIRDER"
    case SUSPENSION => "SUSPENSION"
    case TRUSS => "TRUSS"
    case USERDEFINED => "USERDEFINED"
    case NOTDEFINED => "NOTDEFINED"
  }

  /** `Enum.GetValues(typeof(IFCBridgeType))`: every member, in declaration order. */
  const AllBridgeTypes: seq<IFCBridgeType> :=
    [ARCHED, CABLE_STAYED, CANTILEVER, CULVERT, FRAMEWORK, GIRDER, SUSPENSION, TRUSS, IFCBridgeType.USERDEFINED, IFCBridgeType.NOTDEFINED]

  /** IfcMarineFacilityTypeEnum of IFC4x3. */
  datatype IFCMarineFacilityType =
    | BARRIERBEACH | BREAKWATER | CANAL | DRYDOCK | FLOATINGDOCK | HYDROLIFT | JETTY
    | LAUNCHRECOVERY | MARINEDEFENCE | NAVIGATIONALCHANNEL | PORT | QUAY | REVETMENT
    | SHIPLIFT | SHIPLOCK | SHIPYARD | SLIPWAY | WATERWAY | WATERWAYSHIPLIFT
    | USERDEFINED | NOTDEFINED

  /** `IFCMarineFacilityType.ToString()`: the member's identifier, upper-case letters only. */
  function MarineFacilityTypeName(m: IFCMarineFacilityType): (r: string)
    ensures IsUpperCaseWord(r)
  {
    match m
    case BARRIERBEACH => "BARRIERBEACH"
    case BREAKWATER => "BREAKWATER"
    case CANAL => "CANAL"
    case DRYDOCK => "DRYDOCK"
    case FLOATINGDOCK => "FLOATINGDOCK"
    case HYDROLIFT => "HYDROLIFT"
    case JETTY => "JETTY"
    case LAUNCHRECOVERY => "LAUNCHRECOVERY"
    case MARINEDEFENCE => "MARINEDEFENCE"
    case NAVIGATIONALCHANNEL => "NAVIGATIONALCHANNEL"
    case PORT => "PORT"
    case QUAY => "QUAY"
    case REVETMENT => "REVETMENT"
    case SHIPLIFT => "SHIPLIFT"
    case SHIPLOCK => "SHIPLOCK"
    case SHIPYARD => "SHIPYARD"
    case SLIPWAY => "SLIPWAY"
    case WATERWAY => "WATERWAY"
    case WATERWAYSHIPLIFT => "WATERWAYSHIPLIFT"
    case USERDEFINED => "USERDEFINED"
    case NOTDEFINED => "NOTDEFINED"
  }

  /** `Enum.GetValues(typeof(IFCMarineFacilityType))`: every member, in declaration order. */
  const AllMarineFacilityTypes: seq<IFCMarineFacilityType> :=
    [BARRIERBEACH, BREAKWATER, CANAL, DRYDOCK, FLOATINGDOCK, HYDROLIFT, JETTY,
     LAUNCHRECOVERY, MARINEDEFENCE, NAVIGATIONALCHANNEL, PORT, QUAY, REVETMENT,
     SHIPLIFT, SHIPLOCK, SHIPYARD, SLIPWAY, WATERWAY, WATERWAYSHIPLIFT,
     IFCMarineFacilityType.USERDEFINED, IFCMarineFacilityType.NOTDEFINED]

  /** `Enum.GetValues(typeof(KnownERNames))`. */
  const AllKnownERNames: seq<KnownERNames> :=
    [KnownERNames.NotDefined, Architecture, BuildingService, Structural]

  /** `Enum.GetValues(typeof(KnownFacilityTypes))`. */
  const AllKnownFacilityTypes: seq<KnownFacilityTypes> :=
    [KnownFacilityTypes.NotDefined, Building, Bridge, MarineFacility, Road, Railway]

  /** `l` holds the labels of `xs`, position by position. */
  predicate IsLabelList<T>(l: seq<string>, xs: seq<T>, labelOf: T -> string)
  {
    |l| == |xs| && forall i :: 0 <= i < |xs| ==> l[i] == labelOf(xs[i])
  }

  /**
   * `Enum.TryParse(s, out value)` over the members `members` of an enumeration whose member
   * identifiers are given by `name`: the first member named exactly `s`, or nothing.
   */
  function TryParse<T>(s: string, members: seq<T>, name: T -> string): (r: Option<T>)
    ensures r.Some? ==> r.value in members && name(r.value) == s
    ensures r.None? ==> forall x :: x in members ==> name(x) != s
  {
    if members == [] then None
    else if name(members[0]) == s then Some(members[0])
    else TryParse(s, members[1..], name)
  }
}
