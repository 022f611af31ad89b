/** The AddElevation operator: adds a band of terrain heights from a
    digital elevation model. */
module AddElevation {
  import opened Wrappers
  import opened Text
  import opened Xml
  import opened OperatorBase

  const Name := "AddElevation"
  const ShortName: Option<string> := Some("elev")

  datatype AddElevation = AddElevation(
    demName: string,
    demResamplingMethod: string,
    elevationBandName: string,
    externalDEMFile: Option<string>,
    externalDEMNoDataValue: Scalar)

  /** The no-data value a new AddElevation starts with. */
  const DefaultNoData := IntScalar(0)

  /** The field values a new AddElevation starts with. */
  const Defaults := AddElevation("SRTM 3Sec", "BICUBIC_INTERPOLATION", "elevation", None, DefaultNoData)

  /** The order in which the emitted children appear. */
  const Order := ["demName", "demResamplingMethod", "externalDEMFile", "externalDEMNoDataValue",
                  "elevationBandName"]

  method NewOperator() returns (op: Operator)
    ensures fresh(op) && op.Info() == StepInfo(Name, ShortName, DefaultMandatorySourceName, [])
  {
    op := new Operator(Name, ShortName);
  }

  /** `get_available_dem_names()`. */
  function AvailableDemNames(): (r: seq<string>)
    ensures |r| == 9
  {
    ["ACE2_5Min", "ACE30", "ASTER 1sec GDEM", "CDEM", "Copernicus 30m Global DEM",
     "Copernicus 90m Global DEM", "GETASSE30", "SRTM 1sec HGT", "SRTM 3sec"]
  }

  /** `get_available_dem_resampling_methods()`. */
  function AvailableDemResamplingMethods(): (r: seq<string>)
    ensures |r| == 7
  {
    ["NEAREST_NEIGHBOUR", "BILINEAR_INTERPOLATION", "CUBIC_CONVOLUTION",
     "BISINC_5_POINT_INTERPOLATION", "BISINC_11_POINT_INTERPOLATION",
     "BISINC_21_POINT_INTERPOLATION", "BICUBIC_INTERPOLATION"]
  }

  /** The default resampling method is one of the available ones. */
  lemma DefaultMethodAvailable()
    ensures Defaults.demResamplingMethod in AvailableDemResamplingMethods()
  {
    assert AvailableDemResamplingMethods()[6] == Defaults.demResamplingMethod;
  }

  /** The default DEM name is not on the list of available names, which
      spells it with a lower-case `s`. */
  lemma DefaultDemNameNotListed()
    ensures Defaults.demName !in AvailableDemNames()
    ensures "SRTM 3sec" in AvailableDemNames()
  {
    assert AvailableDemNames()[8] == "SRTM 3sec";
  }

  /** The list of DEM names with the SRTM 3 arc-second model spelt as the
      default spells it. */
  function CorrectedDemNames(): (r: seq<string>)
    ensures |r| == |AvailableDemNames()|
    ensures forall i :: 0 <= i < |r| - 1 ==> r[i] == AvailableDemNames()[i]
  {
    AvailableDemNames()[..8] + ["SRTM 3Sec"]
  }

  lemma DefaultDemNameCorrected()
    ensures Defaults.demName in CorrectedDemNames()
  {
    assert CorrectedDemNames()[8] == Defaults.demName;
  }

  /** The text for each tag of `Order`, or none when the tag is left out:
      the external file and its no-data value come as a pair. */
  function Texts(e: AddElevation): (t: seq<Option<string>>)
    ensures |t| == |Order|
  {
    [Some(e.demName), Some(e.demResamplingMethod), e.externalDEMFile,
     if e.externalDEMFile.Some? then Some(ScalarText(e.externalDEMNoDataValue)) else None,
     Some(e.elevationBandName)]
  }

  lemma OrderDistinct()
    ensures Distinct(Order)
  {
  }

  /** The children of `<parameters>`, in the order of `Order`. */
  function Emit(e: AddElevation): (r: seq<Param>)
  {
    Present(Order, Texts(e))
  }

  /** The DEM name and method come first, the external file and its
      no-data value together and only with a file, the band name last. */
  lemma {:induction false} Emission(e: AddElevation)
    ensures var ps := Emit(e);
      && InOrder(ps, Order)
      && |ps| >= 3
      && ps[0] == Param("demName", e.demName)
      && ps[1] == Param("demResamplingMethod", e.demResamplingMethod)
      && Emits(ps, "externalDEMFile", e.externalDEMFile)
      && (e.externalDEMFile.Some? <==> Carries(ps, "externalDEMNoDataValue", ScalarText(e.externalDEMNoDataValue)))
      && (e.externalDEMFile.None? <==> Lacks(ps, "externalDEMNoDataValue"))
      && ps[|ps| - 1] == Param("elevationBandName", e.elevationBandName)
  {
    var t := Texts(e);
    OrderDistinct();
    PresentInOrder(Order, t);
    PresentAt(Order, t, 2);
    PresentAt(Order, t, 3);
    PresentAppend(Order, t, 4);
    assert Present(Order[4..], t[4..]) == [Param("elevationBandName", e.elevationBandName)];
  }

  /** A new AddElevation writes the DEM name, its method and the band name. */
  lemma DefaultEmission()
    ensures Emit(Defaults) == [Param("demName", "SRTM 3Sec"),
                               Param("demResamplingMethod", "BICUBIC_INTERPOLATION"),
                               Param("elevationBandName", "elevation")]
  {
    assert Texts(Defaults) == [Some("SRTM 3Sec"), Some("BICUBIC_INTERPOLATION"), None, None, Some("elevation")];
  }

  /** Reads the fields back; without the no-data child the value is the
      default one. */
  function Decode(ps: seq<Param>): (r: Option<AddElevation>)
  {
    var demName :- Lookup(ps, "demName");
    var method_ :- Lookup(ps, "demResamplingMethod");
    var band :- Lookup(ps, "elevationBandName");
    var noData := match Lookup(ps, "externalDEMNoDataValue")
                  case Some(t) => ParseScalar(t)
                  case None => DefaultNoData;
    Some(AddElevation(demName, method_, band, Lookup(ps, "externalDEMFile"), noData))
  }

  /** What the emission keeps: without an external file its no-data value
      is not written. */
  function Kept(e: AddElevation): (r: AddElevation)
  {
    if e.externalDEMFile.Some? then e else e.(externalDEMNoDataValue := DefaultNoData)
  }

  /** The emission loses only a no-data value that has no file, provided
      a textual no-data value does not read as an integer. */
  lemma {:induction false} DecodeEmit(e: AddElevation)
    requires Canonical(e.externalDEMNoDataValue)
    ensures Decode(Emit(e)) == Some(Kept(e))
  {
    var t := Texts(e);
    OrderDistinct();
    LookupPresent(Order, t, 0);
    LookupPresent(Order, t, 1);
    LookupPresent(Order, t, 2);
    LookupPresent(Order, t, 3);
    LookupPresent(Order, t, 4);
    ScalarRoundTrip(e.externalDEMNoDataValue);
  }
}
