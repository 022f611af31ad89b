/** The AddLandCover operator: adds land-cover bands to a product. */
module AddLandCover {
  import opened Wrappers
  import opened Xml
  import opened OperatorBase

  const Name := "AddLandCover"
  /** No short name: the step leaves the output suffix alone. */
  const ShortName: Option<string> := None

  datatype AddLandCover = AddLandCover(
    externalFiles: seq<string>,
    landCoverNames: seq<string>,
    resamplingMethod: string)

  /** The field values a new AddLandCover starts with. */
  const Defaults := AddLandCover([], ["AAFC Canada Sand Pct"], "NEAREST_NEIGHBOUR")

  /** The order in which the emitted children appear. */
  const Order := ["landCoverNames", "externalFiles", "resamplingMethod"]

  method NewOperator() returns (op: Operator)
    ensures fresh(op) && op.Info() == StepInfo(Name, ShortName, DefaultMandatorySourceName, [])
  {
    op := new Operator(Name, ShortName);
  }

  /** `get_available_land_cover_names()`. */
  function AvailableLandCoverNames(): (r: seq<string>)
    ensures |r| == 20
  {
    ["AAFC Canada 2000 Crop", "AAFC Canada 2009 Prairies Crop", "AAFC Canada 2010 Prairies Crop",
     "AAFC Canada 2011 Crop", "AAFC Canada 2012 Crop", "AAFC Canada 2013 Crop",
     "AAFC Canada 2014 Crop", "AAFC Canada 2015 Crop", "AAFC Canada 2016 Crop",
     "AAFC Canada 2016 Crop SMAPVEX", "AAFC Canada 2017 Crop", "AAFC Canada 2018 Crop",
     "AAFC Canada Clay Pct", "AAFC Canada Sand Pct", "CCILandCover-2015", "GLC2000",
     "GlobCover", "JaxaForestMap-2016", "MODIS 2007 Tree Cover Percentage",
     "MODIS 2010 Tree Cover Percentage"]
  }

  /** `get_available_resampling_methods()`. */
  function AvailableResamplingMethods(): (r: seq<string>)
    ensures |r| == 7
  {
    ["NEAREST_NEIGHBOUR", "BILINEAR_INTERPOLATION", "CUBIC_CONVOLUTION",
     "BISINC_5_POINT_INTERPOLATION", "BISINC_11_POINT_INTERPOLATION",
     "BISINC_21_POINT_INTERPOLATION", "BICUBIC_INTERPOLATION"]
  }

  /** The defaults pick from the lists of available values. */
  lemma DefaultsAvailable()
    ensures forall i :: 0 <= i < |Defaults.landCoverNames| ==>
      Defaults.landCoverNames[i] in AvailableLandCoverNames()
    ensures Defaults.resamplingMethod in AvailableResamplingMethods()
  {
    assert AvailableLandCoverNames()[13] == Defaults.landCoverNames[0];
    assert AvailableResamplingMethods()[0] == Defaults.resamplingMethod;
  }

  /** The text for each tag of `Order`, or none when the tag is left out. */
  function Texts(a: AddLandCover): (t: seq<Option<string>>)
    ensures |t| == |Order|
  {
    [Listed(a.landCoverNames), Listed(a.externalFiles), Some(a.resamplingMethod)]
  }

  lemma OrderDistinct()
    ensures Distinct(Order)
  {
  }

  /** The children of `<parameters>`, in the order of `Order`. */
  function Emit(a: AddLandCover): (r: seq<Param>)
  {
    Present(Order, Texts(a))
  }

  /** Both lists are emitted only when non-empty; the resampling method is
      always emitted, and last. */
  lemma {:induction false} Emission(a: AddLandCover)
    ensures var r := Emit(a);
      && InOrder(r, Order)
      && Emits(r, "landCoverNames", Listed(a.landCoverNames))
      && Emits(r, "externalFiles", Listed(a.externalFiles))
      && |r| > 0 && r[|r| - 1] == Param("resamplingMethod", a.resamplingMethod)
  {
    OrderDistinct();
    PresentInOrder(Order, Texts(a));
    PresentAt(Order, Texts(a), 0);
    PresentAt(Order, Texts(a), 1);
    var t := Texts(a);
    assert Present(Order[2..], t[2..]) == [Param("resamplingMethod", a.resamplingMethod)];
    PresentAppend(Order, t, 2);
  }

  /** A new AddLandCover emits the default land-cover name and resampling
      method. */
  lemma DefaultEmission()
    ensures Emit(Defaults) == [Param("landCoverNames", "AAFC Canada Sand Pct"),
                               Param("resamplingMethod", "NEAREST_NEIGHBOUR")]
  {
    assert Texts(Defaults) == [Some("AAFC Canada Sand Pct"), None, Some("NEAREST_NEIGHBOUR")];
  }

  /** Reads the fields back from the emitted children. */
  function Decode(ps: seq<Param>): (r: Option<AddLandCover>)
  {
    var method_ :- Lookup(ps, "resamplingMethod");
    Some(AddLandCover(Unlisted(Lookup(ps, "externalFiles")), Unlisted(Lookup(ps, "landCoverNames")), method_))
  }

  /** The emission loses no field, provided no listed name holds a comma. */
  lemma {:induction false} DecodeEmit(a: AddLandCover)
    requires forall i :: 0 <= i < |a.externalFiles| ==> ',' !in a.externalFiles[i]
    requires forall i :: 0 <= i < |a.landCoverNames| ==> ',' !in a.landCoverNames[i]
    ensures Decode(Emit(a)) == Some(a)
  {
    OrderDistinct();
    LookupPresent(Order, Texts(a), 0);
    LookupPresent(Order, Texts(a), 1);
    LookupPresent(Order, Texts(a), 2);
    UnlistedListed(a.externalFiles);
    UnlistedListed(a.landCoverNames);
  }
}
