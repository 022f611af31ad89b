/** The Resample operator: brings every band of a multi-size product to one
    size, given either a reference band or a target size. */
module Resample {
  import opened Wrappers
  import opened Text
  import opened Xml
  import opened OperatorBase

  const Name := "Resample"
  const ShortName: Option<string> := Some("resampled")
  /** Resample names its mandatory source `sourceProduct`, not `source`. */
  const MandatorySourceName := "sourceProduct"

  datatype Resample = Resample(
    downsampling: string,
    flagDownsampling: string,
    referenceBand: Option<string>,
    resampleOnPyramidLevels: bool,
    targetHeight: Option<int>,
    targetResolution: Option<int>,
    targetWidth: Option<int>,
    upsampling: string)

  /** The field values a new Resample starts with. */
  const Defaults := Resample("First", "First", None, true, None, None, None, "Nearest")

  /** The order in which the emitted children appear. */
  const Order := ["referenceBand", "targetWidth", "targetHeight", "targetResolution",
                  "upsampling", "downsampling", "flagDownsampling", "resampleOnPyramidLevels"]

  method NewOperator() returns (op: Operator)
    ensures fresh(op) && op.Info() == StepInfo(Name, ShortName, MandatorySourceName, [])
  {
    op := new Operator(Name, ShortName);
    op.mandatorySourceName := MandatorySourceName;
  }

  /** The size group: the reference band alone when it is set, otherwise
      the three target sizes, each written with `str()`. */
  function SizeTexts(r: Resample): (texts: seq<Option<string>>)
  {
    if r.referenceBand.Some? then [r.referenceBand, None, None, None]
    else [None, Some(OptIntToString(r.targetWidth)), Some(OptIntToString(r.targetHeight)),
          Some(OptIntToString(r.targetResolution))]
  }

  /** The text for each tag of `Order`, or none when the tag is left out. */
  function Texts(r: Resample): (t: seq<Option<string>>)
    ensures |t| == |Order|
  {
    SizeTexts(r) + [Some(r.upsampling), Some(r.downsampling), Some(r.flagDownsampling),
                    Some(BoolText(r.resampleOnPyramidLevels))]
  }

  lemma OrderDistinct()
    ensures Distinct(Order)
  {
  }

  /** The children of `<parameters>`, in the order of `Order`. */
  function Emit(r: Resample): (ps: seq<Param>)
  {
    Present(Order, Texts(r))
  }

  /** A reference band excludes the target sizes; without one all three
      sizes are written, `'None'` for an unset one. */
  lemma {:induction false} Emission(r: Resample)
    ensures var ps := Emit(r);
      && InOrder(ps, Order)
      && Emits(ps, "referenceBand", r.referenceBand)
      && (r.referenceBand.Some? ==>
            Lacks(ps, "targetWidth") && Lacks(ps, "targetHeight") && Lacks(ps, "targetResolution"))
      && (r.referenceBand.None? ==>
            && Carries(ps, "targetWidth", OptIntToString(r.targetWidth))
            && Carries(ps, "targetHeight", OptIntToString(r.targetHeight))
            && Carries(ps, "targetResolution", OptIntToString(r.targetResolution)))
  {
    var t := Texts(r);
    OrderDistinct();
    PresentInOrder(Order, t);
    PresentAt(Order, t, 0);
    PresentAt(Order, t, 1);
    PresentAt(Order, t, 2);
    PresentAt(Order, t, 3);
  }

  /** The four sampling settings always close the emission, in this order. */
  lemma {:induction false} EmissionTail(r: Resample)
    ensures var ps := Emit(r);
      && |ps| >= 4
      && ps[|ps| - 4..] == [Param("upsampling", r.upsampling), Param("downsampling", r.downsampling),
                            Param("flagDownsampling", r.flagDownsampling),
                            Param("resampleOnPyramidLevels", BoolText(r.resampleOnPyramidLevels))]
  {
    var t := Texts(r);
    var tail := [Param("upsampling", r.upsampling), Param("downsampling", r.downsampling),
                 Param("flagDownsampling", r.flagDownsampling),
                 Param("resampleOnPyramidLevels", BoolText(r.resampleOnPyramidLevels))];
    PresentAppend(Order, t, 4);
    assert t[4..] == [Some(r.upsampling), Some(r.downsampling), Some(r.flagDownsampling),
                      Some(BoolText(r.resampleOnPyramidLevels))];
    assert Order[4..] == ["upsampling", "downsampling", "flagDownsampling", "resampleOnPyramidLevels"];
    PresentAll(Order[4..], t[4..]);
    var ps := Emit(r);
    assert ps == Present(Order[..4], t[..4]) + tail;
    assert ps[|ps| - 4..] == tail;
  }

  lemma DefaultTexts()
    ensures Texts(Defaults) == [None, Some("None"), Some("None"), Some("None"),
                                Some("Nearest"), Some("First"), Some("First"), Some("true")]
  {
  }

  /** A new Resample has no reference band, so it writes `'None'` for the
      three sizes. */
  lemma DefaultEmission()
    ensures Emit(Defaults) == [Param("targetWidth", "None"), Param("targetHeight", "None"),
                               Param("targetResolution", "None"), Param("upsampling", "Nearest"),
                               Param("downsampling", "First"), Param("flagDownsampling", "First"),
                               Param("resampleOnPyramidLevels", "true")]
  {
    DefaultTexts();
    DefaultPresent();
  }

  lemma DefaultPresent()
    ensures Present(Order, [None, Some("None"), Some("None"), Some("None"),
                            Some("Nearest"), Some("First"), Some("First"), Some("true")])
         == [Param(Order[1], "None"), Param(Order[2], "None"), Param(Order[3], "None"),
             Param(Order[4], "Nearest"), Param(Order[5], "First"), Param(Order[6], "First"),
             Param(Order[7], "true")]
  {
  }

  /** An absent size reads as unset, as does the text `'None'`. */
  function ReadSize(ps: seq<Param>, tag: string): (r: Option<Option<int>>)
  {
    match Lookup(ps, tag)
    case None => Some(None)
    case Some(t) => ParseOptInt(t)
  }

  /** Reads the fields back from the emitted children. */
  function Decode(ps: seq<Param>): (r: Option<Resample>)
  {
    var width :- ReadSize(ps, "targetWidth");
    var height :- ReadSize(ps, "targetHeight");
    var resolution :- ReadSize(ps, "targetResolution");
    var up :- Lookup(ps, "upsampling");
    var down :- Lookup(ps, "downsampling");
    var flagDown :- Lookup(ps, "flagDownsampling");
    var pyramid :- ReadBool(ps, "resampleOnPyramidLevels");
    Some(Resample(down, flagDown, Lookup(ps, "referenceBand"), pyramid, height, resolution, width, up))
  }

  /** What the emission keeps: with a reference band the target sizes are
      not written, so they read back as unset. */
  function Kept(r: Resample): (k: Resample)
  {
    if r.referenceBand.Some? then r.(targetHeight := None, targetResolution := None, targetWidth := None)
    else r
  }

  /** The emission loses only the target sizes a reference band overrides. */
  lemma {:induction false} DecodeEmit(r: Resample)
    ensures Decode(Emit(r)) == Some(Kept(r))
  {
    var t := Texts(r);
    OrderDistinct();
    LookupPresent(Order, t, 0);
    LookupPresent(Order, t, 1);
    LookupPresent(Order, t, 2);
    LookupPresent(Order, t, 3);
    LookupPresent(Order, t, 4);
    LookupPresent(Order, t, 5);
    LookupPresent(Order, t, 6);
    LookupPresent(Order, t, 7);
    OptIntRoundTrip(r.targetWidth);
    OptIntRoundTrip(r.targetHeight);
    OptIntRoundTrip(r.targetResolution);
  }
}
