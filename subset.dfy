/** The Subset operator: a spatial and/or spectral subset of a product. */
module Subset {
  import opened Wrappers
  import opened Text
  import opened Xml
  import opened OperatorBase

  const Name := "Subset"
  const ShortName: Option<string> := Some("Subset")

  datatype Subset = Subset(
    copyMetadata: bool,
    fullSwath: bool,
    geoRegion: Option<string>,
    referenceBand: Option<string>,
    sourceBands: seq<string>,
    subSamplingX: int,
    subSamplingY: int,
    tiePointGridNames: seq<string>)

  /** The field values a new Subset starts with. */
  const Defaults := Subset(false, false, None, None, [], 1, 1, [])

  /** The order in which the emitted children appear. */
  const Order := ["sourceBands", "referenceBand", "geoRegion", "subSamplingX",
                  "subSamplingY", "fullSwath", "tiePointGridNames", "copyMetadata"]

  method NewOperator() returns (op: Operator)
    ensures fresh(op) && op.Info() == StepInfo(Name, ShortName, DefaultMandatorySourceName, [])
  {
    op := new Operator(Name, ShortName);
  }

  /** The text for each tag of `Order`, or none when the tag is left out. */
  function Texts(s: Subset): (t: seq<Option<string>>)
    ensures |t| == |Order|
  {
    [Listed(s.sourceBands), s.referenceBand, s.geoRegion,
     Some(IntToString(s.subSamplingX)), Some(IntToString(s.subSamplingY)),
     Some(BoolText(s.fullSwath)), Listed(s.tiePointGridNames),
     Some(BoolText(s.copyMetadata))]
  }

  lemma OrderDistinct()
    ensures Distinct(Order)
  {
  }

  /** The children of `<parameters>`, in the order of `Order`. */
  function Emit(s: Subset): (r: seq<Param>)
  {
    Present(Order, Texts(s))
  }

  /** The band lists are emitted only when non-empty, the reference band
      and region only when set, the sub-sampling steps and the full-swath
      and copy-metadata flags always, all in the order of `Order`. */
  lemma {:induction false} Emission(s: Subset)
    ensures var r := Emit(s);
      && InOrder(r, Order)
      && Emits(r, "sourceBands", Listed(s.sourceBands))
      && Emits(r, "referenceBand", s.referenceBand)
      && Emits(r, "geoRegion", s.geoRegion)
      && Carries(r, "subSamplingX", IntToString(s.subSamplingX))
      && Carries(r, "subSamplingY", IntToString(s.subSamplingY))
      && Carries(r, "fullSwath", BoolText(s.fullSwath))
      && Emits(r, "tiePointGridNames", Listed(s.tiePointGridNames))
      && Carries(r, "copyMetadata", BoolText(s.copyMetadata))
  {
    var texts := Texts(s);
    OrderDistinct();
    PresentInOrder(Order, texts);
    PresentAt(Order, texts, 0);
    PresentAt(Order, texts, 1);
    PresentAt(Order, texts, 2);
    PresentAt(Order, texts, 3);
    PresentAt(Order, texts, 4);
    PresentAt(Order, texts, 5);
    PresentAt(Order, texts, 6);
    PresentAt(Order, texts, 7);
  }

  /** The texts of the defaults: only the sub-sampling steps and the two
      flags have one. */
  lemma DefaultTexts()
    ensures Texts(Defaults) == [None, None, None, Some("1"), Some("1"), Some("false"), None, Some("false")]
  {
    assert IntToString(1) == "1";
  }

  /** With the defaults only the sub-sampling steps and the two flags are
      emitted. */
  lemma DefaultEmission()
    ensures Emit(Defaults) == [Param("subSamplingX", "1"), Param("subSamplingY", "1"),
                               Param("fullSwath", "false"), Param("copyMetadata", "false")]
  {
    DefaultTexts();
    DefaultPresent();
  }

  lemma DefaultPresent()
    ensures Present(Order, [None, None, None, Some("1"), Some("1"), Some("false"), None, Some("false")])
         == [Param(Order[3], "1"), Param(Order[4], "1"), Param(Order[5], "false"), Param(Order[7], "false")]
  {
  }

  /** Reads the fields back from the emitted children. */
  function Decode(ps: seq<Param>): (r: Option<Subset>)
  {
    var x :- ReadInt(ps, "subSamplingX");
    var y :- ReadInt(ps, "subSamplingY");
    var fullSwath :- ReadBool(ps, "fullSwath");
    var copyMetadata :- ReadBool(ps, "copyMetadata");
    Some(Subset(copyMetadata, fullSwath, Lookup(ps, "geoRegion"), Lookup(ps, "referenceBand"),
                Unlisted(Lookup(ps, "sourceBands")), x, y, Unlisted(Lookup(ps, "tiePointGridNames"))))
  }

  /** Decoding succeeds with `s` on any children whose lookups give the
      texts `Emit` writes for `s`. */
  lemma {:induction false} DecodeLookups(ps: seq<Param>, s: Subset)
    requires forall i :: 0 <= i < |s.sourceBands| ==> ',' !in s.sourceBands[i]
    requires forall i :: 0 <= i < |s.tiePointGridNames| ==> ',' !in s.tiePointGridNames[i]
    requires Lookup(ps, "sourceBands") == Listed(s.sourceBands)
    requires Lookup(ps, "referenceBand") == s.referenceBand
    requires Lookup(ps, "geoRegion") == s.geoRegion
    requires Lookup(ps, "subSamplingX") == Some(IntToString(s.subSamplingX))
    requires Lookup(ps, "subSamplingY") == Some(IntToString(s.subSamplingY))
    requires Lookup(ps, "fullSwath") == Some(BoolText(s.fullSwath))
    requires Lookup(ps, "tiePointGridNames") == Listed(s.tiePointGridNames)
    requires Lookup(ps, "copyMetadata") == Some(BoolText(s.copyMetadata))
    ensures Decode(ps) == Some(s)
  {
    IntRoundTrip(s.subSamplingX);
    IntRoundTrip(s.subSamplingY);
    UnlistedListed(s.sourceBands);
    UnlistedListed(s.tiePointGridNames);
  }

  /** The emission loses no field, provided no band or grid name holds a comma. */
  lemma {:induction false} DecodeEmit(s: Subset)
    requires forall i :: 0 <= i < |s.sourceBands| ==> ',' !in s.sourceBands[i]
    requires forall i :: 0 <= i < |s.tiePointGridNames| ==> ',' !in s.tiePointGridNames[i]
    ensures Decode(Emit(s)) == Some(s)
  {
    var t := Texts(s);
    OrderDistinct();
    LookupPresent(Order, t, 0);
    LookupPresent(Order, t, 1);
    LookupPresent(Order, t, 2);
    LookupPresent(Order, t, 3);
    LookupPresent(Order, t, 4);
    LookupPresent(Order, t, 5);
    LookupPresent(Order, t, 6);
    LookupPresent(Order, t, 7);
    DecodeLookups(Emit(s), s);
  }
}
