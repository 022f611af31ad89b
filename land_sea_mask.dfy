/** The Land-Sea-Mask operator: turns the pixels on land or at sea into
    no-data values, by SRTM or by a vector mask of the product. */
module LandSeaMask {
  import opened Wrappers
  import opened Text
  import opened Xml
  import opened OperatorBase

  const Name := "Land-Sea-Mask"
  const ShortName: Option<string> := Some("masked")

  datatype LandSeaMask = LandSeaMask(
    geometry: string,
    invertGeometry: bool,
    maskOutLand: bool,
    shorelineExtension: int,
    sourceBands: seq<string>,
    useSRTM: bool)

  /** The field values a new LandSeaMask starts with. */
  const Defaults := LandSeaMask("", false, true, 0, [], true)

  /** The order in which the emitted children appear. */
  const Order := ["sourceBands", "landMask", "useSRTM", "geometry", "invertGeometry",
                  "shorelineExtension"]

  method NewOperator() returns (op: Operator)
    ensures fresh(op) && op.Info() == StepInfo(Name, ShortName, DefaultMandatorySourceName, [])
  {
    op := new Operator(Name, ShortName);
  }

  /** The emission's assertion: a vector mask is named, or SRTM is used. */
  predicate Ready(m: LandSeaMask)
  {
    |m.geometry| > 0 || m.useSRTM
  }

  /** The text for each tag of `Order`, or none when the tag is left out. */
  function Texts(m: LandSeaMask): (t: seq<Option<string>>)
    ensures |t| == |Order|
  {
    [Listed(m.sourceBands), Some(BoolText(m.maskOutLand)), Some(BoolText(m.useSRTM)),
     Some(m.geometry), Some(BoolText(m.invertGeometry)), Some(IntToString(m.shorelineExtension))]
  }

  lemma OrderDistinct()
    ensures Distinct(Order)
  {
  }

  /** The children of `<parameters>`, or the `AssertionError` raised when
      there is neither a geometry nor SRTM. */
  function Emit(m: LandSeaMask): (r: Result<seq<Param>, Error>)
    ensures r.Failure? <==> !Ready(m)
    ensures r.Failure? ==> r.error == AssertionError
  {
    if |m.geometry| > 0 || m.useSRTM then Success(Present(Order, Texts(m)))
    else Failure(AssertionError)
  }

  /** The source bands are emitted only when there are some, in the order
      of `Order`. */
  lemma {:induction false} Emission(m: LandSeaMask)
    requires Ready(m)
    ensures var ps := Emit(m).value;
      && InOrder(ps, Order)
      && Emits(ps, "sourceBands", Listed(m.sourceBands))
  {
    OrderDistinct();
    PresentInOrder(Order, Texts(m));
    PresentAt(Order, Texts(m), 0);
  }

  /** The five settings always close the emission, in this order, with
      `landMask` reflecting `maskOutLand` and `useSRTM` reflecting `useSRTM`. */
  lemma {:induction false} EmissionTail(m: LandSeaMask)
    requires Ready(m)
    ensures var ps := Emit(m).value;
      && |ps| >= 5
      && ps[|ps| - 5..] == Settings(m)
  {
    var t := Texts(m);
    PresentAppend(Order, t, 1);
    assert Order[1..] == ["landMask", "useSRTM", "geometry", "invertGeometry", "shorelineExtension"];
    PresentAll(Order[1..], t[1..]);
    var ps := Emit(m).value;
    assert ps == Present(Order[..1], t[..1]) + Settings(m);
  }

  /** The five children written whatever the fields hold. */
  function Settings(m: LandSeaMask): (r: seq<Param>)
  {
    [Param("landMask", BoolText(m.maskOutLand)), Param("useSRTM", BoolText(m.useSRTM)),
     Param("geometry", m.geometry), Param("invertGeometry", BoolText(m.invertGeometry)),
     Param("shorelineExtension", IntToString(m.shorelineExtension))]
  }

  /** A new LandSeaMask masks the land by SRTM and emits the five settings. */
  lemma DefaultEmission()
    ensures Emit(Defaults) == Success([Param("landMask", "true"), Param("useSRTM", "true"),
                                       Param("geometry", ""), Param("invertGeometry", "false"),
                                       Param("shorelineExtension", "0")])
  {
    assert IntToString(0) == "0";
    EmissionTail(Defaults);
    var ps := Emit(Defaults).value;
    assert Texts(Defaults)[0] == None;
    assert ps == Present(Order[1..], Texts(Defaults)[1..]);
  }

  /** Reads the fields back from the emitted children. */
  function Decode(ps: seq<Param>): (r: Option<LandSeaMask>)
  {
    var landMask :- ReadBool(ps, "landMask");
    var useSRTM :- ReadBool(ps, "useSRTM");
    var geometry :- Lookup(ps, "geometry");
    var invert :- ReadBool(ps, "invertGeometry");
    var extension :- ReadInt(ps, "shorelineExtension");
    Some(LandSeaMask(geometry, invert, landMask, extension, Unlisted(Lookup(ps, "sourceBands")), useSRTM))
  }

  /** A ready emission loses no field, provided no band name holds a comma. */
  lemma {:induction false} DecodeEmit(m: LandSeaMask)
    requires Ready(m)
    requires forall i :: 0 <= i < |m.sourceBands| ==> ',' !in m.sourceBands[i]
    ensures Decode(Emit(m).value) == Some(m)
  {
    var t := Texts(m);
    OrderDistinct();
    LookupPresent(Order, t, 0);
    LookupPresent(Order, t, 1);
    LookupPresent(Order, t, 2);
    LookupPresent(Order, t, 3);
    LookupPresent(Order, t, 4);
    LookupPresent(Order, t, 5);
    UnlistedListed(m.sourceBands);
    IntRoundTrip(m.shorelineExtension);
  }
}
