/** The older Reproject operator, without a collocation source: it always
    writes all four settings. */
module LegacyReproject {
  import opened Wrappers
  import opened Text
  import opened Xml
  import opened OperatorBase

  const Name := "Reproject"
  const ShortName: Option<string> := Some("Reprojected")

  datatype Reproject = Reproject(
    addDeltaBands: bool,
    crs: string,
    includeTiePointGrids: bool,
    resampling: string)

  /** The field values a new Reproject starts with. */
  const Defaults := Reproject(false, "EPSG:4326", true, "Nearest")

  /** The order in which the emitted children appear. */
  const Order := ["crs", "resampling", "includeTiePointGrids", "addDeltaBands"]

  /** The older operator has no additional sources. */
  method NewOperator() returns (op: Operator)
    ensures fresh(op) && op.Info() == StepInfo(Name, ShortName, DefaultMandatorySourceName, [])
  {
    op := new Operator(Name, ShortName);
  }

  function Texts(r: Reproject): (t: seq<Option<string>>)
    ensures |t| == |Order|
  {
    [Some(r.crs), Some(r.resampling), Some(BoolText(r.includeTiePointGrids)), Some(BoolText(r.addDeltaBands))]
  }

  lemma OrderDistinct()
    ensures Distinct(Order)
  {
  }

  /** The children of `<parameters>`, in the order of `Order`. */
  function Emit(r: Reproject): (ps: seq<Param>)
  {
    Present(Order, Texts(r))
  }

  /** Exactly four children, `crs` included whatever its value. */
  lemma {:induction false} Emission(r: Reproject)
    ensures Emit(r) == [Param("crs", r.crs), Param("resampling", r.resampling),
                        Param("includeTiePointGrids", BoolText(r.includeTiePointGrids)),
                        Param("addDeltaBands", BoolText(r.addDeltaBands))]
  {
    PresentAll(Order, Texts(r));
  }

  function Decode(ps: seq<Param>): (r: Option<Reproject>)
  {
    var crs :- Lookup(ps, "crs");
    var resampling :- Lookup(ps, "resampling");
    var grids :- ReadBool(ps, "includeTiePointGrids");
    var delta :- ReadBool(ps, "addDeltaBands");
    Some(Reproject(delta, crs, grids, resampling))
  }

  /** The emission loses no field. */
  lemma {:induction false} DecodeEmit(r: Reproject)
    ensures Decode(Emit(r)) == Some(r)
  {
    OrderDistinct();
    LookupPresent(Order, Texts(r), 0);
    LookupPresent(Order, Texts(r), 1);
    LookupPresent(Order, Texts(r), 2);
    LookupPresent(Order, Texts(r), 3);
  }
}
