/** The Reproject operator: reprojects a product to a target coordinate
    reference system, or onto the grid of another product. */
module Reproject {
  import opened Wrappers
  import opened Text
  import opened Xml
  import opened OperatorBase

  const Name := "Reproject"
  const ShortName: Option<string> := Some("Reprojected")

  /** The order in which the emitted children appear. */
  const Order := ["crs", "resampling", "includeTiePointGrids", "addDeltaBands"]

  /** The additional source that collocating with `product` installs: a
      `collocateWith` element holding the placeholder `${collocateWith}`,
      recorded under the name `collocateWith` with `str(product)` as value. */
  function CollocateSource(product: string): (r: AdditionalSource)
  {
    AdditionalSource(TextElement("collocateWith", "${collocateWith}"), "collocateWith", product)
  }

  /** The four emitted settings, as read back from a `<parameters>` element. */
  datatype Settings = Settings(addDeltaBands: bool, crs: Option<string>, includeTiePointGrids: bool, resampling: string)

  lemma OrderDistinct()
    ensures Distinct(Order)
  {
  }

  class Reproject {
    /** The operator part: name, short name and sources the graph reads. */
    const base: Operator
    var addDeltaBands: bool
    var crs: Option<string>
    var includeTiePointGrids: bool
    var resampling: string
    var collocateWith: Option<string>

    constructor ()
      ensures fresh(base)
      ensures base.Info() == StepInfo(Name, ShortName, DefaultMandatorySourceName, [])
      ensures !addDeltaBands && crs == Some("EPSG:4326") && includeTiePointGrids
      ensures resampling == "Nearest" && collocateWith == None
    {
      base := new Operator(Name, ShortName);
      addDeltaBands := false;
      crs := Some("EPSG:4326");
      includeTiePointGrids := true;
      resampling := "Nearest";
      collocateWith := None;
    }

    /** The `collocate_with` setter, with `product` already rendered by
        `str()`: it drops the CRS and replaces the additional sources by
        the single collocation source. */
    method SetCollocateWith(product: string)
      modifies this, base
      ensures collocateWith == Some(product) && crs == None
      ensures base.Info() == old(base.Info()).(additionalSources := [CollocateSource(product)])
      ensures addDeltaBands == old(addDeltaBands) && includeTiePointGrids == old(includeTiePointGrids)
      ensures resampling == old(resampling)
      ensures Lacks(Emit(), "crs")
    {
      collocateWith := Some(product);
      crs := None;
      base.additionalSources := [CollocateSource(product)];
      Emission(this);
    }

    function Current(): (r: Settings)
      reads this
    {
      Settings(addDeltaBands, crs, includeTiePointGrids, resampling)
    }

    /** The text for each tag of `Order`; the CRS only when it is set. */
    function Texts(): (t: seq<Option<string>>)
      reads this
      ensures |t| == |Order|
    {
      [crs, Some(resampling), Some(BoolText(includeTiePointGrids)), Some(BoolText(addDeltaBands))]
    }

    /** The children of `<parameters>`, in the order of `Order`. */
    function Emit(): (r: seq<Param>)
      reads this
    {
      Present(Order, Texts())
    }
  }

  /** The CRS is emitted only when set; the other three settings always
      follow it, in this order. */
  lemma {:induction false} Emission(r: Reproject)
    ensures var ps := r.Emit();
      && Emits(ps, "crs", r.crs)
      && ps == (if r.crs.Some? then [Param("crs", r.crs.value)] else [])
               + [Param("resampling", r.resampling),
                  Param("includeTiePointGrids", BoolText(r.includeTiePointGrids)),
                  Param("addDeltaBands", BoolText(r.addDeltaBands))]
  {
    var t := r.Texts();
    OrderDistinct();
    PresentAt(Order, t, 0);
    assert Order[1..] == ["resampling", "includeTiePointGrids", "addDeltaBands"];
    PresentAll(Order[1..], t[1..]);
  }

  function Decode(ps: seq<Param>): (r: Option<Settings>)
  {
    var resampling :- Lookup(ps, "resampling");
    var grids :- ReadBool(ps, "includeTiePointGrids");
    var delta :- ReadBool(ps, "addDeltaBands");
    Some(Settings(delta, Lookup(ps, "crs"), grids, resampling))
  }

  /** The emission loses none of the four settings. */
  lemma {:induction false} DecodeEmit(r: Reproject)
    ensures Decode(r.Emit()) == Some(r.Current())
  {
    var t := r.Texts();
    OrderDistinct();
    LookupPresent(Order, t, 0);
    LookupPresent(Order, t, 1);
    LookupPresent(Order, t, 2);
    LookupPresent(Order, t, 3);
  }

  /** A new Reproject writes the default CRS, `Nearest`, and the two flags. */
  method DefaultEmission() returns (ps: seq<Param>)
    ensures ps == [Param("crs", "EPSG:4326"), Param("resampling", "Nearest"),
                   Param("includeTiePointGrids", "true"), Param("addDeltaBands", "false")]
  {
    var r := new Reproject();
    Emission(r);
    ps := r.Emit();
  }

  /** Collocating drops the `crs` child and leaves the other three. */
  method CollocatedEmission(product: string) returns (ps: seq<Param>, sources: seq<AdditionalSource>)
    ensures ps == [Param("resampling", "Nearest"), Param("includeTiePointGrids", "true"),
                   Param("addDeltaBands", "false")]
    ensures sources == [CollocateSource(product)]
  {
    var r := new Reproject();
    r.SetCollocateWith(product);
    Emission(r);
    ps := r.Emit();
    sources := r.base.additionalSources;
  }
}
