/** The BandSelect operator: a product holding only the selected bands. */
module BandSelect {
  import opened Wrappers
  import opened Xml
  import opened OperatorBase

  const Name := "BandSelect"
  const ShortName: Option<string> := Some("BandSelect")

  datatype BandSelect = BandSelect(
    bandNamePattern: Option<string>,
    selectedPolarizations: seq<string>,
    sourceBands: seq<string>)

  /** The field values a new BandSelect starts with. */
  const Defaults := BandSelect(None, [], [])

  /** The order in which the emitted children appear. */
  const Order := ["selectedPolarisations", "sourceBands", "bandNamePattern"]

  method NewOperator() returns (op: Operator)
    ensures fresh(op) && op.Info() == StepInfo(Name, ShortName, DefaultMandatorySourceName, [])
  {
    op := new Operator(Name, ShortName);
  }

  /** The text for each tag of `Order`, or none when the tag is left out. */
  function Texts(b: BandSelect): (t: seq<Option<string>>)
    ensures |t| == |Order|
  {
    [Listed(b.selectedPolarizations), Listed(b.sourceBands), b.bandNamePattern]
  }

  lemma OrderDistinct()
    ensures Distinct(Order)
  {
  }

  /** The children of `<parameters>`, in the order of `Order`. */
  function Emit(b: BandSelect): (r: seq<Param>)
  {
    Present(Order, Texts(b))
  }

  /** The two lists are emitted only when non-empty and the pattern only
      when set, in the order of `Order`. */
  lemma {:induction false} Emission(b: BandSelect)
    ensures var r := Emit(b);
      && InOrder(r, Order)
      && Emits(r, "selectedPolarisations", Listed(b.selectedPolarizations))
      && Emits(r, "sourceBands", Listed(b.sourceBands))
      && Emits(r, "bandNamePattern", b.bandNamePattern)
  {
    OrderDistinct();
    PresentInOrder(Order, Texts(b));
    PresentAt(Order, Texts(b), 0);
    PresentAt(Order, Texts(b), 1);
    PresentAt(Order, Texts(b), 2);
  }

  /** A new BandSelect emits an empty `<parameters>`. */
  lemma DefaultEmission()
    ensures Emit(Defaults) == []
  {
    assert Texts(Defaults) == [None, None, None];
  }

  /** Reads the fields back from the emitted children. */
  function Decode(ps: seq<Param>): (r: BandSelect)
  {
    BandSelect(Lookup(ps, "bandNamePattern"), Unlisted(Lookup(ps, "selectedPolarisations")),
               Unlisted(Lookup(ps, "sourceBands")))
  }

  /** The emission loses no field, provided no polarisation or band name
      holds a comma. */
  lemma {:induction false} DecodeEmit(b: BandSelect)
    requires forall i :: 0 <= i < |b.selectedPolarizations| ==> ',' !in b.selectedPolarizations[i]
    requires forall i :: 0 <= i < |b.sourceBands| ==> ',' !in b.sourceBands[i]
    ensures Decode(Emit(b)) == b
  {
    OrderDistinct();
    LookupPresent(Order, Texts(b), 0);
    LookupPresent(Order, Texts(b), 1);
    LookupPresent(Order, Texts(b), 2);
    UnlistedListed(b.selectedPolarizations);
    UnlistedListed(b.sourceBands);
  }
}
