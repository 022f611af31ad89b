/** The BandMaths operator: builds a product from bands computed by
    expressions over the source bands. */
module BandMaths {
  import opened Wrappers
  import opened Text
  import opened Xml
  import opened OperatorBase

  const Name := "BandMaths"
  const ShortName: Option<string> := Some("BandMaths")

  /** One band to compute, as `add_target_band` records it. */
  datatype TargetBand = TargetBand(
    name: string,
    expression: string,
    type_: string,
    description: Option<string>,
    unit: Option<string>,
    noDataValue: Scalar)

  /** The order of the children of a `targetBand` element. */
  const BandOrder := ["name", "type", "expression", "description", "unit", "noDataValue"]

  lemma BandOrderDistinct()
    ensures Distinct(BandOrder)
  {
  }

  /** The text for each tag of `BandOrder`; description and unit only when set. */
  function BandTexts(b: TargetBand): (t: seq<Option<string>>)
    ensures |t| == |BandOrder|
  {
    [Some(b.name), Some(b.type_), Some(b.expression), b.description, b.unit, Some(ScalarText(b.noDataValue))]
  }

  /** The children of one `targetBand` element. */
  function BandParams(b: TargetBand): (r: seq<Param>)
  {
    Present(BandOrder, BandTexts(b))
  }

  /** One `<targetBand>` element. */
  function BandElement(b: TargetBand): (r: Element)
  {
    Element("targetBand", [], None, Elements(BandParams(b)))
  }

  /** The `<parameters>` element for these bands: a `targetBands` element
      with one `targetBand` per band, in order, and an empty `variables`. */
  function Node(bands: seq<TargetBand>): (r: Element)
  {
    Element("parameters", [], None,
      [Element("targetBands", [], None, BandElements(bands)), Element("variables", [], None, [])])
  }

  function BandElements(bands: seq<TargetBand>): (es: seq<Element>)
    ensures |es| == |bands|
    ensures forall i :: 0 <= i < |bands| ==> es[i] == BandElement(bands[i])
  {
    seq(|bands|, i requires 0 <= i < |bands| => BandElement(bands[i]))
  }

  class BandMaths {
    /** The operator part: name, short name and sources the graph reads. */
    const base: Operator
    var targetBands: seq<TargetBand>

    constructor ()
      ensures fresh(base)
      ensures base.Info() == StepInfo(Name, ShortName, DefaultMandatorySourceName, [])
      ensures targetBands == []
    {
      base := new Operator(Name, ShortName);
      targetBands := [];
    }

    /** `add_target_band`: appends one band, leaving the others alone. */
    method AddTargetBand(name: string, expression: string, type_: string := "float32",
                         description: Option<string> := None, unit: Option<string> := None,
                         noDataValue: Scalar := StrScalar("NaN"))
      modifies this
      ensures targetBands == old(targetBands) + [TargetBand(name, expression, type_, description, unit, noDataValue)]
    {
      targetBands := targetBands + [TargetBand(name, expression, type_, description, unit, noDataValue)];
    }

    /** `_get_parameters_as_xml_node`: one `targetBand` per band, appended
        in a loop. */
    method GetParametersAsXmlNode() returns (e: Element)
      ensures e == Node(targetBands)
    {
      var bands := targetBands;
      var children: seq<Element> := [];
      var i := 0;
      while i < |bands|
        invariant 0 <= i <= |bands|
        invariant |children| == i
        invariant forall k :: 0 <= k < i ==> children[k] == BandElement(bands[k])
      {
        children := children + [BandElement(bands[i])];
        i := i + 1;
      }
      assert children == BandElements(bands);
      e := Element("parameters", [], None,
                   [Element("targetBands", [], None, children), Element("variables", [], None, [])]);
    }
  }

  /** The `targetBand` elements under `targetBands`, in their order. */
  function BandElementsOf(e: Element): (r: seq<Element>)
  {
    if |e.children| > 0 then e.children[0].children else []
  }

  /** `targetBands` and an empty `variables` are always present; there is
      one `targetBand` per band, in insertion order. */
  lemma NodeShape(bands: seq<TargetBand>)
    ensures var e := Node(bands);
      && e.tag == "parameters" && |e.children| == 2
      && e.children[0].tag == "targetBands"
      && e.children[1] == Element("variables", [], None, [])
      && |BandElementsOf(e)| == |bands|
      && forall i :: 0 <= i < |bands| ==> BandElementsOf(e)[i] == BandElement(bands[i])
  {
  }

  /** Adding a band adds one `targetBand` at the end and changes no other. */
  lemma {:induction false} NodeAppend(bands: seq<TargetBand>, b: TargetBand)
    ensures BandElementsOf(Node(bands + [b])) == BandElementsOf(Node(bands)) + [BandElement(b)]
  {
    var xs := BandElementsOf(Node(bands + [b]));
    var ys := BandElementsOf(Node(bands)) + [BandElement(b)];
    assert |xs| == |ys|;
    forall i | 0 <= i < |xs| ensures xs[i] == ys[i] {
    }
  }

  /** Description and unit are emitted only when set, in the order of
      `BandOrder`. */
  lemma {:induction false} BandEmission(b: TargetBand)
    ensures var ps := BandParams(b);
      && InOrder(ps, BandOrder)
      && Emits(ps, "description", b.description)
      && Emits(ps, "unit", b.unit)
  {
    var t := BandTexts(b);
    BandOrderDistinct();
    PresentInOrder(BandOrder, t);
    PresentAt(BandOrder, t, 3);
    PresentAt(BandOrder, t, 4);
  }

  /** Name, type and expression always come first, in this order. */
  lemma {:induction false} BandHead(b: TargetBand)
    ensures var ps := BandParams(b);
      && |ps| >= 3
      && ps[..3] == [Param("name", b.name), Param("type", b.type_), Param("expression", b.expression)]
  {
    var t := BandTexts(b);
    PresentAppend(BandOrder, t, 3);
    assert BandOrder[..3] == ["name", "type", "expression"];
    PresentAll(BandOrder[..3], t[..3]);
    var head := Present(BandOrder[..3], t[..3]);
    assert head == [Param("name", b.name), Param("type", b.type_), Param("expression", b.expression)];
    var ps := BandParams(b);
    assert ps == head + Present(BandOrder[3..], t[3..]);
    assert ps[..3] == head;
  }

  /** The no-data value always comes last, as `str()` of the value. */
  lemma {:induction false} BandTail(b: TargetBand)
    ensures var ps := BandParams(b);
      && |ps| >= 1
      && ps[|ps| - 1] == Param("noDataValue", ScalarText(b.noDataValue))
  {
    var t := BandTexts(b);
    PresentAppend(BandOrder, t, 5);
    assert BandOrder[5..] == ["noDataValue"];
    PresentAll(BandOrder[5..], t[5..]);
    var ps := BandParams(b);
    assert ps == Present(BandOrder[..5], t[..5]) + [Param("noDataValue", ScalarText(b.noDataValue))];
  }

  /** A band added with only a name and an expression. */
  lemma DefaultBandEmission(name: string, expression: string)
    ensures BandParams(TargetBand(name, expression, "float32", None, None, StrScalar("NaN")))
         == [Param("name", name), Param("type", "float32"), Param("expression", expression),
             Param("noDataValue", "NaN")]
  {
    var b := TargetBand(name, expression, "float32", None, None, StrScalar("NaN"));
    var t := BandTexts(b);
    var front, front_t := BandOrder[..5], t[..5];
    PresentAppend(BandOrder, t, 5);
    assert BandOrder[5..] == ["noDataValue"];
    PresentAll(BandOrder[5..], t[5..]);
    PresentAppend(front, front_t, 3);
    assert front[..3] == ["name", "type", "expression"];
    PresentAll(front[..3], front_t[..3]);
    assert front[3..] == ["description", "unit"] && front_t[3..] == [None, None];
    PresentNone(front[3..], front_t[3..]);
  }

  /** Reads a band back from the children of its element. */
  function DecodeBand(ps: seq<Param>): (r: Option<TargetBand>)
  {
    var name :- Lookup(ps, "name");
    var type_ :- Lookup(ps, "type");
    var expression :- Lookup(ps, "expression");
    var noData :- Lookup(ps, "noDataValue");
    Some(TargetBand(name, expression, type_, Lookup(ps, "description"), Lookup(ps, "unit"), ParseScalar(noData)))
  }

  /** A band element loses nothing, provided a textual no-data value does
      not read as an integer. */
  lemma {:induction false} DecodeBandElement(b: TargetBand)
    requires Canonical(b.noDataValue)
    ensures DecodeBand(Unelements(BandElement(b).children)) == Some(b)
  {
    var t := BandTexts(b);
    UnelementsElements(BandParams(b));
    BandOrderDistinct();
    LookupPresent(BandOrder, t, 0);
    LookupPresent(BandOrder, t, 1);
    LookupPresent(BandOrder, t, 2);
    LookupPresent(BandOrder, t, 3);
    LookupPresent(BandOrder, t, 4);
    LookupPresent(BandOrder, t, 5);
    ScalarRoundTrip(b.noDataValue);
  }
}
