/** The operator base class: the identity, optional suffix token, name of
    the mandatory source element and list of additional sources that the
    graph reads from every operator. */
module OperatorBase {
  import opened Wrappers
  import opened Xml

  /** The Python exceptions an emitter can raise. */
  datatype Error = AssertionError | NotImplementedError | AttributeError

  /** One entry of `_additional_sources`: the element placed under the
      node's `sources`, and the name and value the graph records. */
  datatype AdditionalSource = AdditionalSource(element: Element, name: string, value: string)

  /** The four fields of an operator that the graph reads. */
  datatype StepInfo = StepInfo(
    name: string,
    shortName: Option<string>,
    mandatorySourceName: string,
    additionalSources: seq<AdditionalSource>)

  const DefaultMandatorySourceName := "source"

  class Operator {
    var name: string
    var shortName: Option<string>
    var mandatorySourceName: string
    var additionalSources: seq<AdditionalSource>

    /** Stores the names as given; every operator starts with the
        mandatory source `source` and no additional sources. */
    constructor (name: string, shortName: Option<string>)
      ensures Info() == StepInfo(name, shortName, DefaultMandatorySourceName, [])
      ensures ToString() == name
    {
      this.name := name;
      this.shortName := shortName;
      this.mandatorySourceName := DefaultMandatorySourceName;
      this.additionalSources := [];
    }

    function Info(): (r: StepInfo)
      reads this
    {
      StepInfo(name, shortName, mandatorySourceName, additionalSources)
    }

    /** `repr(operator)`. */
    function ToString(): (r: string)
      reads this
    {
      name
    }

    /** The base class has no parameters to give: it always raises. */
    method GetParametersAsXmlNode() returns (r: Result<Element, Error>)
      ensures r == Failure(NotImplementedError)
    {
      r := Failure(NotImplementedError);
    }
  }
}
