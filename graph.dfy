/** The gpt graph builder: a linear chain of processing nodes kept as an
    element tree, with the node ids, an output-name suffix listing the
    steps, and the additional sources some operators need. */
module Graph {
  import opened Wrappers
  import opened Text
  import opened Xml
  import opened OperatorBase

  /** The placeholder gpt replaces by the input product. */
  const SourcePlaceholder := "${source}"

  /** The tree of a new graph: the root `graph` holding `version` 1.0. */
  const InitialTree := Element("graph", [], None, [TextElement("version", "1.0")])

  /** Everything a graph holds. */
  datatype GraphState = GraphState(
    xml: Element,
    nodeIds: seq<string>,
    suffix: string,
    additionalSources: map<string, string>)

  const Initial := GraphState(InitialTree, [], "", map[])

  /** `sum(name in id for id in ids)`: how many ids hold `name` as a substring. */
  function CountContaining(ids: seq<string>, name: string): (n: nat)
    ensures n <= |ids|
  {
    if |ids| == 0 then 0
    else CountContaining(ids[..|ids| - 1], name) + (if Contains(ids[|ids| - 1], name) then 1 else 0)
  }

  /** The id of an operator named `name` added without an explicit id. */
  function AutoId(ids: seq<string>, name: string): (r: string)
  {
    name + NatToString(CountContaining(ids, name))
  }

  /** An automatic id starts with the operator's name, and what follows
      reads back as the number of earlier ids holding that name. */
  lemma AutoIdReadBack(ids: seq<string>, name: string)
    ensures var id := AutoId(ids, name);
      StartsWith(id, name) && ParseNat(id[|name|..]) == Some(CountContaining(ids, name))
  {
    var n := CountContaining(ids, name);
    NatRoundTrip(n);
    assert (name + NatToString(n))[|name|..] == NatToString(n);
  }

  /** The id a step gets: the explicit one verbatim, or the automatic one. */
  function StepId(ids: seq<string>, info: StepInfo, nodeId: Option<string>): (r: string)
  {
    if nodeId.Some? then nodeId.value else AutoId(ids, info.name)
  }

  /** The mandatory source of a node: the placeholder under the operator's
      own source name for the first node, otherwise a `sourceProduct`
      referring to the node before. */
  function MandatorySource(info: StepInfo, ids: seq<string>): (r: Element)
  {
    if |ids| == 0 then TextElement(info.mandatorySourceName, SourcePlaceholder)
    else Element("sourceProduct", [("refid", ids[|ids| - 1])], None, [])
  }

  function SourceElements(sources: seq<AdditionalSource>): (es: seq<Element>)
    ensures |es| == |sources|
    ensures forall i :: 0 <= i < |sources| ==> es[i] == sources[i].element
  {
    seq(|sources|, i requires 0 <= i < |sources| => sources[i].element)
  }

  /** The additional sources recorded into `m`, in list order, so that a
      later entry for a name replaces an earlier one. */
  function Merge(m: map<string, string>, sources: seq<AdditionalSource>): (r: map<string, string>)
  {
    if |sources| == 0 then m
    else Merge(m, sources[..|sources| - 1])[sources[|sources| - 1].name := sources[|sources| - 1].value]
  }

  /** The `node` element of a step; `parameters` is missing when the
      operator raised while producing it. */
  function NodeElement(id: string, info: StepInfo, ids: seq<string>, parameters: Option<Element>): (r: Element)
  {
    Element("node", [("id", id)], None,
      [TextElement("operator", info.name),
       Element("sources", [], None, [MandatorySource(info, ids)] + SourceElements(info.additionalSources))]
      + (if parameters.Some? then [parameters.value] else []))
  }

  /** The suffix token of a step: `_` and the lower-cased short name. */
  function SuffixToken(info: StepInfo): (r: string)
  {
    if info.shortName.Some? then "_" + Lower(info.shortName.value) else ""
  }

  /** One `add_node` call. The node is appended and the additional sources
      are recorded before the parameters are asked for; when that raises,
      the id and the suffix are not recorded. */
  function AddStep(s: GraphState, info: StepInfo, nodeId: Option<string>, parameters: Result<Element, Error>): (r: GraphState)
  {
    var id := StepId(s.nodeIds, info, nodeId);
    var params := if parameters.Success? then Some(parameters.value) else None;
    var xml := s.xml.(children := s.xml.children + [NodeElement(id, info, s.nodeIds, params)]);
    var merged := Merge(s.additionalSources, info.additionalSources);
    if parameters.Failure? then GraphState(xml, s.nodeIds, s.suffix, merged)
    else GraphState(xml, s.nodeIds + [id], s.suffix + SuffixToken(info), merged)
  }

  /** The `for` loop of `add_node`: each additional source element goes
      under `sources` after the mandatory one, in list order, and each
      entry is recorded in the map. */
  method CollectSources(info: StepInfo, ids: seq<string>, m: map<string, string>)
    returns (sources: seq<Element>, merged: map<string, string>)
    ensures sources == [MandatorySource(info, ids)] + SourceElements(info.additionalSources)
    ensures merged == Merge(m, info.additionalSources)
  {
    var extra := info.additionalSources;
    sources := [MandatorySource(info, ids)];
    merged := m;
    var i := 0;
    while i < |extra|
      invariant 0 <= i <= |extra|
      invariant sources == [MandatorySource(info, ids)] + SourceElements(extra[..i])
      invariant merged == Merge(m, extra[..i])
    {
      assert extra[..i + 1][..i] == extra[..i];
      sources := sources + [extra[i].element];
      merged := merged[extra[i].name := extra[i].value];
      i := i + 1;
    }
    assert extra[..i] == extra;
  }

  /** A file write, the effect of `save`. */
  datatype FileWrite = FileWrite(file: string, tree: Element)

  class Graph {
    var xml: Element
    var nodeIds: seq<string>
    var suffix: string
    var additionalSources: map<string, string>

    function State(): (r: GraphState)
      reads this
    {
      GraphState(xml, nodeIds, suffix, additionalSources)
    }

    constructor ()
      ensures State() == Initial
    {
      xml := InitialTree;
      nodeIds := [];
      suffix := "";
      additionalSources := map[];
    }

    /** `add_node(operator, node_id)`, with `parameters` the outcome of the
        operator's `_get_parameters_as_xml_node`. Returns the exception
        raised, if any. */
    method AddNode(op: Operator, nodeId: Option<string>, parameters: Result<Element, Error>)
      returns (raised: Option<Error>)
      modifies this
      ensures State() == AddStep(old(State()), op.Info(), nodeId, parameters)
      ensures raised == if parameters.Failure? then Some(parameters.error) else None
    {
      var info := op.Info();
      var id := if nodeId.Some? then nodeId.value else AutoId(nodeIds, op.name);
      var sources, merged := CollectSources(info, nodeIds, additionalSources);
      var node := Element("node", [("id", id)], None,
                          [TextElement("operator", op.name), Element("sources", [], None, sources)]);
      if parameters.Failure? {
        assert node == NodeElement(id, info, nodeIds, None);
        xml := xml.(children := xml.children + [node]);
        additionalSources := merged;
        raised := Some(parameters.error);
        return;
      }
      node := node.(children := node.children + [parameters.value]);
      assert node == NodeElement(id, info, nodeIds, Some(parameters.value));
      xml := xml.(children := xml.children + [node]);
      additionalSources := merged;
      nodeIds := nodeIds + [id];
      if op.shortName.Some? {
        suffix := suffix + "_" + Lower(op.shortName.value);
      }
      raised := None;
    }

    /** `save(file)`: the whole tree written to `file`. */
    method Save(file: string) returns (w: FileWrite)
      ensures w == FileWrite(file, xml)
    {
      w := FileWrite(file, xml);
    }
  }

  /** A later entry for a name wins over every earlier one. */
  lemma {:induction false} MergeLastWins(m: map<string, string>, sources: seq<AdditionalSource>, k: int)
    requires 0 <= k < |sources|
    requires forall j :: k < j < |sources| ==> sources[j].name != sources[k].name
    ensures sources[k].name in Merge(m, sources)
    ensures Merge(m, sources)[sources[k].name] == sources[k].value
  {
    var n := |sources|;
    if k < n - 1 {
      MergeLastWins(m, sources[..n - 1], k);
    }
  }

  /** A name no entry mentions keeps its old value, or stays absent. */
  lemma {:induction false} MergeKeeps(m: map<string, string>, sources: seq<AdditionalSource>, name: string)
    requires forall j :: 0 <= j < |sources| ==> sources[j].name != name
    ensures name in Merge(m, sources) <==> name in m
    ensures name in m ==> Merge(m, sources)[name] == m[name]
  {
    var n := |sources|;
    if n > 0 {
      MergeKeeps(m, sources[..n - 1], name);
    }
  }

  /** Node `i` sits at `children[i + 1]`: its id is `ids[i]`, and its
      first source is the placeholder for the first node and a reference to
      the node before for every later one. */
  predicate LinksTo(children: seq<Element>, ids: seq<string>, i: int)
    requires 0 <= i < |ids| && i + 1 < |children|
  {
    var node := children[i + 1];
    && node.tag == "node" && node.attributes == [("id", ids[i])]
    && |node.children| >= 2 && node.children[1].tag == "sources"
    && |node.children[1].children| >= 1
    && (i == 0 ==> node.children[1].children[0].text == Some(SourcePlaceholder))
    && (i > 0 ==> node.children[1].children[0] == Element("sourceProduct", [("refid", ids[i - 1])], None, []))
  }

  /** The chain invariant: `version`, then one node per recorded id, in
      order, each fed by the one before. */
  predicate Chained(s: GraphState)
  {
    && s.xml.tag == "graph"
    && |s.xml.children| == |s.nodeIds| + 1
    && s.xml.children[0] == TextElement("version", "1.0")
    && forall i :: 0 <= i < |s.nodeIds| ==> LinksTo(s.xml.children, s.nodeIds, i)
  }

  /** Node `i` runs the operator of `info`, its `sources` hold the
      mandatory source followed by the additional source elements in list
      order, and its last and only other child is the step's `parameters`.
      The mandatory source of the first node is the placeholder under the
      operator's own source name; every later node refers to the node
      before. */
  predicate RunsStep(children: seq<Element>, ids: seq<string>, i: int, info: StepInfo, parameters: Element)
    requires 0 <= i < |ids| && i + 1 < |children|
  {
    var node := children[i + 1];
    && |node.children| >= 2
    && node.children[2..] == [parameters]
    && node.children[0] == TextElement("operator", info.name)
    && node.children[1].children
       == [if i == 0 then TextElement(info.mandatorySourceName, SourcePlaceholder)
           else Element("sourceProduct", [("refid", ids[i - 1])], None, [])]
          + SourceElements(info.additionalSources)
  }

  lemma InitialChained()
    ensures Chained(Initial)
    ensures Initial.nodeIds == [] && Initial.suffix == "" && Initial.additionalSources == map[]
  {
  }

  /** A step whose parameters are produced keeps the chain invariant. */
  lemma {:induction false} AddStepChained(s: GraphState, info: StepInfo, nodeId: Option<string>, parameters: Element)
    requires Chained(s)
    ensures Chained(AddStep(s, info, nodeId, Success(parameters)))
  {
    var r := AddStep(s, info, nodeId, Success(parameters));
    var n := |s.nodeIds|;
    forall i | 0 <= i < |r.nodeIds| ensures LinksTo(r.xml.children, r.nodeIds, i) {
      if i < n {
        assert r.xml.children[i + 1] == s.xml.children[i + 1];
        assert LinksTo(s.xml.children, s.nodeIds, i);
        assert r.nodeIds[i] == s.nodeIds[i];
        if i > 0 {
          assert r.nodeIds[i - 1] == s.nodeIds[i - 1];
        }
      }
    }
  }

  /** `add_node` only appends: the earlier nodes and ids stay as they were. */
  lemma AppendOnly(s: GraphState, info: StepInfo, nodeId: Option<string>, parameters: Result<Element, Error>)
    ensures var r := AddStep(s, info, nodeId, parameters);
      && |r.xml.children| == |s.xml.children| + 1
      && r.xml.children[..|s.xml.children|] == s.xml.children
      && |r.nodeIds| == |s.nodeIds| + (if parameters.Success? then 1 else 0)
      && r.nodeIds[..|s.nodeIds|] == s.nodeIds
  {
  }

  /** The suffix grows by `_` and the lower-cased short name, if there is
      one, and only when the step succeeds. */
  lemma SuffixGrowth(s: GraphState, info: StepInfo, nodeId: Option<string>, parameters: Result<Element, Error>)
    ensures var r := AddStep(s, info, nodeId, parameters);
      r.suffix == s.suffix + (if parameters.Success? && info.shortName.Some?
                              then "_" + Lower(info.shortName.value) else "")
  {
  }

  /** One successful `add_node` call. */
  datatype Step = Step(info: StepInfo, nodeId: Option<string>, parameters: Element)

  /** The graph after the given calls, in order, starting from a new one. */
  function Build(steps: seq<Step>): (r: GraphState)
  {
    if |steps| == 0 then Initial
    else
      var last := steps[|steps| - 1];
      AddStep(Build(steps[..|steps| - 1]), last.info, last.nodeId, Success(last.parameters))
  }

  /** The suffix tokens of the steps, in order. */
  function Suffixes(steps: seq<Step>): (r: string)
  {
    if |steps| == 0 then "" else Suffixes(steps[..|steps| - 1]) + SuffixToken(steps[|steps| - 1].info)
  }

  /** A successful step runs its operator on its sources, with its
      parameters under it, as the new last node, and leaves what the earlier nodes run as it was. */
  lemma {:induction false} AddStepRuns(s: GraphState, info: StepInfo, nodeId: Option<string>, parameters: Element)
    requires Chained(s)
    ensures var r := AddStep(s, info, nodeId, Success(parameters));
      && |r.nodeIds| == |s.nodeIds| + 1 && |r.xml.children| == |r.nodeIds| + 1
      && RunsStep(r.xml.children, r.nodeIds, |s.nodeIds|, info, parameters)
      && forall i, other, p :: 0 <= i < |s.nodeIds| && RunsStep(s.xml.children, s.nodeIds, i, other, p) ==>
           RunsStep(r.xml.children, r.nodeIds, i, other, p)
  {
    var r := AddStep(s, info, nodeId, Success(parameters));
    var n := |s.nodeIds|;
    StepRecords(s, info, nodeId, parameters);
    assert r.xml.children == s.xml.children
      + [NodeElement(StepId(s.nodeIds, info, nodeId), info, s.nodeIds, Some(parameters))];
    if n > 0 {
      assert r.nodeIds[n - 1] == s.nodeIds[n - 1];
    }
    forall i, other, p | 0 <= i < n && RunsStep(s.xml.children, s.nodeIds, i, other, p)
      ensures RunsStep(r.xml.children, r.nodeIds, i, other, p)
    {
      assert r.xml.children[i + 1] == s.xml.children[i + 1];
      if i > 0 {
        assert r.nodeIds[i - 1] == s.nodeIds[i - 1];
      }
    }
  }

  /** After `n` calls there are exactly `n` nodes in call order, chained,
      each running its operator on its sources with its parameters, and the suffix lists the
      short names. */
  lemma {:induction false} BuildShape(steps: seq<Step>)
    ensures var s := Build(steps);
      && Chained(s)
      && |s.nodeIds| == |steps|
      && s.suffix == Suffixes(steps)
      && forall i :: 0 <= i < |steps| ==> RunsStep(s.xml.children, s.nodeIds, i, steps[i].info, steps[i].parameters)
  {
    if |steps| > 0 {
      var n := |steps| - 1;
      var last := steps[n];
      var prev := Build(steps[..n]);
      BuildShape(steps[..n]);
      AddStepChained(prev, last.info, last.nodeId, last.parameters);
      AddStepRuns(prev, last.info, last.nodeId, last.parameters);
      StepRecords(prev, last.info, last.nodeId, last.parameters);
      var s := Build(steps);
      forall i | 0 <= i < |steps| ensures RunsStep(s.xml.children, s.nodeIds, i, steps[i].info, steps[i].parameters) {
        if i < n {
          assert steps[..n][i] == steps[i];
        }
      }
    }
  }

  /** A step that succeeds records its id and its suffix token. */
  lemma StepRecords(s: GraphState, info: StepInfo, nodeId: Option<string>, parameters: Element)
    ensures var r := AddStep(s, info, nodeId, Success(parameters));
      r.nodeIds == s.nodeIds + [StepId(s.nodeIds, info, nodeId)] && r.suffix == s.suffix + SuffixToken(info)
  {
  }

  /** When the operator raises, its node is still appended, without
      parameters, and its sources are recorded, but neither its id nor its
      suffix token: the graph no longer has one node per id. */
  lemma FailedStep(s: GraphState, info: StepInfo, nodeId: Option<string>, error: Error)
    ensures var r := AddStep(s, info, nodeId, Failure(error));
      && r.nodeIds == s.nodeIds && r.suffix == s.suffix
      && r.additionalSources == Merge(s.additionalSources, info.additionalSources)
      && r.xml.children == s.xml.children + [NodeElement(StepId(s.nodeIds, info, nodeId), info, s.nodeIds, None)]
      && |r.xml.children[|r.xml.children| - 1].children| == 2
      && (Chained(s) ==> !Chained(r))
  {
  }

  /** `name` is held by an id that starts with it. */
  lemma PrefixContains(id: string, name: string)
    requires StartsWith(id, name)
    ensures Contains(id, name)
  {
  }

  /** The first automatic id of an operator is its name and `0`; after one
      id that starts with the name, it is the name and `1`. */
  lemma AutoIdsFromNew(name: string, id: string)
    requires StartsWith(id, name)
    ensures AutoId([], name) == name + "0"
    ensures AutoId([id], name) == name + "1"
  {
    assert DigitChar(0) == '0' && DigitChar(1) == '1';
    PrefixContains(id, name);
    assert [id][..0] == [];
  }

  /** Two steps of one operator in a new graph get the ids `<name>0` and
      `<name>1` (`Subset0`, `Subset1`), and the suffix names it twice. */
  lemma {:induction false} TwoAutoSteps(info: StepInfo, first: Element, second: Element)
    ensures var s := AddStep(AddStep(Initial, info, None, Success(first)), info, None, Success(second));
      s.nodeIds == [info.name + "0", info.name + "1"] && s.suffix == SuffixToken(info) + SuffixToken(info)
  {
    var name := info.name;
    assert StartsWith(name + "0", name) by {
      assert (name + "0")[..|name|] == name;
    }
    AutoIdsFromNew(name, name + "0");
    var s1 := AddStep(Initial, info, None, Success(first));
    StepRecords(Initial, info, None, first);
    StepRecords(s1, info, None, second);
  }

  /** Ids are not checked: an explicit id `<name>1` collides with the
      automatic id of the next step of that operator. */
  lemma {:induction false} IdsCanCollide(info: StepInfo, first: Element, second: Element)
    ensures var id := info.name + "1";
      var s := AddStep(AddStep(Initial, info, Some(id), Success(first)), info, None, Success(second));
      s.nodeIds == [id, id]
  {
    var name := info.name;
    var id := name + "1";
    assert StartsWith(id, name) by {
      assert id[..|name|] == name;
    }
    AutoIdsFromNew(name, id);
    var s1 := AddStep(Initial, info, Some(id), Success(first));
    StepRecords(Initial, info, Some(id), first);
    StepRecords(s1, info, None, second);
  }

  /** Every id that starts with `name` holds it, so each is counted. */
  lemma {:induction false} CountAllContaining(ids: seq<string>, name: string)
    requires forall j :: 0 <= j < |ids| ==> StartsWith(ids[j], name)
    ensures CountContaining(ids, name) == |ids|
  {
    if |ids| > 0 {
      CountAllContaining(ids[..|ids| - 1], name);
      PrefixContains(ids[|ids| - 1], name);
    }
  }

  /** The ids `<name>0`, `<name>1`, ..., `<name><k - 1>`. */
  function NumberedIds(name: string, k: nat): (r: seq<string>)
  {
    seq(k, j requires 0 <= j < k => name + NatToString(j))
  }

  /** Steps of one operator without explicit ids, one per parameters element. */
  function Repeated(info: StepInfo, parameters: seq<Element>): (r: seq<Step>)
  {
    seq(|parameters|, j requires 0 <= j < |parameters| => Step(info, None, parameters[j]))
  }

  /** After `<name>0` to `<name><n - 1>` the next automatic id is `<name><n>`. */
  lemma AutoIdAfterNumbered(name: string, n: nat)
    ensures AutoId(NumberedIds(name, n), name) == name + NatToString(n)
  {
    var ids := NumberedIds(name, n);
    forall j | 0 <= j < n ensures StartsWith(ids[j], name) {
      assert (name + NatToString(j))[..|name|] == name;
    }
    CountAllContaining(ids, name);
  }

  /** The last call of a build records the id of its step. */
  lemma BuildIds(steps: seq<Step>)
    requires |steps| > 0
    ensures var n := |steps| - 1; var prev := Build(steps[..n]).nodeIds;
      Build(steps).nodeIds == prev + [StepId(prev, steps[n].info, steps[n].nodeId)]
  {
    var n := |steps| - 1;
    StepRecords(Build(steps[..n]), steps[n].info, steps[n].nodeId, steps[n].parameters);
  }

  /** The ids the given calls record, in order, each chosen from the ids
      before it. */
  function StepIds(steps: seq<Step>): (r: seq<string>)
  {
    if |steps| == 0 then []
    else
      var n := |steps| - 1;
      var prev := StepIds(steps[..n]);
      prev + [StepId(prev, steps[n].info, steps[n].nodeId)]
  }

  lemma {:induction false} BuildStepIds(steps: seq<Step>)
    ensures Build(steps).nodeIds == StepIds(steps)
  {
    if |steps| > 0 {
      BuildStepIds(steps[..|steps| - 1]);
      BuildIds(steps);
    }
  }

  lemma {:induction false} RepeatedStepIds(info: StepInfo, parameters: seq<Element>)
    ensures StepIds(Repeated(info, parameters)) == NumberedIds(info.name, |parameters|)
  {
    if |parameters| > 0 {
      var n := |parameters| - 1;
      var steps := Repeated(info, parameters);
      assert steps[..n] == Repeated(info, parameters[..n]);
      RepeatedStepIds(info, parameters[..n]);
      assert steps[n] == Step(info, None, parameters[n]);
      AutoIdAfterNumbered(info.name, n);
      assert NumberedIds(info.name, n + 1) == NumberedIds(info.name, n) + [info.name + NatToString(n)];
    }
  }

  /** `k` steps of one operator without explicit ids, in a new graph, get
      the ids `<name>0` to `<name><k - 1>`, in order. */
  lemma RepeatedAutoIds(info: StepInfo, parameters: seq<Element>)
    ensures Build(Repeated(info, parameters)).nodeIds == NumberedIds(info.name, |parameters|)
  {
    BuildStepIds(Repeated(info, parameters));
    RepeatedStepIds(info, parameters);
  }
}
