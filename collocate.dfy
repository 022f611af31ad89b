/** The Collocate operator: stacks several products on the grid of a master
    product. */
module Collocate {
  import opened Wrappers
  import opened Text
  import opened Paths
  import opened Xml
  import opened OperatorBase

  const Name := "Collocate"
  const ShortName: Option<string> := Some("Collocate")

  datatype Collocate = Collocate(
    masterComponentPattern: string,
    masterProductName: Option<string>,
    renameMasterComponents: bool,
    renameSlaveComponents: bool,
    resamplingType: string,
    slaveComponentPattern: string,
    sourceProductPaths: seq<Path>,
    targetProductType: string)

  /** The field values a new Collocate starts with. */
  const Defaults := Collocate("${ORIGINAL_NAME}_M", None, true, true, "NEAREST_NEIGHBOUR",
                              "${ORIGINAL_NAME}_S${SLAVE_NUMBER_ID}", [], "COLLOCATED")

  /** The order in which the emitted children appear. */
  const Order := ["sourceProductPaths", "masterProductName", "targetProductType",
                  "renameMasterComponents", "renameSlaveComponents", "masterComponentPattern",
                  "slaveComponentPattern", "resamplingType"]

  method NewOperator() returns (op: Operator)
    ensures fresh(op) && op.Info() == StepInfo(Name, ShortName, DefaultMandatorySourceName, [])
  {
    op := new Operator(Name, ShortName);
  }

  /** `map(str, paths)`. */
  function Rendered(paths: seq<Path>): (r: seq<string>)
    ensures |r| == |paths| && forall i :: 0 <= i < |r| ==> r[i] == ToString(paths[i])
  {
    seq(|paths|, i requires 0 <= i < |paths| => ToString(paths[i]))
  }

  /** The emission's two assertions: a master product name and at least
      one source path. */
  predicate Ready(c: Collocate)
  {
    c.masterProductName.Some? && |c.sourceProductPaths| > 0
  }

  /** The text for each tag of `Order`; every tag has one once `Ready`. */
  function Texts(c: Collocate): (t: seq<Option<string>>)
    ensures |t| == |Order|
  {
    [Some(Join(",", Rendered(c.sourceProductPaths))), c.masterProductName,
     Some(c.targetProductType), Some(BoolText(c.renameMasterComponents)),
     Some(BoolText(c.renameSlaveComponents)), Some(c.masterComponentPattern),
     Some(c.slaveComponentPattern), Some(c.resamplingType)]
  }

  lemma OrderDistinct()
    ensures Distinct(Order)
  {
  }

  /** The children of `<parameters>`, or the `AssertionError` raised when
      the collocation is not `Ready`. */
  function Emit(c: Collocate): (r: Result<seq<Param>, Error>)
    ensures r.Failure? <==> !Ready(c)
    ensures r.Failure? ==> r.error == AssertionError
  {
    if c.masterProductName.None? then Failure(AssertionError)
    else if |c.sourceProductPaths| == 0 then Failure(AssertionError)
    else Success(Present(Order, Texts(c)))
  }

  /** A ready collocation emits exactly the eight children of `Order`, in
      that order, the paths comma-joined in list order. */
  lemma {:induction false} Emission(c: Collocate)
    requires Ready(c)
    ensures var ps := Emit(c).value;
      && |ps| == 8
      && ps[0] == Param("sourceProductPaths", Join(",", Rendered(c.sourceProductPaths)))
      && ps[1] == Param("masterProductName", c.masterProductName.value)
      && ps[2] == Param("targetProductType", c.targetProductType)
      && ps[3] == Param("renameMasterComponents", BoolText(c.renameMasterComponents))
      && ps[4] == Param("renameSlaveComponents", BoolText(c.renameSlaveComponents))
      && ps[5] == Param("masterComponentPattern", c.masterComponentPattern)
      && ps[6] == Param("slaveComponentPattern", c.slaveComponentPattern)
      && ps[7] == Param("resamplingType", c.resamplingType)
  {
    PresentAll(Order, Texts(c));
  }

  /** A new Collocate cannot be emitted: it has neither a master product
      name nor source paths. */
  lemma DefaultFails()
    ensures Emit(Defaults) == Failure(AssertionError)
  {
  }

  /** `[Path(s) for s in text.split(',')]`. */
  function ParsedPaths(text: string): (r: seq<Path>)
  {
    var pieces := Split(text, ',');
    seq(|pieces|, i requires 0 <= i < |pieces| => Parse(pieces[i]))
  }

  /** Reads the fields back from the emitted children. */
  function Decode(ps: seq<Param>): (r: Option<Collocate>)
  {
    var paths :- Lookup(ps, "sourceProductPaths");
    var master :- Lookup(ps, "masterProductName");
    var targetType :- Lookup(ps, "targetProductType");
    var renameMaster :- ReadBool(ps, "renameMasterComponents");
    var renameSlave :- ReadBool(ps, "renameSlaveComponents");
    var masterPattern :- Lookup(ps, "masterComponentPattern");
    var slavePattern :- Lookup(ps, "slaveComponentPattern");
    var resampling :- Lookup(ps, "resamplingType");
    Some(Collocate(masterPattern, Some(master), renameMaster, renameSlave, resampling,
                   slavePattern, ParsedPaths(paths), targetType))
  }

  /** Well-formed paths whose written forms hold no comma survive the
      comma-join. */
  lemma {:induction false} ParsedRendered(paths: seq<Path>)
    requires |paths| > 0
    requires forall i :: 0 <= i < |paths| ==> Valid(paths[i]) && ',' !in ToString(paths[i])
    ensures ParsedPaths(Join(",", Rendered(paths))) == paths
  {
    var texts := Rendered(paths);
    SplitJoin(texts, ',');
    assert [','] == ",";
    var r := ParsedPaths(Join(",", texts));
    forall i | 0 <= i < |paths| ensures r[i] == paths[i] {
      ParseToString(paths[i]);
    }
  }

  /** A ready emission loses no field, provided every path is well formed
      and its written form holds no comma. */
  lemma {:induction false} DecodeEmit(c: Collocate)
    requires Ready(c)
    requires forall i :: 0 <= i < |c.sourceProductPaths| ==>
      Valid(c.sourceProductPaths[i]) && ',' !in ToString(c.sourceProductPaths[i])
    ensures Decode(Emit(c).value) == Some(c)
  {
    var t := Texts(c);
    OrderDistinct();
    LookupPresent(Order, t, 0);
    LookupPresent(Order, t, 1);
    LookupPresent(Order, t, 2);
    LookupPresent(Order, t, 3);
    LookupPresent(Order, t, 4);
    LookupPresent(Order, t, 5);
    LookupPresent(Order, t, 6);
    LookupPresent(Order, t, 7);
    ParsedRendered(c.sourceProductPaths);
  }
}
