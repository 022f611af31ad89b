/** The wrapper around SNAP's gpt executable: the probe made when it is
    created, the output name of a run, the redirection of Sentinel-3
    inputs, the command line handed to gpt, and the order of a batch. */
module Gpt {
  import opened Wrappers
  import opened Text
  import opened Paths
  import opened Graph

  /** What `gpt -h` must print first. */
  const Banner := "Usage:\n  gpt <op>|<graph-file> [options]"

  /** What the `gpt -h` probe comes to: an exit with its output, or the
      operating system refusing to run the file or not finding it. */
  datatype ProbeOutcome = Exited(code: int, stdout: string) | PermissionDenied | NotFound

  datatype GptError = ValueError(msg: string) | CalledProcessError(code: int) | FileNotFoundError

  datatype Gpt = Gpt(gpt: Path)

  /** `GPT(gpt)`: a refused file or a wrong banner become `ValueError`; a
      failing exit and a missing file propagate as they are. */
  function Create(path: string, probe: ProbeOutcome): (r: Result<Gpt, GptError>)
    ensures r.Success? <==> probe.Exited? && probe.code == 0 && StartsWith(probe.stdout, Banner)
    ensures r.Success? ==> r.value.gpt == Parse(path)
    ensures r.Failure? && r.error.ValueError? ==> r.error.msg == ToString(Parse(path)) + " is not gpt!"
    ensures r.Failure? ==> (r.error.FileNotFoundError? <==> probe.NotFound?)
    ensures r.Failure? ==> (r.error.CalledProcessError? <==> probe.Exited? && probe.code != 0)
  {
    var gpt := Parse(path);
    match probe
    case NotFound => Failure(FileNotFoundError)
    case PermissionDenied => Failure(ValueError(ToString(gpt) + " is not gpt!"))
    case Exited(code, stdout) =>
      if code != 0 then Failure(CalledProcessError(code))
      else if !StartsWith(stdout, Banner) then Failure(ValueError(ToString(gpt) + " is not gpt!"))
      else Success(Gpt(gpt))
  }

  /** `repr(gpt)`: the path as written. */
  function Repr(g: Gpt): (r: string)
  {
    ToString(g.gpt)
  }

  /** The written form of a created wrapper names the executable it
      probed, and reads back as the same path. */
  lemma {:induction false} ReprCreate(path: string, probe: ProbeOutcome)
    requires Create(path, probe).Success?
    ensures Repr(Create(path, probe).value) == ToString(Parse(path))
    ensures Parse(Repr(Create(path, probe).value)) == Parse(path)
  {
    ParseToString(Parse(path));
  }

  /** `s.split('/')[-1]`. */
  function BaseName(s: string): (r: string)
    ensures '/' !in r
  {
    var pieces := Split(s, '/');
    pieces[|pieces| - 1]
  }

  /** `'.'.join(name.split('.')[:-1])`. */
  function DotStem(name: string): (r: string)
  {
    var pieces := Split(name, '.');
    Join(".", pieces[..|pieces| - 1])
  }

  /** The name without its last `.`-segment; empty when it has no dot. */
  lemma {:induction false} DotStemCut(name: string)
    ensures var i := LastIndexOf(name, '.');
      DotStem(name) == if i >= 0 then name[..i] else ""
  {
    var i := LastIndexOf(name, '.');
    if i >= 0 {
      var x, y := name[..i], name[i + 1..];
      assert name == x + ['.'] + y;
      assert '.' !in y by {
        forall j | 0 <= j < |y| ensures y[j] != '.' {
          assert y[j] == name[i + 1 + j];
        }
      }
      SplitAtLast(x, '.', y);
      var pieces := Split(name, '.');
      assert pieces[..|pieces| - 1] == Split(x, '.');
      JoinSplit(x, '.');
      assert ['.'] == ".";
    } else {
      assert '.' !in name;
      SplitNoSeparator(name, '.');
    }
  }

  /** `_get_output_name`: the output folder, then the input's base name
      without its last `.`-segment, the suffix, a dot and the extension. */
  function OutputName(input: Path, folder: string, suffix: string, extension: string): (r: Path)
  {
    var name := BaseName(ToString(input));
    Div(Parse(folder), DotStem(name) + suffix + "." + extension)
  }

  /** The output file name for an input named `name`. */
  function OutputFile(name: string, suffix: string, extension: string): (r: string)
  {
    var i := LastIndexOf(name, '.');
    (if i >= 0 then name[..i] else "") + suffix + "." + extension
  }

  /** With a non-empty extension and no slash anywhere, the output file
      name is a single path part. */
  lemma OutputFilePart(name: string, suffix: string, extension: string)
    requires '/' !in name && '/' !in suffix && '/' !in extension && extension != ""
    ensures IsPart(OutputFile(name, suffix, extension))
  {
    var i := LastIndexOf(name, '.');
    var stem := if i >= 0 then name[..i] else "";
    assert '/' !in stem by {
      forall j | 0 <= j < |stem| ensures stem[j] != '/' {
        assert stem[j] == name[j];
      }
    }
    var file := OutputFile(name, suffix, extension);
    assert file == stem + suffix + "." + extension;
    assert |file| >= 2;
  }

  /** For an input with a name, a non-empty extension and a suffix and
      extension without slashes, the output is exactly one more part under
      the folder. */
  lemma {:induction false} OutputNameParts(input: Path, folder: string, suffix: string, extension: string)
    requires Valid(input) && |input.parts| > 0
    requires '/' !in suffix && '/' !in extension && extension != ""
    ensures var f := Parse(folder);
      OutputName(input, folder, suffix, extension) == Path(f.root, f.parts + [OutputFile(Name(input), suffix, extension)])
  {
    var name := BaseName(ToString(input));
    LastPieceOfString(input);
    assert name == Name(input);
    DotStemCut(name);
    var file := OutputFile(name, suffix, extension);
    assert DotStem(name) + suffix + "." + extension == file;
    OutputFilePart(name, suffix, extension);
    DivPart(Parse(folder), file);
  }
  /** An input without a dot in its name gives just the suffix and the
      extension. */
  lemma NoDotOutputFile(name: string, suffix: string, extension: string)
    requires '.' !in name
    ensures OutputFile(name, suffix, extension) == suffix + "." + extension
  {
  }

  /** The file inside a Sentinel-3 product folder that gpt reads. */
  const Manifest := "xfdumanifest.xml"

  /** The input gpt is given: a `*S3*.zip` archive's extracted manifest in
      the temporary folder, the manifest inside a `*S3*.SEN3` folder, and
      any other input unchanged. The archive test comes first. */
  function NormalizeInput(input: Path, tempDir: Path): (r: Path)
    requires Valid(input) && Valid(tempDir)
  {
    if MatchesS3Zip(input) then Below(Div(tempDir, Stem(input) + ".SEN3"), Manifest)
    else if MatchesS3Sen3(input) then Below(input, Manifest)
    else input
  }

  /** No name ends in both `.zip` and `.SEN3`, so the two tests never both pass. */
  lemma MatchesDisjoint(p: Path)
    ensures !(MatchesS3Zip(p) && MatchesS3Sen3(p))
  {
    var name := Name(p);
    if MatchesS3Zip(p) {
      assert name[|name| - 1] == 'p';
    }
  }

  /** The stem of a `*S3*.zip` name is the name without `.zip`. */
  lemma ZipStem(p: Path)
    requires MatchesS3Zip(p)
    ensures var name := Name(p); |name| >= 6 && Stem(p) == name[..|name| - 4]
  {
    var name := Name(p);
    var k := |name| - 4;
    ContainsAt(name[..k], "S3");
    var i := LastIndexOf(name, '.');
    assert name[k..] == ".zip";
    assert name[k] == '.';
    assert name[k + 1] != '.' && name[k + 2] != '.' && name[k + 3] != '.';
    assert i == k;
  }

  /** The folder a `*S3*.zip` archive extracts to is a single part. */
  lemma ZipFolderPart(p: Path)
    requires Valid(p) && MatchesS3Zip(p)
    ensures var name := Name(p); |name| >= 6 && IsPart(name[..|name| - 4] + ".SEN3")
  {
    var name := Name(p);
    ZipStem(p);
    assert IsPart(name);
    var folder := name[..|name| - 4] + ".SEN3";
    forall j | 0 <= j < |folder| ensures folder[j] != '/' {
      if j < |name| - 4 {
        assert folder[j] == name[j];
      } else {
        assert folder[j] == ".SEN3"[j - (|name| - 4)];
      }
    }
  }

  /** The fixed file names are single parts. */
  lemma FixedNamesAreParts()
    ensures IsPart(Manifest) && IsPart("graph.xml")
  {
    assert '/' !in Manifest;
    assert '/' !in "graph.xml";
  }

  /** `p / 'xfdumanifest.xml'` adds the manifest as one part. */
  lemma ManifestPart(p: Path)
    requires Valid(p)
    ensures IsPart(Manifest) && Div(p, Manifest) == Below(p, Manifest)
  {
    assert '/' !in Manifest;
    DivPart(p, Manifest);
  }

  /** A `*S3*.zip` input becomes `<temp>/<stem>.SEN3/xfdumanifest.xml`. */
  lemma {:induction false} NormalizeZip(input: Path, tempDir: Path)
    requires Valid(input) && Valid(tempDir) && MatchesS3Zip(input)
    ensures var name := Name(input);
      NormalizeInput(input, tempDir) == Path(tempDir.root, tempDir.parts + [name[..|name| - 4] + ".SEN3", Manifest])
  {
    var name := Name(input);
    var folder := name[..|name| - 4] + ".SEN3";
    ZipStem(input);
    ZipFolderPart(input);
    DivPart(tempDir, folder);
    assert NormalizeInput(input, tempDir) == Below(Below(tempDir, folder), Manifest);
    assert tempDir.parts + [folder] + [Manifest] == tempDir.parts + [folder, Manifest];
  }

  /** A `*S3*.SEN3` folder becomes the manifest inside it. */
  lemma {:induction false} NormalizeSen3(input: Path, tempDir: Path)
    requires Valid(input) && Valid(tempDir) && MatchesS3Sen3(input)
    ensures NormalizeInput(input, tempDir) == Path(input.root, input.parts + [Manifest])
  {
    MatchesDisjoint(input);
  }

  /** Any other input is passed on unchanged. */
  lemma NormalizeOther(input: Path, tempDir: Path)
    requires Valid(input) && Valid(tempDir) && !MatchesS3Zip(input) && !MatchesS3Sen3(input)
    ensures NormalizeInput(input, tempDir) == input
  {
  }

  /** The command line of one gpt call. */
  function Command(gpt: string, graphFile: string, source: string, output: string): (argv: seq<string>)
  {
    [gpt, graphFile, "-Ssource=" + source, "-t", output]
  }

  /** The outside effects of a run, in order. */
  datatype Effect =
    | MakeDir(dir: Path)
    | Extract(archive: Path, into: Path)
    | WriteGraph(write: FileWrite)
    | Call(argv: seq<string>)

  /** The order of a run's effects: create the output folder, extract the
      archive if there is one, write the graph, call gpt. */
  function Effects(outputDir: Path, archive: Option<Path>, tempDir: Path, write: FileWrite, argv: seq<string>): (r: seq<Effect>)
  {
    [MakeDir(outputDir)]
    + (if archive.Some? then [Extract(archive.value, tempDir)] else [])
    + [WriteGraph(write), Call(argv)]
  }

  /** The graph file of a run: `graph.xml` in the temporary folder. */
  function GraphFile(tempDir: string): (r: string)
  {
    ToString(Below(Parse(tempDir), "graph.xml"))
  }

  /** The graph file is `Path(temp_dir) / 'graph.xml'`. */
  lemma GraphFileDiv(tempDir: string)
    ensures GraphFile(tempDir) == ToString(Div(Parse(tempDir), "graph.xml"))
  {
    assert '/' !in "graph.xml";
    DivPart(Parse(tempDir), "graph.xml");
  }

  /** The archive a run extracts: the input, if it is a Sentinel-3 zip. */
  function ArchiveOf(inputFile: string): (r: Option<Path>)
  {
    var input := Parse(inputFile);
    if MatchesS3Zip(input) then Some(input) else None
  }

  /** The command line of the run for one input: the graph file, the
      normalised input as `-Ssource`, and the output named after the
      input as given. */
  function CommandFor(g: Gpt, suffix: string, inputFile: string, tempDir: string,
                      outputFolder: string, extension: string): (argv: seq<string>)
  {
    var input := Parse(inputFile);
    Command(Repr(g), GraphFile(tempDir), ToString(NormalizeInput(input, Parse(tempDir))),
            ToString(OutputName(input, outputFolder, suffix, extension)))
  }

  /** What `run` does for an input in the temporary folder `tempDir`. */
  function RunEffects(g: Gpt, graph: GraphState, inputFile: string, tempDir: string,
                      outputFolder: string, extension: string): (effects: seq<Effect>)
  {
    Effects(Parse(outputFolder), ArchiveOf(inputFile), Parse(tempDir),
            FileWrite(GraphFile(tempDir), graph.xml),
            CommandFor(g, graph.suffix, inputFile, tempDir, outputFolder, extension))
  }

  /** `run(graph, input_file, output_folder, extension)` in the temporary
      folder `tempDir`: `input_file` is reassigned through the Sentinel-3
      branches before the call. */
  method Run(g: Gpt, graph: Graph, inputFile: string, tempDir: string,
             outputFolder: string := "proc", extension: string := "dim")
    returns (effects: seq<Effect>)
    ensures effects == RunEffects(g, graph.State(), inputFile, tempDir, outputFolder, extension)
  {
    FixedNamesAreParts();
    var input := Parse(inputFile);
    ghost var original := input;
    var base := Parse(tempDir);
    var graphFile := Below(base, "graph.xml");
    var output := OutputName(input, outputFolder, graph.suffix, extension);
    effects := [MakeDir(Parse(outputFolder))];
    if MatchesS3Zip(input) {
      effects := effects + [Extract(input, base)];
      input := Below(Div(base, Stem(input) + ".SEN3"), Manifest);
    } else if MatchesS3Sen3(input) {
      input := Below(input, Manifest);
    }
    assert input == NormalizeInput(original, base);
    assert effects == [MakeDir(Parse(outputFolder))] + (if ArchiveOf(inputFile).Some? then [Extract(original, base)] else []);
    var w := graph.Save(ToString(graphFile));
    effects := effects + [WriteGraph(w), Call(Command(Repr(g), ToString(graphFile), ToString(input), ToString(output)))];
  }

  /** The command lines among some effects, in order. */
  function Calls(effects: seq<Effect>): (r: seq<seq<string>>)
  {
    if |effects| == 0 then []
    else Calls(effects[..|effects| - 1]) + CallOf(effects[|effects| - 1])
  }

  /** The command line of an effect, if it is a call. */
  function CallOf(e: Effect): (r: seq<seq<string>>)
  {
    if e.Call? then [e.argv] else []
  }

  lemma {:induction false} CallsAppend(a: seq<Effect>, b: seq<Effect>)
    ensures Calls(a + b) == Calls(a) + Calls(b)
    decreases |b|
  {
    if |b| > 0 {
      var n := |b| - 1;
      var ab := a + b;
      assert ab[..|ab| - 1] == a + b[..n];
      assert ab[|ab| - 1] == b[n];
      CallsAppend(a, b[..n]);
      assert Calls(ab) == Calls(a + b[..n]) + CallOf(b[n]);
      assert Calls(b) == Calls(b[..n]) + CallOf(b[n]);
    } else {
      assert a + b == a;
    }
  }

  /** A run makes exactly one gpt call, last, right after writing the
      graph; it extracts, second, exactly when there is an archive. */
  lemma {:induction false} EffectsShape(outputDir: Path, archive: Option<Path>, tempDir: Path, write: FileWrite, argv: seq<string>)
    ensures var e := Effects(outputDir, archive, tempDir, write, argv);
      && Calls(e) == [argv]
      && e[0] == MakeDir(outputDir)
      && e[|e| - 1] == Call(argv)
      && e[|e| - 2] == WriteGraph(write)
      && (e[1].Extract? <==> archive.Some?)
  {
    var front := [MakeDir(outputDir)] + (if archive.Some? then [Extract(archive.value, tempDir)] else []);
    var back := [WriteGraph(write), Call(argv)];
    CallsAppend(front, back);
    assert Calls(front) == [] by {
      assert Calls([MakeDir(outputDir)]) == [] by {
        assert [MakeDir(outputDir)][..0] == [];
      }
      if archive.Some? {
        assert front[..1] == [MakeDir(outputDir)];
      }
    }
    assert back[..1] == [back[0]];
    assert Calls(back[..1]) == [] by {
      assert back[..1][..0] == [];
    }
  }

  /** A run extracts exactly Sentinel-3 archives, and calls gpt once, last,
      on the command built for its input. */
  lemma RunShape(g: Gpt, graph: GraphState, inputFile: string, tempDir: string,
                 outputFolder: string, extension: string)
    ensures var e := RunEffects(g, graph, inputFile, tempDir, outputFolder, extension);
      && Calls(e) == [CommandFor(g, graph.suffix, inputFile, tempDir, outputFolder, extension)]
      && e[|e| - 2] == WriteGraph(FileWrite(GraphFile(tempDir), graph.xml))
      && (e[1].Extract? <==> MatchesS3Zip(Parse(inputFile)))
  {
    EffectsShape(Parse(outputFolder), ArchiveOf(inputFile), Parse(tempDir),
                 FileWrite(GraphFile(tempDir), graph.xml),
                 CommandFor(g, graph.suffix, inputFile, tempDir, outputFolder, extension));
  }

  /** The additional sources a graph records never reach a run: the
      command line has the one source option `-Ssource=` and then `-t`,
      and two graphs that differ only in their additional sources run
      alike. */
  lemma AdditionalSourcesUnused(g: Gpt, graph: GraphState, other: GraphState, inputFile: string,
                                tempDir: string, outputFolder: string, extension: string)
    requires graph.xml == other.xml && graph.suffix == other.suffix
    ensures var argv := CommandFor(g, graph.suffix, inputFile, tempDir, outputFolder, extension);
      && |argv| == 5
      && argv[2] == "-Ssource=" + ToString(NormalizeInput(Parse(inputFile), Parse(tempDir)))
      && argv[3] == "-t"
    ensures RunEffects(g, graph, inputFile, tempDir, outputFolder, extension)
            == RunEffects(g, other, inputFile, tempDir, outputFolder, extension)
  {
    var input := Parse(inputFile);
    var source := ToString(NormalizeInput(input, Parse(tempDir)));
    var output := ToString(OutputName(input, outputFolder, graph.suffix, extension));
    assert CommandFor(g, graph.suffix, inputFile, tempDir, outputFolder, extension)
           == [Repr(g), GraphFile(tempDir), "-Ssource=" + source, "-t", output];
  }

  /** `run` applied to each input and its temporary folder, in list order. */
  function Batch(run: (string, string) -> seq<Effect>, inputs: seq<string>, tempDirs: seq<string>): (runs: seq<seq<Effect>>)
    requires |tempDirs| == |inputs|
    ensures |runs| == |inputs|
  {
    if |inputs| == 0 then []
    else
      var n := |inputs| - 1;
      Batch(run, inputs[..n], tempDirs[..n]) + [run(inputs[n], tempDirs[n])]
  }

  lemma {:induction false} BatchAt(run: (string, string) -> seq<Effect>, inputs: seq<string>, tempDirs: seq<string>, i: int)
    requires |tempDirs| == |inputs| && 0 <= i < |inputs|
    ensures Batch(run, inputs, tempDirs)[i] == run(inputs[i], tempDirs[i])
  {
    var n := |inputs| - 1;
    if i < n {
      BatchAt(run, inputs[..n], tempDirs[..n], i);
      assert inputs[..n][i] == inputs[i] && tempDirs[..n][i] == tempDirs[i];
    }
  }

  /** The runs of a batch, one per input, each in its own temporary folder,
      with the same graph, folder and extension. */
  function Runs(g: Gpt, graph: GraphState, inputs: seq<string>, tempDirs: seq<string>,
                outputFolder: string, extension: string): (runs: seq<seq<Effect>>)
    requires |tempDirs| == |inputs|
    ensures |runs| == |inputs|
  {
    Batch((input, tempDir) => RunEffects(g, graph, input, tempDir, outputFolder, extension), inputs, tempDirs)
  }

  /** Run `i` of a batch is the run for input `i`. */
  lemma RunsAt(g: Gpt, graph: GraphState, inputs: seq<string>, tempDirs: seq<string>,
               outputFolder: string, extension: string, i: int)
    requires |tempDirs| == |inputs| && 0 <= i < |inputs|
    ensures Runs(g, graph, inputs, tempDirs, outputFolder, extension)[i]
            == RunEffects(g, graph, inputs[i], tempDirs[i], outputFolder, extension)
  {
    BatchAt((input, tempDir) => RunEffects(g, graph, input, tempDir, outputFolder, extension), inputs, tempDirs, i);
  }

  function Flatten(runs: seq<seq<Effect>>): (r: seq<Effect>)
  {
    if |runs| == 0 then [] else Flatten(runs[..|runs| - 1]) + runs[|runs| - 1]
  }

  lemma FlattenStep(runs: seq<seq<Effect>>, i: int)
    requires 0 <= i < |runs|
    ensures Flatten(runs[..i + 1]) == Flatten(runs[..i]) + runs[i]
  {
    assert runs[..i + 1][..i] == runs[..i];
  }

  /** `run_iter(graph, input_list, output_folder, extension)`: the runs in
      list order. */
  method RunIter(g: Gpt, graph: Graph, inputs: seq<string>, tempDirs: seq<string>,
                 outputFolder: string := "proc", extension: string := "dim")
    returns (effects: seq<Effect>)
    requires |tempDirs| == |inputs|
    ensures effects == Flatten(Runs(g, graph.State(), inputs, tempDirs, outputFolder, extension))
  {
    ghost var state := graph.State();
    ghost var runs := Runs(g, state, inputs, tempDirs, outputFolder, extension);
    effects := [];
    for i := 0 to |inputs|
      invariant graph.State() == state
      invariant effects == Flatten(runs[..i])
    {
      var e := Run(g, graph, inputs[i], tempDirs[i], outputFolder, extension);
      RunsAt(g, state, inputs, tempDirs, outputFolder, extension, i);
      FlattenStep(runs, i);
      effects := effects + e;
    }
    assert runs[..|inputs|] == runs;
  }

  /** The calls of a flattened batch, one per run, in order. */
  lemma {:induction false} FlattenCalls(runs: seq<seq<Effect>>, argvs: seq<seq<string>>)
    requires |argvs| == |runs|
    requires forall i :: 0 <= i < |runs| ==> Calls(runs[i]) == [argvs[i]]
    ensures Calls(Flatten(runs)) == argvs
  {
    if |runs| > 0 {
      var n := |runs| - 1;
      FlattenCalls(runs[..n], argvs[..n]);
      CallsAppend(Flatten(runs[..n]), runs[n]);
      assert argvs[..n] + [argvs[n]] == argvs;
    }
  }

  /** The gpt calls of a batch are the calls for each input, in list order. */
  lemma CallsInOrder(g: Gpt, graph: GraphState, inputs: seq<string>, tempDirs: seq<string>,
                     outputFolder: string, extension: string)
    requires |tempDirs| == |inputs|
    ensures var calls := Calls(Flatten(Runs(g, graph, inputs, tempDirs, outputFolder, extension)));
      && |calls| == |inputs|
      && forall i :: 0 <= i < |inputs| ==> calls[i] == CommandFor(g, graph.suffix, inputs[i], tempDirs[i], outputFolder, extension)
  {
    var runs := Runs(g, graph, inputs, tempDirs, outputFolder, extension);
    var argvs := seq(|inputs|, i requires 0 <= i < |inputs| => CommandFor(g, graph.suffix, inputs[i], tempDirs[i], outputFolder, extension));
    forall i | 0 <= i < |runs| ensures Calls(runs[i]) == [argvs[i]] {
      RunsAt(g, graph, inputs, tempDirs, outputFolder, extension, i);
      RunShape(g, graph, inputs[i], tempDirs[i], outputFolder, extension);
    }
    FlattenCalls(runs, argvs);
  }
}
