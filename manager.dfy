/**
 * RManager: the registry of R models (model UUID to RModelConfig record), the operations that
 * add, reconfigure, list, save and remove models, and the training flow, which writes the
 * instances and header files and drives the R training script.
 *
 * The file system is a map from absolute paths to file nodes. What the R engine itself writes
 * to disk (the trained model file) and the random parts of generated ids and temporary file
 * names are inputs.
 */
module Manager {

  import opened Outcomes
  import opened Text
  import opened Fos
  import opened Rserve
  import Uuid
  import Config
  import Scorer

  /** The ModelConfig property that may carry the model's id. */
  const UuidProperty := "UUID"
  const NotImplemented := "Not implemented for R"

  /**
   * A FOSException built around a caught exception (new FOSException(e)); the message, the
   * cause's own description, is not modelled.
   */
  function Wrapped(e: Error): Error {
    FosException("", Some(e))
  }

  /** The id a model was registered under, or the failure that building its environment met. */
  function Identified(u: Uuid.Uuid, built: Result<()>): Result<Uuid.Uuid> {
    if built.Success? then Success(u) else Failure(built.error)
  }

  // ---------------------------------------------------------------------------------------
  // Model ids

  /** The groups UUID.fromString splits its text into: String.split("-"), trailing empty pieces dropped. */
  function UuidGroups(s: string): seq<string> {
    SplitDiscardingTrailing("-", s)
  }

  /** The number of hex digits of each group of the canonical 8-4-4-4-12 text. */
  const GroupLengths: seq<nat> := [8, 4, 4, 4, 12]

  /**
   * The NumberFormatException of Long.decode("0x" + group) for the first of the groups, from
   * index i on, that is not a canonical group: a leading '+' is a sign in the wrong position,
   * anything else is reported as the input string.
   */
  function GroupError(groups: seq<string>, i: nat): (e: Error)
    requires |groups| == |GroupLengths| && i <= |groups|
    ensures e.IllegalArgument? && e.message != [] && e.message[0] in {'F', 'S'}
    decreases |groups| - i
  {
    if i == |groups| then IllegalArgument("For input string: \"" + groups[0] + "\"")
    else
      var g := groups[i];
      if |g| == GroupLengths[i] && Uuid.ParseHex(g).Some? then GroupError(groups, i + 1)
      else if g != [] && g[0] == '+' then IllegalArgument("Sign character in wrong position")
      else IllegalArgument("For input string: \"" + g + "\"")
  }

  /**
   * What UUID.fromString raises for a text it refuses: a text that does not split into five
   * groups gets "Invalid UUID string: " and the text; otherwise a group fails to decode, with
   * a NumberFormatException (an IllegalArgumentException).
   */
  function UuidError(s: string): (e: Error)
    ensures e.IllegalArgument?
    ensures e.message == "Invalid UUID string: " + s <==> |UuidGroups(s)| != 5
  {
    var groups := UuidGroups(s);
    if |groups| != 5 then IllegalArgument("Invalid UUID string: " + s)
    else
      var e := GroupError(groups, 0);
      assert e.message[0] != ("Invalid UUID string: " + s)[0];
      e
  }

  /** getUuid: the "UUID" property read as a UUID, or the random id when the property is absent. */
  function GetUuid(cfg: ModelConfig, random: Uuid.Uuid): (r: Result<Uuid.Uuid>)
    ensures Property(cfg, UuidProperty).None? ==> r == Success(random)
    ensures Property(cfg, UuidProperty).Some? && r.Success? ==> Uuid.Parse(Property(cfg, UuidProperty).value) == Some(r.value)
    ensures Property(cfg, UuidProperty).Some? && r.Failure? ==>
              var s := Property(cfg, UuidProperty).value;
              Uuid.Parse(s).None? && r.error.IllegalArgument? &&
              (r.error.message == "Invalid UUID string: " + s <==> |UuidGroups(s)| != 5)
  {
    match Property(cfg, UuidProperty)
    case None => Success(random)
    case Some(s) =>
      match Uuid.Parse(s)
      case Some(u) => Success(u)
      case None => Failure(UuidError(s))
  }

  /**
   * Text of five groups whose first starts with a character that is neither a hex digit nor a
   * sign fails on that group: the group count is right, so the message is not "Invalid UUID string".
   */
  lemma GetUuidBadGroup(cfg: ModelConfig, groups: seq<string>, random: Uuid.Uuid)
    requires |groups| == 5 && Avoids(groups, '-') && groups[4] != ""
    requires groups[0] != [] && Uuid.HexValue(groups[0][0]).None? && groups[0][0] != '+'
    ensures GetUuid(WithProperty(cfg, UuidProperty, Join("-", groups)), random)
            == Failure(IllegalArgument("For input string: \"" + groups[0] + "\""))
  {
    var s := Join("-", groups);
    SplitDiscardingTrailingJoin("-", groups);
    assert UuidGroups(s) == groups;
    assert Uuid.ParseHex(groups[0]).None?;
    TerminatedCons("-", groups[0], groups[1..4]);
    assert groups[..4] == [groups[0]] + groups[1..4];
    assert s[0] == groups[0][0];
    if |s| == 36 {
      var digits := s[..8] + s[9..13] + s[14..18] + s[19..23] + s[24..];
      assert digits[0] == s[0];
    }
    assert Uuid.Parse(s).None?;
  }

  /** A model configured with the canonical text of an id gets that id, whatever the random one. */
  lemma GetUuidOfText(cfg: ModelConfig, u: Uuid.Uuid, random: Uuid.Uuid)
    ensures GetUuid(WithProperty(cfg, UuidProperty, Uuid.ToString(u)), random) == Success(u)
  {
    Uuid.ParseToString(u);
  }

  // ---------------------------------------------------------------------------------------
  // Files and paths

  /** Files.toString / Files.toByteArray: the contents of a regular file; anything else raises an IOException. */
  function ReadFile(files: map<string, FileNode>, path: string): (r: Result<string>)
    ensures r.Success? <==> path in files && files[path].RegularFile?
    ensures r.Success? ==> r.value == files[path].contents
  {
    if path !in files then Failure(IoFailure(path))
    else match files[path]
      case RegularFile(c) => Success(c)
      case Directory => Failure(IoFailure(path))
      case UnreadableFile(reason) => Failure(IoFailure(reason))
  }

  /** The index of the last '/' of a path, or -1 when it has none. */
  function LastSlash(path: string): (r: int)
    ensures -1 <= r < |path|
    ensures r >= 0 ==> path[r] == '/'
    decreases |path|
  {
    if path == [] then -1
    else if path[|path| - 1] == '/' then |path| - 1
    else LastSlash(path[..|path| - 1])
  }

  /** No '/' follows the last one. */
  lemma {:induction false} LastSlashIsLast(path: string)
    ensures forall i :: LastSlash(path) < i < |path| ==> path[i] != '/'
    decreases |path|
  {
    if path != [] && path[|path| - 1] != '/' {
      var init := path[..|path| - 1];
      LastSlashIsLast(init);
      assert forall i :: 0 <= i < |init| ==> init[i] == path[i];
    }
  }

  /** A '/' with none after it is the last one. */
  lemma {:induction false} LastSlashAt(path: string, k: nat)
    requires k < |path| && path[k] == '/'
    requires forall i :: k < i < |path| ==> path[i] != '/'
    ensures LastSlash(path) == k
    decreases |path|
  {
    if k < |path| - 1 {
      var init := path[..|path| - 1];
      assert forall i :: 0 <= i < |init| ==> init[i] == path[i];
      LastSlashAt(init, k);
    }
  }

  /** File.getName: the text after the last '/'. */
  function BaseName(path: string): (r: string)
    ensures |r| <= |path| && path[|path| - |r|..] == r
  {
    path[LastSlash(path) + 1..]
  }

  /** A file's name holds no '/'. */
  lemma BaseNameHasNoSlash(path: string)
    ensures '/' !in BaseName(path)
  {
    LastSlashIsLast(path);
    var k := LastSlash(path);
    var b := BaseName(path);
    forall i | 0 <= i < |b| ensures b[i] != '/' {
      assert b[i] == path[k + 1 + i];
    }
  }

  /** File.getParent: the text before the last '/', the root for a top-level file, or null without a '/'. */
  function Parent(path: string): Option<string> {
    var k := LastSlash(path);
    if k < 0 then None else if k == 0 then Some("/") else Some(path[..k])
  }

  /** new File(parent, child): the child alone under a null parent, otherwise joined to the parent by one '/'. */
  function ChildPath(parent: Option<string>, child: string): string {
    match parent
    case None => child
    case Some(p) => if p != [] && p[|p| - 1] == '/' then p + child else p + "/" + child
  }

  /** A path whose last '/' does not follow another '/': the form File keeps paths in. */
  predicate Normal(path: string) {
    var k := LastSlash(path);
    k >= 0 && (k == 0 || path[k - 1] != '/')
  }

  /** A file named after another one, in the other's directory, is the other's path with the suffix. */
  lemma ChildOfParent(path: string, suffix: string)
    requires Normal(path)
    ensures ChildPath(Parent(path), BaseName(path) + suffix) == path + suffix
  {
    var k := LastSlash(path);
    var tail := path[k + 1..];
    assert BaseName(path) == tail;
    Around(path, k);
    if k == 0 {
      assert path[..k] == [];
      assert ChildPath(Parent(path), tail + suffix) == "/" + (tail + suffix);
    } else {
      var p := path[..k];
      assert p[|p| - 1] == path[k - 1];
      assert ChildPath(Parent(path), tail + suffix) == p + "/" + (tail + suffix);
    }
  }

  /** A sequence is its part before position k, the element at k, and its part after. */
  lemma Around<T>(s: seq<T>, k: int)
    requires 0 <= k < |s|
    ensures s == s[..k] + [s[k]] + s[k + 1..]
  {
  }

  // ---------------------------------------------------------------------------------------
  // The texts of trainFile

  function HeaderPath(path: string): string {
    path + ".header"
  }

  /** The header file: the sanitised attribute names joined by ','. */
  function HeaderText(attrs: seq<Attribute>): string
    requires Scorer.Named(attrs)
  {
    Join(",", Scorer.RNames(attrs))
  }

  /** Read back with String.split(","), a header gives the column names, when no name holds a ','. */
  lemma HeaderRecovers(attrs: seq<Attribute>)
    requires attrs != [] && Scorer.Named(attrs) && Avoids(Scorer.RNames(attrs), ',')
    ensures SplitDiscardingTrailing(",", HeaderText(attrs)) == Scorer.RNames(attrs)
  {
    var names := Scorer.RNames(attrs);
    assert names[|names| - 1] == Scorer.RName(attrs[|attrs| - 1].name);
    SplitDiscardingTrailingJoin(",", names);
  }

  /** attributes.get(getIntProperty(CLASS_INDEX)).getName(): the name of the class attribute. */
  function ClassName(cfg: ModelConfig): (r: Result<string>)
    ensures r.Success? <==> Scorer.WithoutClass(cfg).Success?
    ensures r.Success? ==> r.value == cfg.attributes[IntProperty(cfg, Config.ClassIndex).value].name
  {
    match IntProperty(cfg, Config.ClassIndex)
    case Failure(e) => Failure(e)
    case Success(i) => if 0 <= i < |cfg.attributes| then Success(cfg.attributes[i].name) else Failure(IndexOutOfBounds(i, |cfg.attributes|))
  }

  /** The program that names the header file, the instances file and the class attribute. */
  function HeaderProgram(header: string, path: string, className: string): string {
    "headersfile <- '" + header + "'\n" + "instancesfile <- '" + path + "'\n" + "class.name <- '" + className + "'\n"
  }

  /** The sanitised names of the categorical attributes. */
  function CategoricalNames(attrs: seq<Attribute>): seq<string>
    requires Scorer.Named(attrs)
  {
    Scorer.ExtractCategoricalsNamed(attrs);
    Scorer.RNames(Scorer.ExtractCategoricals(attrs))
  }

  function CategoricalsHead(): string {
    "categorical.features <- c(\n"
  }

  /** defineCategoricals' program: each name in single quotes, indented, separated by ", \n"; an empty list has no first name. */
  function CategoricalsDefinition(names: seq<string>): Result<string> {
    if names == [] then Failure(IndexOutOfBounds(0, 0))
    else Success(CategoricalsHead() + Join(", \n", Enclosed("     '", names, "'")) + ")")
  }

  /** The list of categoricals, split back at its separators, gives each name in its quotes, in order. */
  lemma CategoricalsRecovers(names: seq<string>)
    requires names != [] && Avoids(names, ',')
    ensures var p := CategoricalsDefinition(names).value;
            p[..|CategoricalsHead()|] == CategoricalsHead() &&
            Split(", \n", p[|CategoricalsHead()|..|p| - 1]) == Enclosed("     '", names, "'")
  {
    var items := Enclosed("     '", names, "'");
    var body := Join(", \n", items);
    var p := CategoricalsHead() + body + ")";
    assert p[|CategoricalsHead()|..|p| - 1] == body;
    assert Avoids(items, ',') by {
      forall i | 0 <= i < |items| ensures ',' !in items[i] {
        assert items[i] == "     '" + names[i] + "'";
      }
    }
    SplitJoin(", \n", items);
  }

  /** defineCategoricals' text, built as its loop does: every name but the last with its separator, then the last. */
  method CategoricalsText(names: seq<string>) returns (r: Result<string>)
    ensures r == CategoricalsDefinition(names)
  {
    var text := CategoricalsHead();
    ghost var items := Enclosed("     '", names, "'");
    var i := 0;
    while i < |names| - 1
      invariant 0 <= i <= if |names| == 0 then 0 else |names| - 1
      invariant text == CategoricalsHead() + Terminated(", \n", items[..i])
    {
      TerminatedStep(", \n", CategoricalsHead(), items, i);
      text := text + ("     '" + names[i] + "'") + ", \n";
      i := i + 1;
    }
    if i >= |names| {
      // categoricalNames.get(i) on an empty list
      return Failure(IndexOutOfBounds(0, 0));
    }
    JoinClose(", \n", CategoricalsHead(), items, ")");
    text := text + ("     '" + names[i] + "'") + ")";
    r := Success(text);
  }

  /** The model save file: the file's name with ".model", in the MODEL_SAVE_PATH directory (or alone when it is unset). */
  function ModelSavePath(cfg: ModelConfig, path: string): string {
    ChildPath(Property(cfg, Config.ModelSavePath), BaseName(path) + ".model")
  }

  /** The program that names the model save file, formatted with %1s. */
  function SavePathProgram(save: string): string {
    "modelsavepath <- '" + Width1(save) + "'"
  }

  /** The training script: the configured train file's contents, or the built-in script when none is configured. */
  function TrainScript(cfg: ModelConfig, files: map<string, FileNode>, builtInScript: string): Result<string> {
    match Property(cfg, Config.TrainFile)
    case None => Success(builtInScript)
    case Some(f) => ReadFile(files, f)
  }

  /** The training function: the built-in one with the built-in script, otherwise the configured one (possibly null). */
  function TrainCall(cfg: ModelConfig, builtInFunction: string): Option<string> {
    if Property(cfg, Config.TrainFile).None? then Some(builtInFunction) else Property(cfg, Config.TrainFunction)
  }

  /** A computed program as a step: its text, or the error raised instead of evaluating it. */
  function Given(program: Result<string>): Step {
    match program
    case Success(p) => Send(p)
    case Failure(e) => Abort(e)
  }

  /** The header program of a training run, or the error the class attribute lookup raises. */
  function HeaderStep(cfg: ModelConfig, path: string): Step {
    match ClassName(cfg)
    case Success(c) => Send(HeaderProgram(HeaderPath(path), path, c))
    case Failure(e) => Abort(e)
  }

  /** What trainFile evaluates once the header file is written. */
  function NamedSteps(cfg: ModelConfig, path: string, train: Option<string>): seq<Step>
    requires Scorer.Named(cfg.attributes)
  {
    [HeaderStep(cfg, path),
     Given(CategoricalsDefinition(CategoricalNames(cfg.attributes))),
     Send(SavePathProgram(ModelSavePath(cfg, path))),
     EvalStep(train)]
  }

  /** Everything trainFile evaluates, in order; names that cannot be sanitised stop it after the script. */
  function TrainSteps(cfg: ModelConfig, path: string, script: Result<string>, train: Option<string>): seq<Step> {
    [Given(script)] + if Scorer.Named(cfg.attributes) then NamedSteps(cfg, path, train) else [Abort(IndexOutOfBounds(0, 0))]
  }

  /** trainFile stage by stage: the script, then, once the header file is written, the remaining programs. */
  function Training(engine: Engine, live: bool, history: seq<string>, cfg: ModelConfig, path: string,
                    script: Result<string>, train: Option<string>): Exec
  {
    var x := Execute(engine, live, history, [Given(script)]);
    if x.outcome.Failure? then x
    else if !Scorer.Named(cfg.attributes) then Exec(x.delivered, Failure(IndexOutOfBounds(0, 0)))
    else Execute(engine, live, x.delivered, NamedSteps(cfg, path, train))
  }

  /** The staged run is the run of the whole step list. */
  lemma TrainingRun(engine: Engine, live: bool, history: seq<string>, cfg: ModelConfig, path: string,
                    script: Result<string>, train: Option<string>)
    ensures Training(engine, live, history, cfg, path, script, train) == Execute(engine, live, history, TrainSteps(cfg, path, script, train))
  {
    var rest := if Scorer.Named(cfg.attributes) then NamedSteps(cfg, path, train) else [Abort(IndexOutOfBounds(0, 0))];
    ExecuteAppend(engine, live, history, [Given(script)], rest);
    var x := Execute(engine, live, history, [Given(script)]);
    if x.outcome.Success? && !Scorer.Named(cfg.attributes) {
      ExecuteOne(engine, live, x.delivered, Abort(IndexOutOfBounds(0, 0)));
    }
  }

  /** Whether trainFile got past the script and the names, to where it sets MODEL_FILE and writes the header file. */
  predicate HeaderWritten(engine: Engine, live: bool, history: seq<string>, cfg: ModelConfig, script: Result<string>) {
    Execute(engine, live, history, [Given(script)]).outcome.Success? && Scorer.Named(cfg.attributes)
  }

  /**
   * A successful live training evaluated the script, the header program naming the header
   * file, the instances file and the class attribute, the categoricals, the model save path
   * and the training function, in that order; the class index was usable and there was at
   * least one categorical attribute.
   */
  lemma TrainingSuccess(engine: Engine, history: seq<string>, cfg: ModelConfig, path: string, script: Result<string>, train: Option<string>)
    requires Training(engine, true, history, cfg, path, script, train).outcome.Success?
    ensures script.Success? && train.Some? && Scorer.Named(cfg.attributes)
    ensures ClassName(cfg).Success? && CategoricalNames(cfg.attributes) != []
    ensures Training(engine, true, history, cfg, path, script, train).delivered ==
              history + [script.value,
                         HeaderProgram(HeaderPath(path), path, ClassName(cfg).value),
                         CategoricalsDefinition(CategoricalNames(cfg.attributes)).value,
                         SavePathProgram(ModelSavePath(cfg, path)),
                         train.value]
  {
    TrainingRun(engine, true, history, cfg, path, script, train);
    var steps := TrainSteps(cfg, path, script, train);
    SuccessDeliversAll(engine, history, steps);
    assert steps[0] == Given(script);
    var named := NamedSteps(cfg, path, train);
    assert steps[1..] == named;
    assert named[0] == steps[1] && named[1] == steps[2] && named[3] == steps[4];
    ProgramsFive(steps);
  }

  /** The programs of five steps that all send. */
  lemma ProgramsFive(steps: seq<Step>)
    requires |steps| == 5 && NoAbort(steps)
    ensures Programs(steps) == [steps[0].program, steps[1].program, steps[2].program, steps[3].program, steps[4].program]
  {
    ProgramsOfSends(steps);
  }

  /** Steps that all send have one program each, in order. */
  lemma {:induction false} ProgramsOfSends(steps: seq<Step>)
    requires NoAbort(steps)
    ensures |Programs(steps)| == |steps|
    ensures forall i :: 0 <= i < |steps| ==> Programs(steps)[i] == steps[i].program
    decreases |steps|
  {
    if steps != [] {
      var init := steps[..|steps| - 1];
      assert forall i :: 0 <= i < |init| ==> init[i] == steps[i];
      ProgramsOfSends(init);
    }
  }

  /** What trainFile returns: the saved model, or the wrapped failure of an eval or of reading the model save file. */
  function TrainResult(outcome: Result<()>, saved: Option<string>, save: string): (r: Result<string>)
    ensures r.Success? <==> outcome.Success? && saved.Some?
    ensures r.Success? ==> r.value == saved.value
    ensures r.Failure? ==> r.error.FosException? && r.error.cause.Some?
  {
    if outcome.Failure? then Failure(Wrapped(outcome.error))
    else if saved.None? then Failure(Wrapped(IoFailure(save)))
    else Success(saved.value)
  }

  /**
   * The files after trainFile: once it got that far, the header file holds the column names,
   * and after a successful training the model save file holds the trained model.
   */
  function TrainedFiles(files: map<string, FileNode>, cfg: ModelConfig, path: string, written: bool, r: Result<string>): map<string, FileNode>
    requires written ==> Scorer.Named(cfg.attributes)
  {
    if !written then files
    else
      var withHeader := files[HeaderPath(path) := RegularFile(HeaderText(cfg.attributes))];
      if r.Success? then withHeader[ModelSavePath(cfg, path) := RegularFile(r.value)] else withHeader
  }

  // ---------------------------------------------------------------------------------------
  // The instances file

  /** A row written by Joiner.on(','): the fields' texts joined by ','; a null field has none. */
  function RowText(row: seq<Value>): (r: Option<string>)
    ensures r.Some? <==> forall i :: 0 <= i < |row| ==> FieldText(row[i]).Some?
    ensures r.Some? ==> r.value == Join(",", FieldTexts(row))
  {
    if forall i :: 0 <= i < |row| ==> FieldText(row[i]).Some? then Some(Join(",", FieldTexts(row))) else None
  }

  function FieldTexts(row: seq<Value>): (r: seq<string>)
    requires forall i :: 0 <= i < |row| ==> FieldText(row[i]).Some?
    ensures |r| == |row| && forall i :: 0 <= i < |row| ==> r[i] == FieldText(row[i]).value
  {
    seq(|row|, i requires 0 <= i < |row| && FieldText(row[i]).Some? => FieldText(row[i]).value)
  }

  /** The instances file: one line per row, each ended by the line separator; a null field stops the dump. */
  function InstancesText(rows: seq<seq<Value>>): Result<string>
    decreases |rows|
  {
    if rows == [] then Success("") else Appended(InstancesText(rows[..|rows| - 1]), rows[|rows| - 1])
  }

  /** One more row written after `written`: a failure stays, a row with a null field fails. */
  function Appended(written: Result<string>, row: seq<Value>): Result<string> {
    match written
    case Failure(e) => Failure(e)
    case Success(t) =>
      match RowText(row)
      case None => Failure(NullReference("instance field"))
      case Some(line) => Success(t + line + "\n")
  }

  /** The lines of the instances file, one per row, when no field is null. */
  function Lines(rows: seq<seq<Value>>): (r: seq<string>)
    requires forall i :: 0 <= i < |rows| ==> RowText(rows[i]).Some?
    ensures |r| == |rows| && forall i :: 0 <= i < |rows| ==> r[i] == RowText(rows[i]).value
  {
    seq(|rows|, i requires 0 <= i < |rows| && RowText(rows[i]).Some? => RowText(rows[i]).value)
  }

  /** Whether every field of every row has a text. */
  predicate AllFields(rows: seq<seq<Value>>) {
    forall i :: 0 <= i < |rows| ==> RowText(rows[i]).Some?
  }

  /** The dump succeeds exactly when no field is null. */
  lemma {:induction false} InstancesTextSucceeds(rows: seq<seq<Value>>)
    ensures InstancesText(rows).Success? <==> AllFields(rows)
    decreases |rows|
  {
    if rows != [] {
      var init := rows[..|rows| - 1];
      InstancesTextSucceeds(init);
      assert forall i :: 0 <= i < |init| ==> init[i] == rows[i];
    }
  }

  /** The index of the first row with a null field, or the number of rows when there is none. */
  function FirstNull(rows: seq<seq<Value>>): (k: nat)
    ensures k <= |rows|
    ensures forall i :: 0 <= i < k ==> RowText(rows[i]).Some?
    ensures k < |rows| ==> RowText(rows[k]).None?
  {
    if rows == [] || RowText(rows[0]).None? then 0 else 1 + FirstNull(rows[1..])
  }

  /** The dump fails exactly when some row has a null field, and the rows before the first such row dump successfully. */
  lemma FirstNullFails(rows: seq<seq<Value>>)
    ensures InstancesText(rows).Failure? <==> FirstNull(rows) < |rows|
    ensures InstancesText(rows[..FirstNull(rows)]).Success?
  {
    var k := FirstNull(rows);
    InstancesTextSucceeds(rows);
    InstancesTextSucceeds(rows[..k]);
    if k == |rows| {
      assert rows[..k] == rows;
    }
  }

  /** The text the dump wrote before it reached the first row with a null field. */
  function WrittenBeforeNull(rows: seq<seq<Value>>): (r: string)
    ensures InstancesText(rows[..FirstNull(rows)]) == Success(r)
  {
    FirstNullFails(rows);
    InstancesText(rows[..FirstNull(rows)]).value
  }

  /** A dump that reaches a null field at row `i` has written exactly the lines before it. */
  lemma DumpStopsAt(rows: seq<seq<Value>>, i: nat, text: string)
    requires i < |rows| && RowText(rows[i]).None? && InstancesText(rows[..i]) == Success(text)
    ensures InstancesText(rows) == Failure(NullReference("instance field")) && WrittenBeforeNull(rows) == text
  {
    assert rows[..i + 1][..i] == rows[..i];
    InstancesFailureIsFinal(rows, i + 1);
    InstancesTextSucceeds(rows[..i]);
    FirstNullAt(rows, i);
  }

  /** A null field at row i, after rows that all dump, is the first null field. */
  lemma FirstNullAt(rows: seq<seq<Value>>, i: nat)
    requires i < |rows| && RowText(rows[i]).None? && AllFields(rows[..i])
    ensures FirstNull(rows) == i
  {
    assert forall j :: 0 <= j < i ==> rows[..i][j] == rows[j];
  }

  /** Writing a key twice leaves only the second value. */
  lemma Overwrite<K, V>(m: map<K, V>, k: K, a: V, b: V)
    ensures m[k := a][k := b] == m[k := b]
  {
  }

  /** The first `n` characters of `s`, or all of it when it is shorter. */
  function Front(s: string, n: nat): (r: string)
    ensures |r| <= n && r <= s
    ensures |r| == n || r == s
  {
    if n < |s| then s[..n] else s
  }

  /** A successful dump holds every line, each followed by the separator. */
  lemma {:induction false} InstancesTextLines(rows: seq<seq<Value>>)
    requires AllFields(rows)
    ensures InstancesText(rows) == Success(Terminated("\n", Lines(rows)))
    decreases |rows|
  {
    if rows != [] {
      var init := rows[..|rows| - 1];
      assert forall i :: 0 <= i < |init| ==> init[i] == rows[i];
      InstancesTextLines(init);
      assert Lines(rows)[..|rows| - 1] == Lines(init);
    }
  }

  /** Read back line by line, the instances file gives one line per row, followed by the empty rest after the last separator. */
  lemma InstancesRecovers(rows: seq<seq<Value>>)
    requires AllFields(rows) && Avoids(Lines(rows), '\n')
    ensures InstancesText(rows).Success? && Split("\n", InstancesText(rows).value) == Lines(rows) + [""]
  {
    InstancesTextLines(rows);
    var lines := Lines(rows);
    var ys := lines + [""];
    assert ys[..|ys| - 1] == lines;
    assert Join("\n", ys) == Terminated("\n", lines) + "";
    assert Terminated("\n", lines) + "" == Terminated("\n", lines);
    assert forall i :: 0 <= i < |ys| ==> '\n' !in ys[i] by {
      forall i | 0 <= i < |ys| ensures '\n' !in ys[i] {
        if i < |lines| { assert ys[i] == lines[i]; }
      }
    }
    assert "\n"[0] == '\n';
    SplitJoin("\n", ys);
  }

  /** A row's line, split at ',', gives its fields' texts back when no field holds a ','. */
  lemma RowRecovers(row: seq<Value>)
    requires row != [] && RowText(row).Some? && Avoids(FieldTexts(row), ',')
    ensures Split(",", RowText(row).value) == FieldTexts(row)
  {
    SplitJoin(",", FieldTexts(row));
  }

  // ---------------------------------------------------------------------------------------
  // removeModel and save on values

  /**
   * removeModel as written: the record is taken out of the registry, the environment is
   * removed, then the header file and the model file are deleted through the record, whose
   * missing record, header or model is dereferenced.
   */
  function RemovalAsWritten(e: Option<Config.Entry>, removed: Result<()>): Result<()> {
    if removed.Failure? then removed
    else if e.None? then Failure(NullReference("rModelConfig"))
    else if e.value.header.None? then Failure(NullReference("header"))
    else if e.value.model.None? then Failure(NullReference("model"))
    else Success(())
  }

  /** The files removeModel as written leaves: it deletes only up to the first missing path. */
  function RemovedFilesAsWritten(files: map<string, FileNode>, e: Option<Config.Entry>, removed: Result<()>): map<string, FileNode> {
    if removed.Failure? || e.None? || e.value.header.None? then files
    else if e.value.model.None? then files - {e.value.header.value}
    else files - {e.value.header.value, e.value.model.value}
  }

  /** Every record the registry creates has no header file, so removing it fails after the registry and R forgot it, and deletes nothing. */
  lemma AddedModelRemovalFails(files: map<string, FileNode>, u: Uuid.Uuid, model: string, cfg: ModelConfig)
    ensures var e := Some(Config.Entry(Some(u), Some(model), None, cfg));
            RemovalAsWritten(e, Success(())) == Failure(NullReference("header")) &&
            RemovedFilesAsWritten(files, e, Success(())) == files
  {
  }

  /** removeModel as intended: the files the record names are deleted, and a missing header or model file is skipped. */
  function Removal(e: Option<Config.Entry>, removed: Result<()>): (r: Result<()>)
    ensures r.Success? <==> removed.Success? && e.Some?
    ensures removed.Failure? ==> r == removed
  {
    if removed.Failure? then removed
    else if e.None? then Failure(NullReference("rModelConfig"))
    else Success(())
  }

  function RemovedFiles(files: map<string, FileNode>, e: Option<Config.Entry>, removed: Result<()>): (r: map<string, FileNode>)
    ensures r.Keys <= files.Keys
    ensures forall p :: p in r ==> r[p] == files[p]
  {
    if removed.Failure? || e.None? then files
    else
      var header := if e.value.header.Some? then {e.value.header.value} else {};
      var model := if e.value.model.Some? then {e.value.model.value} else {};
      files - header - model
  }

  /** Once R dropped the environment, removal succeeds and leaves no file the record names. */
  lemma RemovalDeletes(files: map<string, FileNode>, e: Config.Entry)
    ensures Removal(Some(e), Success(())) == Success(())
    ensures var left := RemovedFiles(files, Some(e), Success(()));
            (e.header.Some? ==> e.header.value !in left) &&
            (e.model.Some? ==> e.model.value !in left) &&
            forall p :: p in files && Some(p) != e.header && Some(p) != e.model ==> p in left
  {
  }

  /** The message of a failed save. */
  function SaveFailure(u: Uuid.Uuid, savepath: string): string {
    "Unable to save model " + Uuid.ToString(u) + " to " + savepath
  }

  /** Whether a file can be created at `path`: its parent is an existing directory (no parent: the working directory). */
  predicate InDirectory(files: map<string, FileNode>, path: string) {
    match Parent(path)
    case None => true
    case Some(d) => d in files && files[d].Directory?
  }

  /**
   * Guava's Files.copy(source, destination): the files after the copy, or None when it throws.
   * It throws for a null source, a source equal to the destination, a source that is not a
   * readable regular file, and a destination that cannot be opened for writing: a directory,
   * or a path whose parent is not an existing directory.
   */
  function Copied(files: map<string, FileNode>, source: Option<string>, destination: string): (r: Option<map<string, FileNode>>)
    ensures r.Some? <==> source.Some? && source.value != destination && ReadFile(files, source.value).Success? &&
                         !(destination in files && files[destination].Directory?) && InDirectory(files, destination)
    ensures r.Some? ==> r.value == files[destination := files[source.value]]
  {
    if source.None? || source.value == destination then None
    else if ReadFile(files, source.value).Failure? then None
    else if destination in files && files[destination].Directory? then None
    else if !InDirectory(files, destination) then None
    else Some(files[destination := files[source.value]])
  }

  /** A copy into a folder that does not exist fails, as opening its output stream does. */
  lemma CopyIntoMissingFolder(files: map<string, FileNode>, source: string, destination: string)
    requires Parent(destination).Some? && Parent(destination).value !in files
    ensures Copied(files, Some(source), destination).None?
  {
  }

  /** The example of a save into a missing folder: "/m/a.model" cannot be copied to "/nodir/b.model". */
  lemma SaveIntoMissingFolder()
    ensures Copied(map["/m/a.model" := RegularFile("x")], Some("/m/a.model"), "/nodir/b.model") == None
  {
    LastSlashAt("/nodir/b.model", 6);
  }

  /** A copy leaves the destination with the source's contents and every other file as it was. */
  lemma CopyKeepsOthers(files: map<string, FileNode>, source: string, destination: string)
    requires Copied(files, Some(source), destination).Some?
    ensures var after := Copied(files, Some(source), destination).value;
            after[destination] == files[source] && after[source] == files[source] &&
            forall p :: p in files && p != destination ==> p in after && after[p] == files[p]
  {
  }

  // ---------------------------------------------------------------------------------------
  // trainAndAddFile: the model it registers

  /** The model file trainAndAddFile registers, as written: the training file's path with ".model". */
  function RegisteredModelAsWritten(path: string): string {
    path + ".model"
  }

  /**
   * As written, the registered model is not the file the training saved unless MODEL_SAVE_PATH
   * is the training file's directory: with MODEL_SAVE_PATH "/models", "/data/train.csv" is
   * trained into "/models/train.csv.model" while "/data/train.csv.model" is registered.
   */
  lemma RegisteredModelMismatch()
    ensures var cfg := ModelConfig([], map[Config.ModelSavePath := "/models"]);
            var path := "/data/train.csv";
            ModelSavePath(cfg, path) == "/models/train.csv.model" &&
            RegisteredModelAsWritten(path) == "/data/train.csv.model" &&
            ModelSavePath(cfg, path) != RegisteredModelAsWritten(path)
  {
    var cfg := ModelConfig([], map[Config.ModelSavePath := "/models"]);
    var path := "/data/train.csv";
    LastSlashAt(path, 5);
    assert BaseName(path) == path[6..] == "train.csv";
    assert Property(cfg, Config.ModelSavePath) == Some("/models");
    assert ModelSavePath(cfg, path) == "/models" + "/" + "train.csv.model";
  }

  /** When MODEL_SAVE_PATH is the training file's directory, the two agree, as trainAndAdd arranges. */
  lemma RegisteredModelAgrees(cfg: ModelConfig, path: string)
    requires Normal(path) && Property(cfg, Config.ModelSavePath) == Parent(path)
    ensures ModelSavePath(cfg, path) == RegisteredModelAsWritten(path)
  {
    ChildOfParent(path, ".model");
  }

  // ---------------------------------------------------------------------------------------
  // The manager

  class RManager {
    /** The Rserve session, shared with the scorer. */
    const rserve: FosRserve
    const scorer: Scorer.RScorer
    /** RModelConfig.BUILT_IN_RANDOM_FOREST_TRAIN: the text of the built-in training script resource. */
    const builtInScript: string
    /** RModelConfig.BUILT_IN_RANDOM_FOREST_TRAIN_FUNCTION: the program that runs the built-in training. */
    const builtInFunction: string
    /** java.io.tmpdir, where temporary files go when no directory is given. */
    const tempDirectory: string
    /** modelConfigs: the records of the registered models. */
    var modelConfigs: map<Uuid.Uuid, Config.RModelConfig>
    /** The file system. */
    var files: map<string, FileNode>

    /** The scorer shares the manager's session, and every record carries the id it is registered under. */
    predicate Valid()
      reads this`modelConfigs, modelConfigs.Values`id
    {
      scorer.rserve == rserve &&
      forall u :: u in modelConfigs ==> modelConfigs[u].id == Some(u)
    }

    /** A manager with a new session, a scorer on it and an empty registry. */
    constructor (engine: Engine, rVariableName: string -> string, builtInScript: string, builtInFunction: string,
                 tempDirectory: string, files: map<string, FileNode>)
      ensures Valid() && fresh(rserve) && modelConfigs == map[] && this.files == files
      ensures rserve.engine == engine && rserve.rVariableName == rVariableName && rserve.sent == [] && rserve.Live()
      ensures this.builtInScript == builtInScript && this.builtInFunction == builtInFunction && this.tempDirectory == tempDirectory
    {
      var session := new FosRserve(engine, rVariableName);
      rserve := session;
      scorer := new Scorer.RScorer(session);
      this.builtInScript := builtInScript;
      this.builtInFunction := builtInFunction;
      this.tempDirectory := tempDirectory;
      modelConfigs := map[];
      this.files := files;
    }

    /** The registry after a fresh record for model file `model` was put under `u`; the other entries stay. */
    twostate predicate Entered(u: Uuid.Uuid, model: string)
      reads this`modelConfigs, modelConfigs.Values`id, modelConfigs.Values`model
    {
      u in modelConfigs && modelConfigs == old(modelConfigs)[u := modelConfigs[u]] && fresh(modelConfigs[u]) &&
      modelConfigs[u].id == Some(u) && modelConfigs[u].model == Some(model)
    }

    /**
     * What addOrUpdate made of the record entered under `u`, starting from the programs in
     * `history`: its header and configuration, the programs delivered and whether the
     * environment was built (the entry stays either way).
     */
    predicate Built(config: ModelConfig, u: Uuid.Uuid, model: string, history: seq<string>, built: Result<()>)
      reads this`modelConfigs, rserve, modelConfigs.Values
    {
      var cfg := Config.WithModel(Config.WithId(config, u), model);
      u in modelConfigs &&
      modelConfigs[u].Snapshot() ==
        Config.Entry(Some(u), Some(model), None, Scorer.ConfigAfter(rserve.engine, rserve.Live(), history, Some(u), Some(model), cfg)) &&
      Exec(rserve.sent, built) ==
        Scorer.Namespace(rserve.engine, rserve.Live(), history, Some(u), Some(model), cfg, rserve.rVariableName("attributes"))
    }

    /** A new record for the model: id and model file set, put into the registry, then its environment built. */
    method Register(config: ModelConfig, u: Uuid.Uuid, model: string) returns (r: Result<()>)
      requires Valid()
      modifies this`modelConfigs, rserve`sent
      ensures Valid() && Entered(u, model) && Built(config, u, model, old(rserve.sent), r)
    {
      var rec := NewRecord(config, u, model);
      modelConfigs := modelConfigs[u := rec];
      assert Valid() && Entered(u, model);
      r := Build(config, u, model, rec);
    }

    /** addOrUpdate on the record just entered under `u`. */
    method Build(ghost config: ModelConfig, ghost u: Uuid.Uuid, ghost model: string, rec: Config.RModelConfig) returns (r: Result<()>)
      requires scorer.rserve == rserve && u in modelConfigs && modelConfigs[u] == rec && rec.id == Some(u) && rec.model == Some(model) && rec.header == None
      requires rec.config == Config.WithModel(Config.WithId(config, u), model)
      modifies rserve`sent, rec`config
      ensures Built(config, u, model, old(rserve.sent), r)
    {
      r := scorer.AddOrUpdate(rec);
    }

    /** new RModelConfig(config), then setId and setModel. */
    static method NewRecord(config: ModelConfig, u: Uuid.Uuid, model: string) returns (rec: Config.RModelConfig)
      ensures fresh(rec) && rec.id == Some(u) && rec.model == Some(model) && rec.header == None
      ensures rec.config == Config.WithModel(Config.WithId(config, u), model)
    {
      rec := new Config.RModelConfig(config);
      rec.SetId(u);
      rec.SetModel(model);
    }

    /** addModel(config, localFileName): the model file is registered under the configured or a random id. */
    method AddModel(config: ModelConfig, localFileName: string, random: Uuid.Uuid) returns (r: Result<Uuid.Uuid>, ghost built: Result<()>)
      requires Valid()
      modifies this`modelConfigs, rserve`sent
      ensures Valid()
      ensures GetUuid(config, random).Failure? ==>
                r == Failure(GetUuid(config, random).error) && modelConfigs == old(modelConfigs) && rserve.sent == old(rserve.sent)
      ensures GetUuid(config, random).Success? ==>
                Entered(GetUuid(config, random).value, localFileName) && Built(config, GetUuid(config, random).value, localFileName, old(rserve.sent), built) &&
                r == Identified(GetUuid(config, random).value, built)
    {
      var u := GetUuid(config, random);
      if u.Failure? {
        return Failure(u.error), Success(());
      }
      var b := Register(config, u.value, localFileName);
      r, built := Identified(u.value, b), b;
    }

    /**
     * addModel(config, byte[]): the bytes go to a new temporary file "<id><random>.model" in the
     * directory named by the model file of the record already registered under the id (the
     * temporary directory when that record has none), and that file is registered. For an id
     * that is not registered yet, the record lookup is dereferenced while null.
     */
    method AddModelBytes(config: ModelConfig, model: string, random: Uuid.Uuid, tempName: string) returns (r: Result<Uuid.Uuid>, ghost built: Result<()>)
      requires Valid()
      modifies this`modelConfigs, this`files, rserve`sent
      ensures Valid()
      ensures GetUuid(config, random).Failure? ==>
                r == Failure(GetUuid(config, random).error) && modelConfigs == old(modelConfigs) &&
                files == old(files) && rserve.sent == old(rserve.sent)
      ensures GetUuid(config, random).Success? && GetUuid(config, random).value !in old(modelConfigs) ==>
                r == Failure(NullReference("rModelConfig")) && modelConfigs == old(modelConfigs) &&
                files == old(files) && rserve.sent == old(rserve.sent)
      ensures GetUuid(config, random).Success? && GetUuid(config, random).value in old(modelConfigs) ==>
                var u := GetUuid(config, random).value;
                var folder := if old(modelConfigs[u].model).Some? then old(modelConfigs[u].model).value else tempDirectory;
                var file := ChildPath(Some(folder), Uuid.ToString(u) + tempName + ".model");
                if folder in old(files) && old(files)[folder].Directory? then
                  files == old(files)[file := RegularFile(model)] && Entered(u, file) && Built(config, u, file, old(rserve.sent), built) && r == Identified(u, built)
                else
                  r == Failure(Wrapped(IoFailure(folder))) && modelConfigs == old(modelConfigs) &&
                  files == old(files) && rserve.sent == old(rserve.sent)
    {
      var u := GetUuid(config, random);
      if u.Failure? {
        return Failure(u.error), Success(());
      }
      if u.value !in modelConfigs {
        // modelConfigs.get(id).getModel() on an id that is not registered
        return Failure(NullReference("rModelConfig")), Success(());
      }
      var folder := if modelConfigs[u.value].model.Some? then modelConfigs[u.value].model.value else tempDirectory;
      if !(folder in files && files[folder].Directory?) {
        return Failure(Wrapped(IoFailure(folder))), Success(());
      }
      r, built := WriteAndRegister(config, u.value, ChildPath(Some(folder), Uuid.ToString(u.value) + tempName + ".model"), model);
    }

    /** The bytes are written to the new model file, and that file is registered under `u`. */
    method WriteAndRegister(config: ModelConfig, u: Uuid.Uuid, file: string, model: string) returns (r: Result<Uuid.Uuid>, ghost built: Result<()>)
      requires Valid()
      modifies this`modelConfigs, this`files, rserve`sent
      ensures Valid() && files == old(files)[file := RegularFile(model)]
      ensures Entered(u, file) && Built(config, u, file, old(rserve.sent), built) && r == Identified(u, built)
    {
      files := files[file := RegularFile(model)];
      var b := Register(config, u, file);
      r, built := Identified(u, b), b;
    }

    /**
     * removeModel as written: the entry is taken out, the environment removed, and the header
     * and model files deleted through the record, whose null fields are dereferenced.
     */
    method RemoveModelAsWritten(id: Uuid.Uuid) returns (r: Result<()>)
      requires Valid()
      modifies this`modelConfigs, this`files, rserve`sent
      ensures Valid()
      ensures modelConfigs == old(modelConfigs) - {id}
      ensures var x := Execute(rserve.engine, rserve.Live(), old(rserve.sent), [Send(Scorer.RemoveProgram(id))]);
              var e := if id in old(modelConfigs) then Some(old(modelConfigs[id].Snapshot())) else None;
              rserve.sent == x.delivered && r == RemovalAsWritten(e, x.outcome) && files == RemovedFilesAsWritten(old(files), e, x.outcome)
    {
      var rec := if id in modelConfigs then Some(modelConfigs[id]) else None;
      modelConfigs := modelConfigs - {id};
      var removed := scorer.RemoveModel(id);
      if removed.Failure? {
        return removed;
      }
      if rec.None? {
        return Failure(NullReference("rModelConfig"));
      }
      var header := rec.value.GetHeader();
      if header.None? {
        return Failure(NullReference("header"));
      }
      files := files - {header.value};
      if rec.value.model.None? {
        return Failure(NullReference("model"));
      }
      files := files - {rec.value.model.value};
      r := Success(());
    }

    /** removeModel as intended: the entry is taken out, the environment removed, and the files the record names deleted. */
    method RemoveModel(id: Uuid.Uuid) returns (r: Result<()>)
      requires Valid()
      modifies this`modelConfigs, this`files, rserve`sent
      ensures Valid()
      ensures modelConfigs == old(modelConfigs) - {id}
      ensures var x := Execute(rserve.engine, rserve.Live(), old(rserve.sent), [Send(Scorer.RemoveProgram(id))]);
              var e := if id in old(modelConfigs) then Some(old(modelConfigs[id].Snapshot())) else None;
              rserve.sent == x.delivered && r == Removal(e, x.outcome) && files == RemovedFiles(old(files), e, x.outcome)
    {
      var rec := if id in modelConfigs then Some(modelConfigs[id]) else None;
      modelConfigs := modelConfigs - {id};
      var removed := scorer.RemoveModel(id);
      if removed.Failure? {
        return removed;
      }
      if rec.None? {
        return Failure(NullReference("rModelConfig"));
      }
      var header := rec.value.GetHeader();
      if header.Some? {
        files := files - {header.value};
      }
      if rec.value.model.Some? {
        files := files - {rec.value.model.value};
      }
      r := Success(());
    }

    /**
     * The configuration a reconfigured record is rebuilt with: the newer configuration merged
     * in, and the new model file set when there is one.
     */
    static function Reconfigured(cfg: ModelConfig, newer: ModelConfig, file: Option<string>): ModelConfig {
      if file.Some? then Config.WithModel(Merge(cfg, newer), file.value) else Merge(cfg, newer)
    }

    /**
     * The shared part of both reconfigureModel variants for one record: update (a null
     * configuration is rejected before anything changes), the new model file when there is
     * one, then addOrUpdate.
     */
    method Rebuild(rec: Config.RModelConfig, newer: Option<ModelConfig>, file: Option<string>) returns (r: Result<()>)
      requires scorer.rserve == rserve
      modifies rserve`sent, rec`config, rec`model
      ensures newer.None? ==>
                r == Failure(NullReference("modelConfig")) && rserve.sent == old(rserve.sent) &&
                rec.config == old(rec.config) && rec.model == old(rec.model)
      ensures newer.Some? ==>
                var cfg := Reconfigured(old(rec.config), newer.value, file);
                rec.model == (if file.Some? then file else old(rec.model)) &&
                Exec(rserve.sent, r) == Scorer.Namespace(rserve.engine, rserve.Live(), old(rserve.sent), rec.id, rec.model, cfg,
                                                         rserve.rVariableName("attributes")) &&
                rec.config == Scorer.ConfigAfter(rserve.engine, rserve.Live(), old(rserve.sent), rec.id, rec.model, cfg)
    {
      r := Prepare(rec, newer, file);
      if r.Failure? {
        return;
      }
      r := scorer.AddOrUpdate(rec);
    }

    /** The record changes of a reconfiguration: update, then the new model file when there is one. */
    static method Prepare(rec: Config.RModelConfig, newer: Option<ModelConfig>, file: Option<string>) returns (r: Result<()>)
      modifies rec`config, rec`model
      ensures newer.None? ==> r == Failure(NullReference("modelConfig")) && rec.config == old(rec.config) && rec.model == old(rec.model)
      ensures newer.Some? ==>
                r == Success(()) && rec.config == Reconfigured(old(rec.config), newer.value, file) &&
                rec.model == (if file.Some? then file else old(rec.model))
    {
      r := rec.Update(newer);
      if r.Failure? {
        return;
      }
      if file.Some? {
        rec.SetModel(file.value);
      }
    }

    /** Only the record registered under `id` may have changed. */
    twostate predicate OthersUnchanged(id: Uuid.Uuid)
      reads this, modelConfigs.Values
    {
      forall v :: v in modelConfigs && v in old(modelConfigs) && v != id ==> modelConfigs[v].Snapshot() == old(modelConfigs[v].Snapshot())
    }

    /**
     * reconfigureModel(id, config), and with a model file reconfigureModel(id, config,
     * localFileName): the record registered under the id takes the newer configuration (and
     * the model file) and its environment is rebuilt; an unregistered id is dereferenced while
     * null.
     */
    method ReconfigureModel(id: Uuid.Uuid, newer: Option<ModelConfig>, file: Option<string>) returns (r: Result<()>)
      requires Valid()
      modifies rserve`sent, modelConfigs.Values
      ensures Valid() && modelConfigs == old(modelConfigs) && OthersUnchanged(id)
      ensures id !in modelConfigs ==> r == Failure(NullReference("rModelConfig")) && rserve.sent == old(rserve.sent)
      ensures id in modelConfigs && newer.None? ==>
                r == Failure(NullReference("modelConfig")) && rserve.sent == old(rserve.sent) &&
                modelConfigs[id].Snapshot() == old(modelConfigs[id].Snapshot())
      ensures id in modelConfigs && newer.Some? ==>
                var rec := modelConfigs[id];
                var cfg := Reconfigured(old(rec.config), newer.value, file);
                rec.model == (if file.Some? then file else old(rec.model)) &&
                Exec(rserve.sent, r) == Scorer.Namespace(rserve.engine, rserve.Live(), old(rserve.sent), Some(id), rec.model, cfg,
                                                         rserve.rVariableName("attributes")) &&
                rec.config == Scorer.ConfigAfter(rserve.engine, rserve.Live(), old(rserve.sent), Some(id), rec.model, cfg) &&
                rec.id == Some(id) && rec.header == old(rec.header)
    {
      if id !in modelConfigs {
        // modelConfigs.get(id).update(...) on an id that is not registered
        return Failure(NullReference("rModelConfig"));
      }
      r := Rebuild(modelConfigs[id], newer, file);
    }

    /** reconfigureModel(id, config, byte[]): not available for R; nothing changes. */
    method ReconfigureModelBytes(id: Uuid.Uuid, newer: Option<ModelConfig>, model: string) returns (r: Result<()>)
      ensures r == Failure(FosException(NotImplemented, None))
    {
      r := Failure(FosException(NotImplemented, None));
    }

    /** listModels: every registered id with its record's configuration. */
    method ListModels() returns (r: map<Uuid.Uuid, ModelConfig>)
      ensures r.Keys == modelConfigs.Keys
      ensures forall u :: u in r ==> r[u] == modelConfigs[u].config
    {
      r := map[];
      var pending := modelConfigs.Keys;
      while pending != {}
        invariant pending <= modelConfigs.Keys
        invariant r.Keys == modelConfigs.Keys - pending
        invariant forall u :: u in r ==> r[u] == modelConfigs[u].config
        decreases |pending|
      {
        var u :| u in pending;
        r := r[u := modelConfigs[u].config];
        pending := pending - {u};
      }
    }

    /** save: copies the model file of a registered model; any failure is reported with one message. */
    method Save(u: Uuid.Uuid, savepath: string) returns (r: Result<()>)
      modifies this`files
      ensures var source := if u in modelConfigs then modelConfigs[u].model else None;
              var copy := Copied(old(files), source, savepath);
              (copy.Some? ==> r == Success(()) && files == copy.value) &&
              (copy.None? ==> r == Failure(FosException(SaveFailure(u, savepath), None)) && files == old(files))
    {
      var source := if u in modelConfigs then modelConfigs[u].model else None;
      var copy := Copied(files, source, savepath);
      if copy.None? {
        return Failure(FosException(SaveFailure(u, savepath), None));
      }
      files := copy.value;
      r := Success(());
    }

    /**
     * writeInstancesToTempFile: the temporary file is created, then every row is written as a
     * line through a buffered writer. A null field stops the dump without closing the writer,
     * so the file keeps only what the buffer had already passed on: the first `flushed`
     * characters of the lines written before that row.
     */
    method WriteInstances(rows: seq<seq<Value>>, file: string, flushed: nat) returns (r: Result<string>)
      modifies this`files
      ensures InstancesText(rows).Success? ==> r == Success(file) && files == old(files)[file := RegularFile(InstancesText(rows).value)]
      ensures InstancesText(rows).Failure? ==>
                r == Failure(InstancesText(rows).error) &&
                files == old(files)[file := RegularFile(Front(WrittenBeforeNull(rows), flushed))]
    {
      files := files[file := RegularFile("")];
      var text := "";
      var i := 0;
      while i < |rows|
        invariant 0 <= i <= |rows|
        invariant InstancesText(rows[..i]) == Success(text)
      {
        assert rows[..i + 1][..i] == rows[..i];
        var line := RowText(rows[i]);
        if line.None? {
          // Joiner.join on a null field; the writer is never closed
          DumpStopsAt(rows, i, text);
          Overwrite(old(files), file, RegularFile(""), RegularFile(Front(text, flushed)));
          files := files[file := RegularFile(Front(text, flushed))];
          return Failure(NullReference("instance field"));
        }
        text := text + line.value + "\n";
        i := i + 1;
      }
      assert rows[..i] == rows;
      Overwrite(old(files), file, RegularFile(""), RegularFile(text));
      files := files[file := RegularFile(text)];
      r := Success(file);
    }

    /**
     * trainFile: evaluates the training script, writes the header file, sets MODEL_FILE on the
     * configuration, then evaluates the header, categoricals and save-path programs and the
     * training function, and reads the saved model back. Every failure is wrapped in a
     * FOSException. `saved` is what the training wrote to the model save file, if anything.
     */
    method TrainFile(cfg: ModelConfig, path: string, saved: Option<string>) returns (r: Result<string>, updated: ModelConfig)
      modifies this`files, rserve`sent
      ensures var script := TrainScript(cfg, old(files), builtInScript);
              var x := Training(rserve.engine, rserve.Live(), old(rserve.sent), cfg, path, script, TrainCall(cfg, builtInFunction));
              var written := HeaderWritten(rserve.engine, rserve.Live(), old(rserve.sent), cfg, script);
              rserve.sent == x.delivered &&
              r == TrainResult(x.outcome, saved, ModelSavePath(cfg, path)) &&
              updated == (if written then WithProperty(cfg, Config.ModelFile, ModelSavePath(cfg, path)) else cfg) &&
              files == TrainedFiles(old(files), cfg, path, written, r)
    {
      var loaded := EvalScript(TrainScript(cfg, files, builtInScript));
      if loaded.Success? && Scorer.Named(cfg.attributes) {
        r, updated := TrainNamed(cfg, path, saved);
      } else {
        // a script that failed, or fosAttributes2Rnames reading the first character of an empty name
        r, updated := Failure(Wrapped(if loaded.Failure? then loaded.error else IndexOutOfBounds(0, 0))), cfg;
      }
    }

    /**
     * trainFile once the script is loaded and the names sanitised: MODEL_FILE is set, the header
     * file written, the remaining programs evaluated and the saved model read back.
     */
    method TrainNamed(cfg: ModelConfig, path: string, saved: Option<string>) returns (r: Result<string>, updated: ModelConfig)
      requires Scorer.Named(cfg.attributes)
      modifies this`files, rserve`sent
      ensures var x := Execute(rserve.engine, rserve.Live(), old(rserve.sent), NamedSteps(cfg, path, TrainCall(cfg, builtInFunction)));
              rserve.sent == x.delivered &&
              r == TrainResult(x.outcome, saved, ModelSavePath(cfg, path)) &&
              updated == WithProperty(cfg, Config.ModelFile, ModelSavePath(cfg, path)) &&
              files == TrainedFiles(old(files), cfg, path, true, r)
    {
      var ran := RunNamed(cfg, path, TrainCall(cfg, builtInFunction));
      // Files.toByteArray fails on a model file the training did not write
      r := TrainResult(ran, saved, ModelSavePath(cfg, path));
      updated := WithProperty(cfg, Config.ModelFile, ModelSavePath(cfg, path));
      WriteTrained(cfg, path, r);
    }

    /**
     * The header file trainFile writes before the evals, and the model file it reads back after
     * them (the R session does not see the file system here, so the two writes can be made together).
     */
    method WriteTrained(cfg: ModelConfig, path: string, r: Result<string>)
      requires Scorer.Named(cfg.attributes)
      modifies this`files
      ensures files == TrainedFiles(old(files), cfg, path, true, r)
    {
      files := files[HeaderPath(path) := RegularFile(HeaderText(cfg.attributes))];
      if r.Success? {
        files := files[ModelSavePath(cfg, path) := RegularFile(r.value)];
      }
    }

    /** The training script is evaluated, unless it could not be read. */
    method EvalScript(script: Result<string>) returns (r: Result<()>)
      modifies rserve`sent
      ensures Exec(rserve.sent, r) == Execute(rserve.engine, rserve.Live(), old(rserve.sent), [Given(script)])
    {
      ExecuteOne(rserve.engine, rserve.Live(), rserve.sent, Given(script));
      if script.Failure? {
        return Failure(script.error);
      }
      var a := rserve.Eval(script.value);
      r := if a.Success? then Success(()) else Failure(a.error);
    }

    /**
     * The evals of trainFile after the header file is written: the header program (whose class
     * attribute lookup may fail), defineCategoricals, the model save path and the training
     * function.
     */
    method RunNamed(cfg: ModelConfig, path: string, train: Option<string>) returns (r: Result<()>)
      requires Scorer.Named(cfg.attributes)
      modifies rserve`sent
      ensures Exec(rserve.sent, r) == Execute(rserve.engine, rserve.Live(), old(rserve.sent), NamedSteps(cfg, path, train))
    {
      var className := ClassName(cfg);
      var header := if className.Success? then Success(HeaderProgram(path + ".header", path, className.value)) else Failure(className.error);
      var categoricals := CategoricalsText(CategoricalNames(cfg.attributes));
      var steps := [Given(header), Given(categoricals), Send("modelsavepath <- '" + Width1(ModelSavePath(cfg, path)) + "'"), EvalStep(train)];
      assert steps == NamedSteps(cfg, path, train);
      r := rserve.Run(steps);
    }

    /**
     * trainAndAdd: the rows are dumped to a temporary file, MODEL_SAVE_PATH is set to its
     * directory, the model is trained from it and the model saved next to it is registered.
     */
    method TrainAndAdd(config: ModelConfig, rows: seq<seq<Value>>, instanceFile: string, random: Uuid.Uuid, saved: Option<string>, flushed: nat)
      returns (r: Result<Uuid.Uuid>)
      requires Valid() && Parent(instanceFile).Some?
      modifies this`modelConfigs, this`files, rserve`sent
      ensures Valid()
      ensures InstancesText(rows).Failure? ==>
                r == Failure(InstancesText(rows).error) && modelConfigs == old(modelConfigs) && rserve.sent == old(rserve.sent) &&
                files == old(files)[instanceFile := RegularFile(Front(WrittenBeforeNull(rows), flushed))]
      ensures r.Success? ==>
                var save := ModelSavePath(WithProperty(config, Config.ModelSavePath, Parent(instanceFile).value), instanceFile);
                saved.Some? && save in files && files[save] == RegularFile(saved.value) &&
                r.value in modelConfigs && modelConfigs[r.value].model == Some(save)
    {
      var written := WriteInstances(rows, instanceFile, flushed);
      if written.Failure? {
        return Failure(written.error);
      }
      var parent := Parent(instanceFile).value;
      var cfg := WithProperty(config, Config.ModelSavePath, parent);
      var trained, cfg' := TrainFile(cfg, instanceFile, saved);
      if trained.Failure? {
        return Failure(trained.error);
      }
      r := AddTrained(cfg', ChildPath(Some(parent), BaseName(instanceFile) + ".model"), random);
    }

    /** addModel on the model a training saved: on success the id names a record of that model file. */
    method AddTrained(config: ModelConfig, model: string, random: Uuid.Uuid) returns (r: Result<Uuid.Uuid>)
      requires Valid()
      modifies this`modelConfigs, rserve`sent
      ensures Valid() && (r.Success? ==> r.value in modelConfigs && modelConfigs[r.value].model == Some(model))
    {
      ghost var built;
      r, built := AddModel(config, model, random);
    }

    /** trainAndAddFile as written: trains from the file, then registers the file's path with ".model". */
    method TrainAndAddFileAsWritten(config: ModelConfig, path: string, random: Uuid.Uuid, saved: Option<string>) returns (r: Result<Uuid.Uuid>)
      requires Valid()
      modifies this`modelConfigs, this`files, rserve`sent
      ensures Valid()
      ensures r.Success? ==> r.value in modelConfigs && modelConfigs[r.value].model == Some(RegisteredModelAsWritten(path))
    {
      var trained, cfg := TrainFile(config, path, saved);
      if trained.Failure? {
        return Failure(trained.error);
      }
      r := AddTrained(cfg, path + ".model", random);
    }

    /** trainAndAddFile as intended: trains from the file, then registers the model file the training saved. */
    method TrainAndAddFile(config: ModelConfig, path: string, random: Uuid.Uuid, saved: Option<string>) returns (r: Result<Uuid.Uuid>)
      requires Valid()
      modifies this`modelConfigs, this`files, rserve`sent
      ensures Valid()
      ensures r.Success? ==> r.value in modelConfigs && modelConfigs[r.value].model == Some(ModelSavePath(config, path))
    {
      var trained, cfg := TrainFile(config, path, saved);
      if trained.Failure? {
        return Failure(trained.error);
      }
      r := AddTrained(cfg, ModelSavePath(config, path), random);
    }

    /** train: the rows are dumped to a temporary file and a model is trained from it; its saved bytes are returned. */
    method Train(config: ModelConfig, rows: seq<seq<Value>>, instanceFile: string, saved: Option<string>, flushed: nat) returns (r: Result<string>)
      requires Valid()
      modifies this`files, rserve`sent
      ensures Valid()
      ensures InstancesText(rows).Failure? ==>
                r == Failure(InstancesText(rows).error) && rserve.sent == old(rserve.sent) &&
                files == old(files)[instanceFile := RegularFile(Front(WrittenBeforeNull(rows), flushed))]
      ensures InstancesText(rows).Success? ==>
                var dumped := old(files)[instanceFile := RegularFile(InstancesText(rows).value)];
                var script := TrainScript(config, dumped, builtInScript);
                var x := Training(rserve.engine, rserve.Live(), old(rserve.sent), config, instanceFile, script, TrainCall(config, builtInFunction));
                var written := HeaderWritten(rserve.engine, rserve.Live(), old(rserve.sent), config, script);
                rserve.sent == x.delivered &&
                files == TrainedFiles(dumped, config, instanceFile, written, r) &&
                (x.outcome.Failure? ==> r == Failure(Wrapped(x.outcome.error))) &&
                (x.outcome.Success? ==> r == if saved.Some? then Success(saved.value) else Failure(Wrapped(IoFailure(ModelSavePath(config, instanceFile)))))
    {
      var written := WriteInstances(rows, instanceFile, flushed);
      if written.Failure? {
        return Failure(written.error);
      }
      var trained, _ := TrainFile(config, instanceFile, saved);
      r := trained;
    }
  }

  /** Once a row has a null field, the dump of any longer prefix fails the same way. */
  lemma {:induction false} InstancesFailureIsFinal(rows: seq<seq<Value>>, k: nat)
    requires 0 < k <= |rows| && RowText(rows[k - 1]).None?
    requires InstancesText(rows[..k - 1]).Success?
    ensures InstancesText(rows) == Failure(NullReference("instance field"))
    decreases |rows|
  {
    var init := rows[..|rows| - 1];
    if |rows| > k {
      assert init[..k - 1] == rows[..k - 1] && init[k - 1] == rows[k - 1];
      InstancesFailureIsFinal(init, k);
    } else {
      assert init == rows[..k - 1];
    }
  }
}
