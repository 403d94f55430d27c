# fos-r in Dafny

This project models the R back end of the FOS scoring service (`com.feedzai.fos.impl.r`):

- **FosRserve** is the handle on an Rserve session. It evaluates R programs, decodes their answers, loads scripts and assigns string and integer vectors.
- **RModelConfig** is the registry record of one model. It wraps a FOS `ModelConfig` and holds the id, the model file and the header file.
- **RScorer** builds one R environment per model and generates its `score` function. It then scores rows by evaluating `env$score(c(...))` programs.
- **RManager** is the registry. It adds, removes, reconfigures, lists and saves models, and trains them by running an R training script on a dumped instances file.

The R engine behind the connection is not modelled. It is an oracle `Engine = (seq<string>, string) -> Reply`. Given every program the session has delivered so far and a new program, it returns the shape of the REXP that `parseAndEval` would return.

The Java side is modelled on top of that oracle:

- how a reply is decoded;
- which programs are delivered, in which order;
- the text of every program;
- where a multi-step operation stops at its first exception;
- what the registry and the file system hold afterwards.

Exceptions become `Result` values with an `Error` taxonomy: FOSException with an optional cause, NullPointerException, index out of bounds, illegal argument, remote, I/O and property failures.

The modules:

- `Outcomes`: `Option`, `Result` and `Error`.
- `Text`: joining, splitting, decimal integers, character removal.
- `Uuid`: the canonical 8-4-4-4-12 text of a UUID and its parser.
- `Fos`: `ModelConfig`, `Attribute`, `Value` and property access.
- `Rserve`: the `FosRserve` class.
  - The `sent` log holds every program the engine received.
  - `connected` and `serverRunning` are its connection state.
  - `Execute` runs a list of `Send`/`Abort` steps, stopping at the first failure.
- `Config`: the `RModelConfig` class.
- `Scorer`: the `RScorer` class.
  - Its score loops are imperative methods, proved against `ScoreJobs`.
  - Its `addOrUpdate` is proved against the staged `Namespace` run.
- `Manager`: the `RManager` class.
  - `modelConfigs` is a map of `RModelConfig` objects that are updated in place.
  - `files` models the file system.
  - Every operation is proved against step lists and file maps.

The scoring function's re-level lines name each categorical by its raw attribute name. The column names assigned just before them are sanitised: a leading digit gets an `X` prefix. For an attribute whose name starts with a digit, the two disagree, and the model keeps that behaviour as written (`Scorer.RawLevelColumnMissing`).

## Model


| member | source | states |
|---|---|---|
| Rserve.Decode | src/main/java/com/feedzai/fos/impl/r/rserve/FosRserve.java:110-127 | eval fails exactly on a transport exception or an R try-error, and every failure is a FOSException "Error executing R script." with a cause |
| Rserve.DecodeEncode | src/main/java/com/feedzai/fos/impl/r/rserve/FosRserve.java:114-125 | every Java value eval can return (null, double[], Integer, Double, String) is decoded from some reply, so no branch of the decoding is dead |
| Rserve.TryErrorWins | src/main/java/com/feedzai/fos/impl/r/rserve/FosRserve.java:111-113 | a try-error reply fails with the R error text as the cause, whatever else the reply carries |
| Rserve.NumericVectorBeforeInteger | src/main/java/com/feedzai/fos/impl/r/rserve/FosRserve.java:116-118 | a numeric vector is returned as double[] before the integer and numeric tests are reached |
| Rserve.StripCrlf | src/main/java/com/feedzai/fos/impl/r/rserve/FosRserve.java:92 | removing "\r\n" pairs never lengthens a script |
| Rserve.StripCrlfLength | src/main/java/com/feedzai/fos/impl/r/rserve/FosRserve.java:92 | each replaced pair shortens the script by exactly one character |
| Rserve.StripCrlfKeepsOthers | src/main/java/com/feedzai/fos/impl/r/rserve/FosRserve.java:92 | apart from carriage returns, the loaded script is the file's text unchanged |
| Rserve.StripCrlfNoPair | src/main/java/com/feedzai/fos/impl/r/rserve/FosRserve.java:92 | a script without a "\r\n" pair is loaded verbatim |
| Rserve.StripCrlfNotIdempotent | src/main/java/com/feedzai/fos/impl/r/rserve/FosRserve.java:92 | a single replacement pass can leave a new "\r\n" pair behind ("\r\r\n" becomes "\r\n") |
| Rserve.StringListRecovers | src/main/java/com/feedzai/fos/impl/r/rserve/FosRserve.java:155-171 | the body of an assignStringList program splits back, at its separators, into every value in its quotes, in order |
| Rserve.IntListRecovers | src/main/java/com/feedzai/fos/impl/r/rserve/FosRserve.java:174-189 | the body of an assignIntList program splits back into the values, and each value in the range of a Java int reads back as itself |
| Rserve.FailureIsFinal | src/main/java/com/feedzai/fos/impl/r/RScorer.java:183-211 | once a step of a multi-eval operation fails, later steps change neither the delivered programs nor the outcome |
| Rserve.SuccessDeliversAll | src/main/java/com/feedzai/fos/impl/r/RScorer.java:183-211 | a successful live run raised no error and delivered every program of its steps, in order |
| Rserve.ExecuteAppend | src/main/java/com/feedzai/fos/impl/r/RScorer.java:183-211 | running two step lists one after the other is running their concatenation |
| Rserve.DeadSessionDeliversNothing | src/main/java/com/feedzai/fos/impl/r/rserve/FosRserve.java:102-129 | on a closed or shut-down session no step reaches the engine |
| Rserve.FosRserve.constructor | src/main/java/com/feedzai/fos/impl/r/rserve/FosRserve.java:67-73 | a new handle is connected to a running server and has delivered nothing |
| Rserve.FosRserve.Eval | src/main/java/com/feedzai/fos/impl/r/rserve/FosRserve.java:102-129 | the result is the decoded answer of the engine, and the program is delivered only on a live session |
| Rserve.FosRserve.Run | src/main/java/com/feedzai/fos/impl/r/RScorer.java:183-211 | evaluating steps one by one gives exactly the outcome and the deliveries of `Execute` |
| Rserve.FosRserve.Load | src/main/java/com/feedzai/fos/impl/r/rserve/FosRserve.java:77-99 | a missing script, a directory and an unreadable file fail with their own messages and send nothing; a readable script is sent with its "\r\n" pairs stripped |
| Rserve.FosRserve.Reset | src/main/java/com/feedzai/fos/impl/r/rserve/FosRserve.java:132-134 | reset evaluates the program that removes every R object |
| Rserve.FosRserve.Close | src/main/java/com/feedzai/fos/impl/r/rserve/FosRserve.java:137-141 | after close the session is no longer connected |
| Rserve.FosRserve.Shutdown | src/main/java/com/feedzai/fos/impl/r/rserve/FosRserve.java:144-152 | an unconnected handle returns without effect; a refused shutdown fails with the server's reason and leaves the server running; otherwise the server stops |
| Rserve.FosRserve.AssignStringList | src/main/java/com/feedzai/fos/impl/r/rserve/FosRserve.java:155-171 | an empty list fails with index out of bounds before anything is sent; otherwise the quoted vector is assigned under the sanitised variable name |
| Rserve.FosRserve.AssignIntList | src/main/java/com/feedzai/fos/impl/r/rserve/FosRserve.java:174-189 | an empty list fails with index out of bounds before anything is sent; otherwise the decimal vector is assigned under the given name |
| Config.SettersKeepInStep | src/main/java/com/feedzai/fos/impl/r/config/RModelConfig.java:195-221 | setId then setModel leave the "id", "model" and "pmml" properties agreeing with the record; the id reads back, and the attributes are untouched |
| Config.ResetModelKeepsInStep | src/main/java/com/feedzai/fos/impl/r/config/RModelConfig.java:216-221 | setting a new model file keeps a record in step with its new file |
| Config.MergeKeepsInStep | src/main/java/com/feedzai/fos/impl/r/config/RModelConfig.java:254-257 | an update that does not touch the derived properties keeps the record in step |
| Config.RModelConfig.constructor | src/main/java/com/feedzai/fos/impl/r/config/RModelConfig.java:153-159 | a new record wraps the configuration and has no id, model or header |
| Config.RModelConfig.GetHeader | src/main/java/com/feedzai/fos/impl/r/config/RModelConfig.java:167-169 | the header file the record holds, possibly none |
| Config.RModelConfig.SetHeader | src/main/java/com/feedzai/fos/impl/r/config/RModelConfig.java:176-178 | the record now names the header file |
| Config.RModelConfig.SetId | src/main/java/com/feedzai/fos/impl/r/config/RModelConfig.java:195-199 | the record holds the id, and its "id" property holds the id's canonical text |
| Config.RModelConfig.SetModel | src/main/java/com/feedzai/fos/impl/r/config/RModelConfig.java:216-221 | the record holds the model file; "model" holds its path and "pmml" the path with the PMML extension |
| Config.RModelConfig.GetPmmlModel | src/main/java/com/feedzai/fos/impl/r/config/RModelConfig.java:228-236 | a set "pmml" property is returned unchanged; otherwise it is derived from the model file and stored, and with no model file the call fails |
| Config.RModelConfig.Update | src/main/java/com/feedzai/fos/impl/r/config/RModelConfig.java:254-257 | a null configuration is rejected and changes nothing; otherwise the newer properties override and the newer attributes replace |
| Fos.WithProperty | src/main/java/com/feedzai/fos/impl/r/RManager.java:315 | setProperty binds one key and leaves every other property and the attributes as they were |
| Fos.IntProperty | src/main/java/com/feedzai/fos/impl/r/RScorer.java:200 | a missing or non-integer property fails naming the key |
| Fos.IntPropertyOfToString | src/main/java/com/feedzai/fos/impl/r/RScorer.java:200 | an integer stored as its decimal text reads back as that integer |
| Fos.Merge | src/main/java/com/feedzai/fos/impl/r/config/RModelConfig.java:256 | each property comes from the newer configuration when it has one and from the old one otherwise; the attributes are the newer ones |
| Uuid.ToString | src/main/java/com/feedzai/fos/impl/r/config/RModelConfig.java:198 | the canonical text has 36 characters with dashes at 8, 13, 18 and 23 |
| Uuid.ParseToString | src/main/java/com/feedzai/fos/impl/r/RManager.java:137 | parsing the canonical text of a UUID gives the UUID back |
| Uuid.HexInjective | src/main/java/com/feedzai/fos/impl/r/RScorer.java:407 | distinct UUIDs have distinct hex digit strings |
| Uuid.DigitsOfToString | src/main/java/com/feedzai/fos/impl/r/RScorer.java:407 | removing the dashes from the canonical text leaves exactly the 32 hex digits |
| Text.SplitJoin | src/main/java/com/feedzai/fos/impl/r/RManager.java:311 | splitting a joined list at its separator gives the list back when no item holds the separator's first character |
| Text.SplitDiscardingTrailingJoin | src/main/java/com/feedzai/fos/impl/r/RScorer.java:185 | String.split, which drops trailing empty pieces, inverts a join whose last item is not empty |
| Text.ParseInt | src/main/java/com/feedzai/fos/impl/r/RScorer.java:200 | Integer.parseInt accepts only values in the range of a Java int |
| Text.ParseIntToString | src/main/java/com/feedzai/fos/impl/r/rserve/FosRserve.java:184 | Integer.toString of any Java int reads back as that int |
| Text.ParseIntPlus | src/main/java/com/feedzai/fos/impl/r/RScorer.java:200 | a leading plus sign is accepted and does not change the value |
| Text.ParseIntOutOfRange | src/main/java/com/feedzai/fos/impl/r/RScorer.java:200 | decimal text of a number above the int range, or below it with a minus sign, is rejected |
| Text.Width1 | src/main/java/com/feedzai/fos/impl/r/RManager.java:336 | formatting with %1s pads only the empty string and leaves any other text as it is |
| Scorer.RName | src/main/java/com/feedzai/fos/impl/r/RScorer.java:391-394 | a sanitised name never starts with a digit; it is the name, with at most an "X" in front, and names without a leading digit are unchanged |
| Scorer.RNames | src/main/java/com/feedzai/fos/impl/r/RScorer.java:388-396 | the sanitised list has one name per attribute, in order |
| Scorer.RNameIdempotent | src/main/java/com/feedzai/fos/impl/r/RScorer.java:388-396 | sanitising an already sanitised name changes nothing |
| Scorer.RNameCollision | src/main/java/com/feedzai/fos/impl/r/RScorer.java:393 | two distinct attribute names, "1" and "X1", share an R column name |
| Scorer.EnvironmentName | src/main/java/com/feedzai/fos/impl/r/RScorer.java:405-408 | an environment name is "x" followed by 32 characters and contains no dash |
| Scorer.EnvironmentNameOfText | src/main/java/com/feedzai/fos/impl/r/RScorer.java:407 | the environment name is "x" and the UUID's canonical text without its dashes |
| Scorer.EnvironmentNameInjective | src/main/java/com/feedzai/fos/impl/r/RScorer.java:405-408 | two models share an environment only when they share an id |
| Scorer.Positions | src/main/java/com/feedzai/fos/impl/r/RScorer.java:264-277 | the numeric or factor column list is strictly increasing, 1-based and lists only columns of that kind |
| Scorer.PositionsMember | src/main/java/com/feedzai/fos/impl/r/RScorer.java:268-276 | a column is listed exactly when its attribute is of that kind |
| Scorer.PositionsPartition | src/main/java/com/feedzai/fos/impl/r/RScorer.java:264-277 | with only numeric and categorical attributes, every column is in exactly one of the two lists |
| Scorer.ColumnStepsUnknown | src/main/java/com/feedzai/fos/impl/r/RScorer.java:268-275 | an attribute of another kind makes defining the scoring function fail |
| Scorer.ExtractCategoricals | src/main/java/com/feedzai/fos/impl/r/RScorer.java:370-380 | the categoricals are the attributes at the factor positions, in order |
| Scorer.ExtractCategoricalsIsFilter | src/main/java/com/feedzai/fos/impl/r/RScorer.java:370-380 | every extracted attribute is categorical, and an attribute is categorical exactly when its position is extracted |
| Scorer.ExtractCategoricalsNamed | src/main/java/com/feedzai/fos/impl/r/RScorer.java:370-380 | extraction keeps every name non-empty |
| Scorer.LevelLines | src/main/java/com/feedzai/fos/impl/r/RScorer.java:320-328 | one re-level line per categorical, in order, each on the categorical's raw name |
| Scorer.AppendLevelLines | src/main/java/com/feedzai/fos/impl/r/RScorer.java:320-328 | the loop appends exactly the concatenated level lines to the text built so far |
| Scorer.LevelLineColumn | src/main/java/com/feedzai/fos/impl/r/RScorer.java:322-325 | the column a level line indexes is the name it was given |
| Scorer.RawLevelColumnMissing | src/main/java/com/feedzai/fos/impl/r/RScorer.java:320-328 | for a categorical whose name starts with a digit, the assigned column is "X" and the name, while the level line indexes the raw name |
| Scorer.DigitColumnRenamed | src/main/java/com/feedzai/fos/impl/r/RScorer.java:391-394 | an attribute whose name starts with a digit gets the column "X" and the name |
| Scorer.ConversionRecovers | src/main/java/com/feedzai/fos/impl/r/RScorer.java:340-363 | the column list of a conversion line sits between its head and tail and splits back into exactly the positions given, in order, each position that fits a Java int parsing back as itself |
| Scorer.GenerateScoringFunction | src/main/java/com/feedzai/fos/impl/r/RScorer.java:255-291 | the generated function is the preamble, both conversions, the level lines and the epilogue, or the "Unknown attribute type" failure |
| Scorer.Render | src/main/java/com/feedzai/fos/impl/r/RScorer.java:128-136 | strings are double-quoted, other objects use their text, and null is "null" |
| Scorer.ScoreRequestFields | src/main/java/com/feedzai/fos/impl/r/RScorer.java:103-112 | a request starts with the model's environment, and its argument list splits back into the rendered values in order |
| Scorer.BuildRequest | src/main/java/com/feedzai/fos/impl/r/RScorer.java:103-112 | the loop builds the request of the specification, and an empty row fails with index out of bounds |
| Scorer.ScoreJobsDelivers | src/main/java/com/feedzai/fos/impl/r/RScorer.java:100-120 | a successful live scoring sent one request per model, in order, and returns one result per model |
| Scorer.ScoreJobsResult | src/main/java/com/feedzai/fos/impl/r/RScorer.java:114-115 | the k-th result is the engine's answer to the k-th request, cast to double[] |
| Scorer.ScoreJobsEmptyRow | src/main/java/com/feedzai/fos/impl/r/RScorer.java:106-110 | scoring an empty row fails |
| Scorer.ScoreMapKeys | src/main/java/com/feedzai/fos/impl/r/RScorer.java:139-146 | the map of scores has exactly the requested models as keys, and each holds its own model's result |
| Scorer.LibrarySteps | src/main/java/com/feedzai/fos/impl/r/RScorer.java:183-188 | without a "libraries" property no library is loaded |
| Scorer.WithoutClass | src/main/java/com/feedzai/fos/impl/r/RScorer.java:199-200 | the column list exists exactly when the class index is an integer inside the attribute list, and is that list without the class attribute |
| Scorer.NamespaceRun | src/main/java/com/feedzai/fos/impl/r/RScorer.java:177-213 | the staged addOrUpdate is the run of its whole step list |
| Scorer.NamespaceSuccess | src/main/java/com/feedzai/fos/impl/r/RScorer.java:177-213 | a successful live addOrUpdate had a model file and a usable class index; it sent the library loads, the environment, the column names and the scoring function, in that order |
| Scorer.LoadStepsSuccess | src/main/java/com/feedzai/fos/impl/r/RScorer.java:183-194 | creating the environment succeeds only with a model file, after the library loads |
| Scorer.ColumnStepsSuccess | src/main/java/com/feedzai/fos/impl/r/RScorer.java:202-211 | a successful column stage had named, known columns and sent the column names then the scoring function |
| Scorer.RemoveProgram | src/main/java/com/feedzai/fos/impl/r/RScorer.java:416-418 | removal evaluates rm on exactly the model's environment |
| Scorer.ScoreRowsDropsResults | src/main/java/com/feedzai/fos/impl/r/RScorer.java:159-170 | when every row is scored, the run holds one result per row, which the as-written call drops |
| Scorer.RScorer.constructor | src/main/java/com/feedzai/fos/impl/r/RScorer.java:77-80 | the scorer works on the given session |
| Scorer.RScorer.ScoreJob | src/main/java/com/feedzai/fos/impl/r/RScorer.java:103-115 | one model scores one row as `ScoreOne` specifies, and the result is its single score |
| Scorer.RScorer.Score | src/main/java/com/feedzai/fos/impl/r/RScorer.java:100-120 | scoring a row with several models gives the outcome and the deliveries of `ScoreJobs` |
| Scorer.RScorer.ScoreMap | src/main/java/com/feedzai/fos/impl/r/RScorer.java:139-146 | each model scores its own row; the scores are keyed by model id |
| Scorer.RScorer.ScoreRowsAsWritten | src/main/java/com/feedzai/fos/impl/r/RScorer.java:159-170 | every row is scored with the model, yet a successful call returns the empty list |
| Scorer.RScorer.ScoreRows | src/main/java/com/feedzai/fos/impl/r/RScorer.java:159-170 | every row is scored with the model, and the call returns one score per row, in order |
| Scorer.RScorer.AddOrUpdate | src/main/java/com/feedzai/fos/impl/r/RScorer.java:177-213 | the programs sent and the outcome are the staged `Namespace` run; the record's attributes lose the class attribute when the column stage is reached |
| Scorer.RScorer.ConfigureColumns | src/main/java/com/feedzai/fos/impl/r/RScorer.java:196-211 | the class index is checked before the columns, and the record's attribute list is replaced only when it is usable |
| Scorer.RScorer.CreateEnvironment | src/main/java/com/feedzai/fos/impl/r/RScorer.java:183-194 | the libraries are loaded, then the environment is created from the model file |
| Scorer.RScorer.AssignColumns | src/main/java/com/feedzai/fos/impl/r/RScorer.java:202-211 | the sanitised column names are assigned, then the scoring function is defined |
| Scorer.RScorer.DefineScoringFunction | src/main/java/com/feedzai/fos/impl/r/RScorer.java:207-211 | the generated scoring function is evaluated, or its generation error is raised |
| Scorer.RScorer.RemoveModel | src/main/java/com/feedzai/fos/impl/r/RScorer.java:416-418 | exactly the model's environment removal is evaluated |
| Manager.GetUuid | src/main/java/com/feedzai/fos/impl/r/RManager.java:131-140 | without a "UUID" property the random id is used; otherwise the property must parse as a UUID, or the call fails with an IllegalArgumentException whose message is "Invalid UUID string" and the text exactly when the text does not split into five groups |
| Manager.UuidError | src/main/java/com/feedzai/fos/impl/r/RManager.java:137 | the rejection of UUID.fromString is always an IllegalArgumentException, and carries "Invalid UUID string: " and the text exactly when String.split("-") gives other than five groups |
| Manager.GetUuidBadGroup | src/main/java/com/feedzai/fos/impl/r/RManager.java:137 | five dash-separated groups whose first starts with a character that is neither hex nor a sign fail with the NumberFormatException "For input string" naming that group |
| Manager.GetUuidOfText | src/main/java/com/feedzai/fos/impl/r/RManager.java:131-140 | a configuration carrying the canonical text of a UUID is registered under that UUID |
| Manager.ReadFile | src/main/java/com/feedzai/fos/impl/r/RManager.java:299 | reading succeeds exactly on a regular file and gives its contents |
| Manager.LastSlash | src/main/java/com/feedzai/fos/impl/r/RManager.java:313-314 | the position found holds a '/' or is -1 |
| Manager.LastSlashIsLast | src/main/java/com/feedzai/fos/impl/r/RManager.java:313-314 | no '/' follows the position found |
| Manager.LastSlashAt | src/main/java/com/feedzai/fos/impl/r/RManager.java:313-314 | the last '/' of a path is the one found |
| Manager.BaseName | src/main/java/com/feedzai/fos/impl/r/RManager.java:313-314 | a file's name is a suffix of its path |
| Manager.BaseNameHasNoSlash | src/main/java/com/feedzai/fos/impl/r/RManager.java:313-314 | a file's name contains no '/' |
| Manager.ChildOfParent | src/main/java/com/feedzai/fos/impl/r/RManager.java:214 | a file named after another, in the other's directory, is the other's path with the suffix |
| Manager.HeaderRecovers | src/main/java/com/feedzai/fos/impl/r/RManager.java:309-317 | the header file splits back into the sanitised attribute names, in order |
| Manager.ClassName | src/main/java/com/feedzai/fos/impl/r/RManager.java:325 | the class name exists exactly when the class index is usable, and is that attribute's name |
| Manager.CategoricalsRecovers | src/main/java/com/feedzai/fos/impl/r/RManager.java:355-372 | the categoricals program splits back into every name in its quotes, in order |
| Manager.CategoricalsText | src/main/java/com/feedzai/fos/impl/r/RManager.java:355-372 | the loop builds the specified program, and an empty list fails with index out of bounds |
| Manager.TrainingRun | src/main/java/com/feedzai/fos/impl/r/RManager.java:288-346 | the staged trainFile is the run of its whole step list |
| Manager.TrainingSuccess | src/main/java/com/feedzai/fos/impl/r/RManager.java:288-346 | a successful live training had a script, a usable class index, a categorical and a training function; it sent script, header, categoricals, save path and training call, in that order |
| Manager.TrainResult | src/main/java/com/feedzai/fos/impl/r/RManager.java:340-343 | training returns the saved model's bytes exactly when every program succeeded and the model file can be read; every failure is wrapped |
| Manager.RowText | src/main/java/com/feedzai/fos/impl/r/RManager.java:232 | a row has a line exactly when no field is null, and the line is the fields joined by ',' |
| Manager.RowRecovers | src/main/java/com/feedzai/fos/impl/r/RManager.java:232 | an instances line splits back into its fields |
| Manager.InstancesTextSucceeds | src/main/java/com/feedzai/fos/impl/r/RManager.java:227-236 | the dump succeeds exactly when no field of any row is null |
| Manager.InstancesTextLines | src/main/java/com/feedzai/fos/impl/r/RManager.java:227-236 | a successful dump is every row's line, each followed by a line separator |
| Manager.InstancesRecovers | src/main/java/com/feedzai/fos/impl/r/RManager.java:227-236 | the dump splits back into one line per row, followed by an empty piece |
| Manager.FirstNull | src/main/java/com/feedzai/fos/impl/r/RManager.java:231-233 | the index of the first row with a null field: every row before it has all its fields, and it is that row or the end |
| Manager.FirstNullFails | src/main/java/com/feedzai/fos/impl/r/RManager.java:231-233 | the dump fails exactly when some row has a null field, and the rows before the first one dump successfully |
| Manager.DumpStopsAt | src/main/java/com/feedzai/fos/impl/r/RManager.java:231-233 | a dump that meets its first null field at a row has written exactly the lines before that row |
| Manager.Front | src/main/java/com/feedzai/fos/impl/r/RManager.java:228-233 | the part of the buffered text that reached the file is a prefix of it, of the flushed length or the whole text |
| Manager.InstancesFailureIsFinal | src/main/java/com/feedzai/fos/impl/r/RManager.java:231-233 | once a row holds a null field, the dump fails, whatever rows follow |
| Manager.AddedModelRemovalFails | src/main/java/com/feedzai/fos/impl/r/RManager.java:157-164 | a record the registry created has no header, so removing it as written fails with a null header and deletes nothing |
| Manager.Removal | src/main/java/com/feedzai/fos/impl/r/RManager.java:157-164 | removal succeeds exactly when R removed the environment and the model was registered |
| Manager.RemovedFiles | src/main/java/com/feedzai/fos/impl/r/RManager.java:157-164 | removal only deletes files and never alters one that stays |
| Manager.RemovalDeletes | src/main/java/com/feedzai/fos/impl/r/RManager.java:157-164 | once R dropped the environment, removal succeeds; it deletes the record's header and model files and keeps every other file |
| Manager.Copied | src/main/java/com/feedzai/fos/impl/r/RManager.java:384-394 | a copy succeeds exactly when the source is a readable file other than the destination, and the destination is not a directory and lies in an existing directory; it puts the source's contents at the destination |
| Manager.CopyIntoMissingFolder | src/main/java/com/feedzai/fos/impl/r/RManager.java:386-391 | a copy to a path whose folder does not exist fails |
| Manager.CopyKeepsOthers | src/main/java/com/feedzai/fos/impl/r/RManager.java:384-394 | a copy leaves the source and every other file as they were |
| Manager.RegisteredModelMismatch | src/main/java/com/feedzai/fos/impl/r/RManager.java:239-242 | with MODEL_SAVE_PATH "/models", training "/data/train.csv" saves "/models/train.csv.model" but registers "/data/train.csv.model" |
| Manager.RegisteredModelAgrees | src/main/java/com/feedzai/fos/impl/r/RManager.java:211-214 | when MODEL_SAVE_PATH is the training file's directory, the saved and the registered model files agree |
| Manager.RManager.constructor | src/main/java/com/feedzai/fos/impl/r/RManager.java:81-88 | a new manager has an empty registry, a fresh live session and the configured training script and function |
| Manager.RManager.Register | src/main/java/com/feedzai/fos/impl/r/RManager.java:146-151 | the id maps to a new record in step with the id and model file, and R builds its environment |
| Manager.RManager.Build | src/main/java/com/feedzai/fos/impl/r/RManager.java:151 | addOrUpdate on the record just entered gives the `Namespace` run on that record |
| Manager.RManager.NewRecord | src/main/java/com/feedzai/fos/impl/r/RManager.java:146-148 | the new record holds the id and the model file, and no header |
| Manager.RManager.AddModel | src/main/java/com/feedzai/fos/impl/r/RManager.java:143-154 | an invalid "UUID" property fails before anything changes; otherwise the record is entered before its environment is built, and the id is returned only if the build succeeded |
| Manager.RManager.AddModelBytes | src/main/java/com/feedzai/fos/impl/r/RManager.java:98-123 | the registered model's own path is passed as createTempFile's directory (java.io.tmpdir when the record has no model file); unless that path is an existing directory the call fails with a wrapped IOException, and an unregistered id fails with a null reference, both before anything changes; otherwise the bytes are written and the model registered |
| Manager.RManager.WriteAndRegister | src/main/java/com/feedzai/fos/impl/r/RManager.java:109-116 | the model bytes are written to the new file, which is then registered |
| Manager.RManager.RemoveModelAsWritten | src/main/java/com/feedzai/fos/impl/r/RManager.java:157-164 | the entry is dropped and the environment removed; the header and model files are then dereferenced with no null check |
| Manager.RManager.RemoveModel | src/main/java/com/feedzai/fos/impl/r/RManager.java:157-164 | the entry is dropped, the environment removed, and the files the record names are deleted |
| Manager.RManager.ReconfigureModel | src/main/java/com/feedzai/fos/impl/r/RManager.java:166-188 | an unknown id or a null configuration fails and changes nothing; otherwise the record is merged, takes the new model file when one is given, and is rebuilt in R; every other record is unchanged |
| Manager.RManager.Rebuild | src/main/java/com/feedzai/fos/impl/r/RManager.java:168-171 | update, then the new model file, then addOrUpdate on the updated record |
| Manager.RManager.Prepare | src/main/java/com/feedzai/fos/impl/r/RManager.java:183-185 | a null configuration is rejected before the record changes; otherwise it is merged and the model file set |
| Manager.RManager.ReconfigureModelBytes | src/main/java/com/feedzai/fos/impl/r/RManager.java:175-177 | reconfiguring from model bytes is not implemented and always fails |
| Manager.RManager.ListModels | src/main/java/com/feedzai/fos/impl/r/RManager.java:192-199 | every registered id is listed with its record's configuration, and nothing else |
| Manager.RManager.Save | src/main/java/com/feedzai/fos/impl/r/RManager.java:384-394 | the registered model file is copied to the save path, or the call fails with "Unable to save model" and changes nothing; a save path in a missing folder fails |
| Manager.RManager.WriteInstances | src/main/java/com/feedzai/fos/impl/r/RManager.java:227-236 | the file holds the dump of the rows; a null field fails, leaving the file with a prefix, `flushed` characters long at most, of the lines before that row |
| Manager.RManager.TrainFile | src/main/java/com/feedzai/fos/impl/r/RManager.java:288-346 | the programs sent are the staged training run; the result, the header file and the configuration's model property follow from how far the run got |
| Manager.RManager.TrainNamed | src/main/java/com/feedzai/fos/impl/r/RManager.java:305-340 | once the header is written, the remaining programs run, and the model property names the save path |
| Manager.RManager.WriteTrained | src/main/java/com/feedzai/fos/impl/r/RManager.java:313-317 | the header file is written with the sanitised names |
| Manager.RManager.EvalScript | src/main/java/com/feedzai/fos/impl/r/RManager.java:294-303 | the training script is evaluated, or its read error is raised |
| Manager.RManager.RunNamed | src/main/java/com/feedzai/fos/impl/r/RManager.java:319-338 | header, categoricals, save path and training call are evaluated in order, stopping at the first failure |
| Manager.RManager.TrainAndAdd | src/main/java/com/feedzai/fos/impl/r/RManager.java:208-218 | a null field fails before anything is sent and leaves the instances file holding only the flushed prefix of the rows before it; a returned id names a record whose model file is the one training saved next to the instances |
| Manager.RManager.AddTrained | src/main/java/com/feedzai/fos/impl/r/RManager.java:214 | a returned id names a registered record of the given model file |
| Manager.RManager.TrainAndAddFileAsWritten | src/main/java/com/feedzai/fos/impl/r/RManager.java:239-242 | a returned id names a record of the training file's path with ".model" |
| Manager.RManager.TrainAndAddFile | src/main/java/com/feedzai/fos/impl/r/RManager.java:239-242 | a returned id names a record of the model file the training saved |
| Manager.RManager.Train | src/main/java/com/feedzai/fos/impl/r/RManager.java:246-253 | the rows are dumped and trained on, and the saved model's bytes are returned or the wrapped failure raised; a null field leaves the instances file holding only the flushed prefix of the rows before it, and nothing is sent; otherwise the instances file holds the dump, the header file is written once the header program ran, and the model file once training succeeded |

## Left out

- The R language is not modelled. The engine is an oracle over the programs already delivered, and what R makes of a program is a parameter.
- `rVariableName` from the FOS utilities is a function parameter of the session; its sanitising rules are not part of this model.
- The FosRserve constructor's connection failure is left out, because opening a socket is I/O. A new handle is always connected.
- Replacing a model's session in addOrUpdate (RScorer.java:178-180) is left out. The model uses one shared session for every model.
- The `RScorer(rserve, rlibraries)` constructor (RScorer.java:90-95) is left out. Its library list is read from each model's configuration instead.
- `RScorer.close` (RScorer.java:149-154) is left out. It iterates a set of ids that nothing fills, so it never evaluates anything.
- `getScorer` (RScorer.java:69-71, RManager.java:203-205) returns a field and is left out.
- `RManager.close` (RManager.java:380-381) does nothing and is left out.
- A `ModelConfig` is a value inside its record. The caller's configuration is never updated in place, and aliasing between records and callers is not modelled.
- `ModelConfig.update` lives in the FOS API, which is not part of this model. It is modelled as `Fos.Merge`: newer properties override and newer attributes replace.
- `getAbsolutePath` is the identity. Paths are not normalised, and relative paths are not resolved against a working directory.
- `File.createTempFile` picks a random name. That name is a parameter: `tempName` for model bytes and `instanceFile` for training.
- `UUID.randomUUID` is the `random` parameter.
- The model file R writes during training is the `saved` parameter (`None` when it cannot be read).
- The messages of wrapped exceptions are not modelled; only their causes are.
- Writing the header file and the instances file always succeeds, except for the null field that stops the instances dump.
- Manager.RManager.WriteInstances: how much of a failed dump reached the file depends on the writer's buffer size, so it is the `flushed` parameter; the model only bounds it by the text written before the failing row.
- Scorer.RName: tests only ASCII digits. `Character.isDigit` also accepts other Unicode decimal digits (such as '٣'), and the model does not prefix names that start with one.
- Fos.IntProperty: reads only ASCII digits. `Integer.parseInt` also accepts other Unicode decimal digits, and the model rejects properties written with them.
- "\n" is the line separator.
- `synchronized` and logging are left out, because they do not change results in a single thread.
- Null arguments to the RModelConfig constructor are left out.
- Config.RModelConfig.GetPmmlModel: an absent "pmml" property is what leads to the derived path. The FOS property lookup's own null handling is not modelled.
- Manager.GetUuid: parses only the canonical 36-character text. UUID.fromString also accepts shorter groups, and those configurations fail here.
- Manager.GetUuid: the rejection follows the Java 8 UUID.fromString: the group count decides "Invalid UUID string", and otherwise the first group that is not canonical is named with Long.decode's message. Java 9 and later check the dash positions instead and refuse texts over 36 characters as "UUID string too large"; those messages are not modelled.
- Manager.RManager.TrainAndAdd: requires an instances file with a parent directory, which `File.createTempFile` always provides.
- Manager.RManager.TrainAndAdd: states the registration facts of a success, not the programs sent, because the contract of the whole chain is too costly to prove.
- Manager.RManager.TrainAndAddFile: states only the registration facts of a success, for the same reason.
- Manager.RManager.TrainAndAddFileAsWritten: states only the registration facts of a success, for the same reason.
- Manager.RManager.AddTrained: states only the registration facts of a success; `AddModel` states the rest.

## Findings

| source | as written | input that shows it | evidently intended | confidence | as-written member | corrected member |
|---|---|---|---|---|---|---|
| src/main/java/com/feedzai/fos/impl/r/RScorer.java:159-170 | `score(UUID, List<Object[]>)` scores every row but never adds the result to the list it returns | any non-empty list of rows that all score: the call returns `[]` | one score per row, in row order | not executed | Scorer.RScorer.ScoreRowsAsWritten, Scorer.ScoreRowsDropsResults | Scorer.RScorer.ScoreRows |
| src/main/java/com/feedzai/fos/impl/r/RManager.java:157-164 | `removeModel` deletes `getHeader()`, which no path through the manager ever sets | removing any model added with `addModel` fails with a NullPointerException after the record and the R environment are gone, and the model file stays on disk | delete whichever of the header and model files the record names | not executed | Manager.RManager.RemoveModelAsWritten, Manager.AddedModelRemovalFails | Manager.RManager.RemoveModel, Manager.RemovalDeletes |
| src/main/java/com/feedzai/fos/impl/r/RManager.java:239-242 | `trainAndAddFile` registers the training file's path with ".model", while `trainFile` saves the model under MODEL_SAVE_PATH | MODEL_SAVE_PATH "/models" and path "/data/train.csv": the model is saved as "/models/train.csv.model" and "/data/train.csv.model" is registered | register the file the training saved, as `trainAndAdd` does | not executed | Manager.RManager.TrainAndAddFileAsWritten, Manager.RegisteredModelMismatch | Manager.RManager.TrainAndAddFile, Manager.RegisteredModelAgrees |
