/**
 * RScorer: the R program text that gives each model its own R environment and scoring
 * function, the scoring requests, and the score loops. Attribute names are sanitised for
 * R, model ids become environment names, attribute positions are bucketed into numeric and
 * factor columns, and each row is rendered as an R vector literal.
 */
module Scorer {

  import opened Outcomes
  import opened Text
  import Uuid
  import opened Fos
  import opened Rserve
  import Config

  // ---------------------------------------------------------------------------------------
  // R names (fosAttributes2Rnames)

  predicate Named(attrs: seq<Attribute>) {
    forall i :: 0 <= i < |attrs| ==> |attrs[i].name| > 0
  }

  /** An R variable name for an attribute name: a leading digit gets an "X" in front. */
  function RName(name: string): (r: string)
    requires |name| > 0
    ensures r != [] && !IsDigit(r[0])
    ensures |name| <= |r| <= |name| + 1 && r[|r| - |name|..] == name
    ensures !IsDigit(name[0]) ==> r == name
  {
    if IsDigit(name[0]) then "X" + name else name
  }

  /** Sanitising a sanitised name changes nothing. */
  lemma RNameIdempotent(name: string)
    requires |name| > 0
    ensures RName(RName(name)) == RName(name)
  {
  }

  /** Two distinct attribute names can share an R name: "1" and "X1" both become "X1". */
  lemma RNameCollision()
    ensures "1" != "X1" && RName("1") == RName("X1")
  {
    assert IsDigit("1"[0]) && !IsDigit("X1"[0]);
  }

  /** The R names of a list of attributes, position by position. */
  function RNames(attrs: seq<Attribute>): (r: seq<string>)
    requires Named(attrs)
    ensures |r| == |attrs|
    ensures forall i :: 0 <= i < |attrs| ==> r[i] == RName(attrs[i].name)
  {
    seq(|attrs|, i requires 0 <= i < |attrs| => RName(attrs[i].name))
  }

  lemma RNamesAppend(a: seq<Attribute>, b: seq<Attribute>)
    requires Named(a) && Named(b)
    ensures Named(a + b) && RNames(a + b) == RNames(a) + RNames(b)
  {
  }

  // ---------------------------------------------------------------------------------------
  // Environments (uuid2environment)

  /** The R environment of a model: "x" and the 32 hexadecimal digits of the UUID. */
  function EnvironmentName(u: Uuid.Uuid): (r: string)
    ensures |r| == 33 && r[0] == 'x' && '-' !in r
  {
    "x" + Uuid.Hex(u)
  }

  /** uuid2environment: the environment is "x" and the UUID's canonical text with its dashes removed. */
  lemma EnvironmentNameOfText(u: Uuid.Uuid)
    ensures EnvironmentName(u) == "x" + Without('-', Uuid.ToString(u))
  {
    Uuid.DigitsOfToString(u);
  }

  /** Distinct models live in distinct environments. */
  lemma EnvironmentNameInjective(u: Uuid.Uuid, v: Uuid.Uuid)
    requires EnvironmentName(u) == EnvironmentName(v)
    ensures u == v
  {
    assert Uuid.Hex(u) == EnvironmentName(u)[1..];
    assert Uuid.Hex(v) == EnvironmentName(v)[1..];
    Uuid.HexInjective(u, v);
  }

  // ---------------------------------------------------------------------------------------
  // Column buckets and categoricals (generateScoringFunction, extractCategoricals)

  datatype Bucket = NumericBucket | FactorBucket

  predicate InBucket(a: Attribute, b: Bucket) {
    if b == NumericBucket then a.Numeric? else a.Categorical?
  }

  predicate Increasing(xs: seq<nat>) {
    forall i, j :: 0 <= i < j < |xs| ==> xs[i] < xs[j]
  }

  /** The 1-based positions of the attributes in one bucket, in increasing order. */
  function Positions(attrs: seq<Attribute>, b: Bucket): (r: seq<nat>)
    ensures Increasing(r)
    ensures forall j :: 0 <= j < |r| ==> 1 <= r[j] <= |attrs| && InBucket(attrs[r[j] - 1], b)
    decreases |attrs|
  {
    if attrs == [] then []
    else
      var init := attrs[..|attrs| - 1];
      var prior := Positions(init, b);
      assert forall j :: 0 <= j < |prior| ==> attrs[prior[j] - 1] == init[prior[j] - 1];
      if InBucket(attrs[|attrs| - 1], b) then prior + [|attrs|] else prior
  }

  /** Every attribute is numeric or categorical. */
  predicate Known(attrs: seq<Attribute>) {
    forall i :: 0 <= i < |attrs| ==> !attrs[i].Other?
  }

  /** A position is listed exactly when the attribute there is in the bucket. */
  lemma PositionsMember(attrs: seq<Attribute>, b: Bucket, k: nat)
    requires 1 <= k <= |attrs|
    ensures k in Positions(attrs, b) <==> InBucket(attrs[k - 1], b)
  {
    var ps := Positions(attrs, b);
    if k in ps {
      var j :| 0 <= j < |ps| && ps[j] == k;
      assert InBucket(attrs[ps[j] - 1], b);
    }
    if InBucket(attrs[k - 1], b) {
      PositionsListed(attrs, b, k);
    }
  }

  /** Every position whose attribute is in the bucket is listed. */
  lemma {:induction false} PositionsListed(attrs: seq<Attribute>, b: Bucket, k: nat)
    requires 1 <= k <= |attrs| && InBucket(attrs[k - 1], b)
    ensures k in Positions(attrs, b)
    decreases |attrs|
  {
    var n := |attrs|;
    var init := attrs[..n - 1];
    var prior := Positions(init, b);
    assert Positions(attrs, b) == if InBucket(attrs[n - 1], b) then prior + [n] else prior;
    if k < n {
      assert init[k - 1] == attrs[k - 1];
      PositionsListed(init, b, k);
    }
  }

  /** Looking at one more attribute appends its position when it is in the bucket. */
  lemma PositionsSnoc(attrs: seq<Attribute>, b: Bucket, i: nat)
    requires i < |attrs|
    ensures Positions(attrs[..i + 1], b) ==
              if InBucket(attrs[i], b) then Positions(attrs[..i], b) + [i + 1] else Positions(attrs[..i], b)
  {
    assert attrs[..i + 1][..i] == attrs[..i];
  }

  lemma KnownSnoc(attrs: seq<Attribute>, i: nat)
    requires i < |attrs|
    ensures Known(attrs[..i + 1]) <==> Known(attrs[..i]) && !attrs[i].Other?
  {
    assert attrs[..i + 1] == attrs[..i] + [attrs[i]];
  }

  /** For known attributes, the numeric and factor positions partition 1..n. */
  lemma {:induction false} PositionsPartition(attrs: seq<Attribute>)
    requires Known(attrs)
    ensures |Positions(attrs, NumericBucket)| + |Positions(attrs, FactorBucket)| == |attrs|
    ensures forall k :: 1 <= k <= |attrs| ==>
              (k in Positions(attrs, NumericBucket) <==> k !in Positions(attrs, FactorBucket))
    decreases |attrs|
  {
    if attrs != [] {
      var n := |attrs| - 1;
      assert Known(attrs[..n]);
      PositionsPartition(attrs[..n]);
      PositionsSnoc(attrs, NumericBucket, n);
      PositionsSnoc(attrs, FactorBucket, n);
      assert attrs[..n + 1] == attrs;
    }
    forall k | 1 <= k <= |attrs|
      ensures k in Positions(attrs, NumericBucket) <==> k !in Positions(attrs, FactorBucket)
    {
      PositionsMember(attrs, NumericBucket, k);
      PositionsMember(attrs, FactorBucket, k);
    }
  }

  /** The categorical attributes, in their original order: those at the factor positions. */
  function ExtractCategoricals(attrs: seq<Attribute>): (r: seq<Attribute>)
    ensures |r| == |Positions(attrs, FactorBucket)|
    ensures forall j :: 0 <= j < |r| ==> r[j] == attrs[Positions(attrs, FactorBucket)[j] - 1]
    decreases |attrs|
  {
    if attrs == [] then []
    else
      var init := attrs[..|attrs| - 1];
      var prior := ExtractCategoricals(init);
      assert forall j :: 0 <= j < |prior| ==> prior[j] == attrs[Positions(init, FactorBucket)[j] - 1];
      if attrs[|attrs| - 1].Categorical? then prior + [attrs[|attrs| - 1]] else prior
  }

  /** What extractCategoricals keeps: only categoricals, and every categorical, in the input's order. */
  lemma ExtractCategoricalsIsFilter(attrs: seq<Attribute>, k: nat)
    requires k < |attrs|
    ensures forall j :: 0 <= j < |ExtractCategoricals(attrs)| ==> ExtractCategoricals(attrs)[j].Categorical?
    ensures attrs[k].Categorical? <==> exists j :: 0 <= j < |ExtractCategoricals(attrs)| && Positions(attrs, FactorBucket)[j] == k + 1
  {
    var ps := Positions(attrs, FactorBucket);
    var cats := ExtractCategoricals(attrs);
    forall j | 0 <= j < |cats| ensures cats[j].Categorical? {
      assert InBucket(attrs[ps[j] - 1], FactorBucket);
    }
    PositionsMember(attrs, FactorBucket, k + 1);
    if attrs[k].Categorical? {
      var j :| 0 <= j < |ps| && ps[j] == k + 1;
    }
  }

  lemma ExtractCategoricalsNamed(attrs: seq<Attribute>)
    requires Named(attrs)
    ensures Named(ExtractCategoricals(attrs))
  {
    var ps := Positions(attrs, FactorBucket);
    var cats := ExtractCategoricals(attrs);
    forall j | 0 <= j < |cats| ensures |cats[j].name| > 0 {
      assert cats[j] == attrs[ps[j] - 1];
    }
  }

  // ---------------------------------------------------------------------------------------
  // The scoring function text (generateScoringFunction and its helpers)

  const UnknownAttributeType := "Unknown attribute type"

  function Preamble(env: string): string {
    env + "$score <- function(v) {\n" +
    "   v <- as.data.frame(t(as.matrix(v)))\n" +
    "   names(v) <- " + env + "$attributes\n\n"
  }

  /** The two lines that convert the listed columns: generateNumericConversion and generateFactorConversion. */
  function Conversion(range: string, convert: string, indices: seq<nat>): string {
    ConversionHead(range) + Join(",", Decimals(indices)) + ConversionTail(range, convert)
  }

  /** The text before the column list of a conversion. */
  function ConversionHead(range: string): string {
    "   " + range + " <- c("
  }

  /** The text after the column list: the list's close and the sapply over those columns. */
  function ConversionTail(range: string, convert: string): string {
    ")\n" + "   v[, " + range + "] <- sapply(v[, " + range + "], " + convert + ")\n\n"
  }

  function NumericConversion(attrs: seq<Attribute>): string {
    Conversion("num_range", "as.numeric", Positions(attrs, NumericBucket))
  }

  function FactorConversion(attrs: seq<Attribute>): string {
    Conversion("factor_range", "as.factor", Positions(attrs, FactorBucket))
  }

  /** The statement that re-levels one column to the levels the trained model saw. */
  function LevelLine(env: string, column: string): string {
    "   v['" + column + "'] <- factor(v['" + column + "'], levels = " + env + "$model$forest$xlevels$" + column + ")\n"
  }

  /** generateLevelFactorConversion as written: one line per categorical, on its raw name. */
  function LevelLines(env: string, cats: seq<Attribute>): (r: seq<string>)
    ensures |r| == |cats|
    ensures forall i :: 0 <= i < |cats| ==> r[i] == LevelLine(env, cats[i].name)
  {
    seq(|cats|, i requires 0 <= i < |cats| => LevelLine(env, cats[i].name))
  }

  function Epilogue(env: string): string {
    "\n\n" +
    "r <- predict(get(" + env + "$modelname, envir=" + Width1(env) + "), v, type =\"prob\")\n" +
    "r\n}"
  }

  function ScoringText(env: string, attrs: seq<Attribute>, cats: seq<Attribute>): string {
    Preamble(env) + NumericConversion(attrs) + FactorConversion(attrs) + Concat(LevelLines(env, cats)) + Epilogue(env)
  }

  /** The scoring function of an environment, or the "Unknown attribute type" error. */
  function ScoringFunction(env: string, attrs: seq<Attribute>, cats: seq<Attribute>): Result<string> {
    if Known(attrs) then Success(ScoringText(env, attrs, cats))
    else Failure(FosException(UnknownAttributeType, None))
  }

  /** The numeric and factor column lists of a scoring function read back as the bucket positions. */
  lemma ConversionRecovers(range: string, convert: string, indices: seq<nat>)
    requires indices != []
    ensures var t := Conversion(range, convert, indices);
            var start := |ConversionHead(range)|;
            var body := Join(",", Decimals(indices));
            t[start..start + |body|] == body &&
            |Split(",", body)| == |indices| &&
            forall i :: 0 <= i < |indices| && IsInt32(indices[i]) ==> ParseInt(Split(",", body)[i]) == Some(indices[i] as int)
  {
    var ds := Decimals(indices);
    assert Avoids(ds, ',') by {
      forall i | 0 <= i < |ds| ensures ',' !in ds[i] {
        assert forall k :: 0 <= k < |ds[i]| ==> ds[i][k] != ',';
      }
    }
    Middle(ConversionHead(range), Join(",", ds), ConversionTail(range, convert));
    SplitJoin(",", ds);
    forall i | 0 <= i < |indices| && IsInt32(indices[i]) ensures ParseInt(ds[i]) == Some(indices[i] as int) {
      ParseIntToString(indices[i]);
    }
  }

  lemma Middle<T>(a: seq<T>, b: seq<T>, c: seq<T>)
    ensures (a + b + c)[|a|..|a| + |b|] == b
  {
  }

  /**
   * generateScoringFunction: buckets the attribute positions in one pass, then appends the
   * preamble, the two conversions, one re-level line per categorical and the epilogue.
   */
  method GenerateScoringFunction(env: string, attrs: seq<Attribute>, cats: seq<Attribute>) returns (r: Result<string>)
    ensures r == ScoringFunction(env, attrs, cats)
  {
    var numericIndices: seq<nat> := [];
    var factorIndices: seq<nat> := [];
    var count := 1;
    var i := 0;
    while i < |attrs|
      invariant 0 <= i <= |attrs| && count == i + 1
      invariant Known(attrs[..i])
      invariant numericIndices == Positions(attrs[..i], NumericBucket)
      invariant factorIndices == Positions(attrs[..i], FactorBucket)
    {
      PositionsSnoc(attrs, NumericBucket, i);
      PositionsSnoc(attrs, FactorBucket, i);
      KnownSnoc(attrs, i);
      match attrs[i] {
        case Numeric(_) => numericIndices := numericIndices + [count];
        case Categorical(_, _) => factorIndices := factorIndices + [count];
        case Other(_) =>
          assert !Known(attrs);
          return Failure(FosException(UnknownAttributeType, None));
      }
      count := count + 1;
      i := i + 1;
    }
    assert attrs[..i] == attrs;
    var text := Preamble(env) + Conversion("num_range", "as.numeric", numericIndices)
                + Conversion("factor_range", "as.factor", factorIndices);
    text := AppendLevelLines(env, cats, text);
    r := Success(text + Epilogue(env));
  }

  /** generateLevelFactorConversion: appends one re-level line per categorical. */
  method AppendLevelLines(env: string, cats: seq<Attribute>, text: string) returns (r: string)
    ensures r == text + Concat(LevelLines(env, cats))
  {
    ghost var lines := LevelLines(env, cats);
    r := text;
    var k := 0;
    while k < |cats|
      invariant 0 <= k <= |cats|
      invariant r == text + Concat(lines[..k])
    {
      ConcatTake(text, lines, k);
      r := r + LevelLine(env, cats[k].name);
      k := k + 1;
    }
    assert lines[..k] == lines;
  }

  /** The column that a re-level line refers to, as written into its quotes. */
  lemma LevelLineColumn(env: string, column: string)
    ensures LevelLine(env, column)[|"   v['"|..|"   v['"| + |column|] == column
  {
  }

  /**
   * As written, the re-level lines quote the raw attribute name, while the data frame's
   * columns carry the sanitised names: a categorical whose name starts with a digit, such
   * as "1a", is re-levelled as column "1a", which is not among the column names ["X1a"].
   */
  lemma RawLevelColumnMissing(env: string, name: string, categories: seq<string>)
    requires |name| > 0 && IsDigit(name[0])
    ensures var columns := RNames([Categorical(name, categories)]);
            |columns| == 1 && columns[0] == "X" + name && |columns[0]| != |name|
    ensures var lines := LevelLines(env, ExtractCategoricals([Categorical(name, categories)]));
            |lines| == 1 && lines[0] == LevelLine(env, name)
  {
    DigitColumnRenamed(name, categories);
    RawLevelLine(env, name, categories);
  }

  lemma DigitColumnRenamed(name: string, categories: seq<string>)
    requires |name| > 0 && IsDigit(name[0])
    ensures var columns := RNames([Categorical(name, categories)]);
            |columns| == 1 && columns[0] == "X" + name && |columns[0]| != |name|
  {
    assert RNames([Categorical(name, categories)])[0] == RName(name);
  }

  lemma RawLevelLine(env: string, name: string, categories: seq<string>)
    ensures var lines := LevelLines(env, ExtractCategoricals([Categorical(name, categories)]));
            |lines| == 1 && lines[0] == LevelLine(env, name)
  {
    var c := Categorical(name, categories);
    SingleCategorical(c);
    LevelLinesSingle(env, c);
  }

  lemma LevelLinesSingle(env: string, c: Attribute)
    ensures LevelLines(env, [c]) == [LevelLine(env, c.name)]
  {
    assert LevelLines(env, [c])[0] == LevelLine(env, c.name);
  }

  lemma SingleCategorical(a: Attribute)
    requires a.Categorical?
    ensures ExtractCategoricals([a]) == [a]
  {
    assert [a][..0] == [];
  }

  // ---------------------------------------------------------------------------------------
  // Scoring requests (score, appendValue)

  /** appendValue: a String in double quotes, anything else by its text, null as "null". */
  function Render(v: Value): (r: string)
    ensures v.Str? ==> |r| == |v.text| + 2 && r[0] == '"' && r[|r| - 1] == '"' && r[1..|r| - 1] == v.text
    ensures v.Obj? ==> r == v.text
    ensures v.Null? ==> r == "null"
  {
    match v
    case Str(t) => "\"" + t + "\""
    case Obj(t) => t
    case Null => "null"
  }

  function Renders(values: seq<Value>): (r: seq<string>)
    ensures |r| == |values|
    ensures forall i :: 0 <= i < |values| ==> r[i] == Render(values[i])
  {
    seq(|values|, i requires 0 <= i < |values| => Render(values[i]))
  }

  /** The request for one row: ENV$score(c(v1,...,vk)); only a non-empty row gets this far. */
  function ScoreRequest(env: string, values: seq<Value>): string {
    env + "$score(c(" + Join(",", Renders(values)) + "))"
  }

  /** The fields of a request, split back at the commas, are the rendered values in order. */
  lemma ScoreRequestFields(env: string, values: seq<Value>)
    requires values != []
    requires forall i :: 0 <= i < |values| ==> ',' !in Render(values[i])
    ensures var p := ScoreRequest(env, values);
            p[..|env|] == env &&
            Split(",", p[|env| + 9..|p| - 2]) == Renders(values)
  {
    var p := ScoreRequest(env, values);
    var body := Join(",", Renders(values));
    assert p == env + "$score(c(" + body + "))";
    assert p[|env| + 9..|p| - 2] == body;
    SplitJoin(",", Renders(values));
  }

  /** The request a row yields, or the out-of-bounds access an empty row makes. */
  function Request(env: string, values: seq<Value>): Result<string> {
    if values == [] then Failure(IndexOutOfBounds(0, 0)) else Success(ScoreRequest(env, values))
  }

  /** Builds the request text of one row: every value but the last followed by a comma, then the last. */
  method BuildRequest(env: string, values: seq<Value>) returns (r: Result<string>)
    ensures r == Request(env, values)
  {
    var text := env + "$score(c(";
    if |values| == 0 {
      // scorables[scorables.length - 1] on an empty row
      return Failure(IndexOutOfBounds(0, 0));
    }
    ghost var head := text;
    ghost var fields := Renders(values);
    var i := 0;
    while i != |values| - 1
      invariant 0 <= i <= |values| - 1
      invariant text == head + Terminated(",", fields[..i])
    {
      TerminatedStep(",", head, fields, i);
      text := text + Render(values[i]) + ",";
      i := i + 1;
    }
    JoinClose(",", head, fields, "))");
    text := text + Render(values[i]) + "))";
    r := Success(text);
  }

  // ---------------------------------------------------------------------------------------
  // Score loops

  /** One single-model scoring call: the model's environment and a row. */
  datatype Job = Job(env: string, values: seq<Value>)

  /** The cast of eval's result to double[]: null passes, a double[] passes, anything else fails. */
  function CastToDoubles(v: RValue): Result<Option<seq<real>>> {
    match v
    case RNull => Success(None)
    case RDoubles(ds) => Success(Some(ds))
    case _ => Failure(ClassCast("double[]"))
  }

  datatype Scored = Scored(delivered: seq<string>, outcome: Result<seq<Option<seq<real>>>>)

  /**
   * One model scores one row, given the request built for it: a request that could not be
   * built fails before anything is sent; otherwise it is evaluated and its answer cast.
   */
  function ScoreOne(engine: Engine, live: bool, history: seq<string>, request: Result<string>): (r: Scored)
    ensures r.outcome.Success? ==> |r.outcome.value| == 1
    ensures request.Failure? ==> r == Scored(history, Failure(request.error))
  {
    match request
    case Failure(e) => Scored(history, Failure(e))
    case Success(p) =>
      var a := Answer(engine, live, history, p);
      var d := After(live, history, p);
      if a.Failure? then Scored(d, Failure(a.error))
      else match CastToDoubles(a.value)
        case Failure(e) => Scored(d, Failure(e))
        case Success(x) => Scored(d, Success([x]))
  }

  /**
   * Scoring the first n requests in order; the first failure ends the run, and a run that
   * succeeds holds one result per request.
   */
  function ScoreFirst(engine: Engine, live: bool, history: seq<string>, requests: seq<Result<string>>, n: nat): (r: Scored)
    requires n <= |requests|
    ensures r.outcome.Success? ==> |r.outcome.value| == n
    decreases n
  {
    if n == 0 then Scored(history, Success([]))
    else
      var prior := ScoreFirst(engine, live, history, requests, n - 1);
      if prior.outcome.Failure? then prior
      else
        var one := ScoreOne(engine, live, prior.delivered, requests[n - 1]);
        if one.outcome.Failure? then one
        else Scored(one.delivered, Success(prior.outcome.value + one.outcome.value))
  }

  /** The request each job builds, in job order. */
  function Built(jobs: seq<Job>): (r: seq<Result<string>>)
    ensures |r| == |jobs|
    ensures forall i :: 0 <= i < |jobs| ==> r[i] == Request(jobs[i].env, jobs[i].values)
  {
    seq(|jobs|, i requires 0 <= i < |jobs| => Request(jobs[i].env, jobs[i].values))
  }

  /** Scoring every job in order. */
  function ScoreJobs(engine: Engine, live: bool, history: seq<string>, jobs: seq<Job>): (r: Scored)
    ensures r.outcome.Success? ==> |r.outcome.value| == |jobs|
  {
    ScoreFirst(engine, live, history, Built(jobs), |jobs|)
  }

  function Jobs(ids: seq<Uuid.Uuid>, values: seq<Value>): (r: seq<Job>)
    ensures |r| == |ids|
    ensures forall i :: 0 <= i < |ids| ==> r[i] == Job(EnvironmentName(ids[i]), values)
  {
    seq(|ids|, i requires 0 <= i < |ids| => Job(EnvironmentName(ids[i]), values))
  }

  predicate Filled(jobs: seq<Job>) {
    forall i :: 0 <= i < |jobs| ==> |jobs[i].values| > 0
  }

  /** The texts of the first n requests that were built. */
  function Sent(requests: seq<Result<string>>, n: nat): (r: seq<string>)
    requires n <= |requests|
    ensures |r| <= n
    decreases n
  {
    if n == 0 then []
    else match requests[n - 1]
      case Success(p) => Sent(requests, n - 1) + [p]
      case Failure(_) => Sent(requests, n - 1)
  }

  /** The requests of the first n jobs, in job order. */
  function Requests(jobs: seq<Job>, n: nat): (r: seq<string>)
    requires n <= |jobs|
    ensures |r| == n
    decreases n
  {
    if n == 0 then [] else Requests(jobs, n - 1) + [ScoreRequest(jobs[n - 1].env, jobs[n - 1].values)]
  }

  /** The first k of the first n requests are the first k requests. */
  lemma {:induction false} RequestsPrefix(jobs: seq<Job>, n: nat, k: nat)
    requires k <= n <= |jobs|
    ensures Requests(jobs, n)[..k] == Requests(jobs, k)
    decreases n
  {
    if k < n {
      var r := Requests(jobs, n - 1);
      SnocAt(r, ScoreRequest(jobs[n - 1].env, jobs[n - 1].values), k);
      RequestsPrefix(jobs, n - 1, k);
    }
  }

  lemma SnocAt<T>(r: seq<T>, x: T, k: nat)
    requires k <= |r|
    ensures (r + [x])[..k] == if k < |r| then r[..k] else r
  {
    if k == |r| {
      assert (r + [x])[..k] == r;
    }
  }

  /** When every row is non-empty, the texts the jobs build are their requests. */
  lemma {:induction false} SentBuilt(jobs: seq<Job>, n: nat)
    requires n <= |jobs| && Filled(jobs)
    ensures Sent(Built(jobs), n) == Requests(jobs, n)
    decreases n
  {
    if n > 0 {
      SentBuilt(jobs, n - 1);
      assert Built(jobs)[n - 1] == Success(ScoreRequest(jobs[n - 1].env, jobs[n - 1].values));
    }
  }

  /** A single live scoring that succeeds had a built request, sent it, and holds the cast of the decoded answer. */
  lemma ScoreOneLive(engine: Engine, history: seq<string>, request: Result<string>)
    requires ScoreOne(engine, true, history, request).outcome.Success?
    ensures request.Success?
    ensures var one := ScoreOne(engine, true, history, request);
            var a := Decode(engine(history, request.value));
            one.delivered == history + [request.value] && a.Success? && CastToDoubles(a.value) == Success(one.outcome.value[0])
  {
  }

  /** A run of n requests that succeeds extends a run of n - 1 requests that succeeds. */
  lemma ScoreFirstPrior(engine: Engine, live: bool, history: seq<string>, requests: seq<Result<string>>, n: nat)
    requires 0 < n <= |requests|
    requires ScoreFirst(engine, live, history, requests, n).outcome.Success?
    ensures var prior := ScoreFirst(engine, live, history, requests, n - 1);
            var one := ScoreOne(engine, live, prior.delivered, requests[n - 1]);
            prior.outcome.Success? && one.outcome.Success? &&
            ScoreFirst(engine, live, history, requests, n) == Scored(one.delivered, Success(prior.outcome.value + one.outcome.value))
  {
  }

  /** Once the first k requests have failed, the later ones change nothing. */
  lemma {:induction false} ScoreFirstStop(engine: Engine, live: bool, history: seq<string>, requests: seq<Result<string>>, k: nat, n: nat)
    requires k <= n <= |requests|
    requires ScoreFirst(engine, live, history, requests, k).outcome.Failure?
    ensures ScoreFirst(engine, live, history, requests, n) == ScoreFirst(engine, live, history, requests, k)
    decreases n
  {
    if k < n {
      ScoreFirstStop(engine, live, history, requests, k, n - 1);
    }
  }

  /** From a successful run of i requests, request i either ends the whole run with its failure or extends the run by one. */
  lemma ScoreFirstNext(engine: Engine, live: bool, history: seq<string>, requests: seq<Result<string>>, i: nat,
                       sent: seq<string>, results: seq<Option<seq<real>>>)
    requires i < |requests|
    requires ScoreFirst(engine, live, history, requests, i) == Scored(sent, Success(results))
    ensures var one := ScoreOne(engine, live, sent, requests[i]);
            if one.outcome.Failure? then ScoreFirst(engine, live, history, requests, |requests|) == one
            else ScoreFirst(engine, live, history, requests, i + 1) == Scored(one.delivered, Success(results + one.outcome.value))
  {
    if ScoreOne(engine, live, sent, requests[i]).outcome.Failure? {
      ScoreFirstStop(engine, live, history, requests, i + 1, |requests|);
    }
  }

  /** A job whose row is empty fails before its request is sent, and so does the run. */
  lemma ScoreJobsEmptyRow(engine: Engine, live: bool, history: seq<string>, jobs: seq<Job>, k: nat)
    requires k < |jobs| && jobs[k].values == []
    ensures ScoreJobs(engine, live, history, jobs).outcome.Failure?
  {
    assert Built(jobs)[k] == Failure(IndexOutOfBounds(0, 0));
    ScoreFirstStop(engine, live, history, Built(jobs), k + 1, |jobs|);
  }

  /** A run that succeeds had a non-empty row in every job. */
  lemma ScoreJobsFilled(engine: Engine, live: bool, history: seq<string>, jobs: seq<Job>)
    requires ScoreJobs(engine, live, history, jobs).outcome.Success?
    ensures Filled(jobs)
  {
    forall k | 0 <= k < |jobs| ensures |jobs[k].values| > 0 {
      if jobs[k].values == [] {
        ScoreJobsEmptyRow(engine, live, history, jobs, k);
      }
    }
  }

  /** A successful live run of n requests is a successful run of n - 1 followed by request n's text. */
  lemma ScoreFirstStepSent(engine: Engine, history: seq<string>, requests: seq<Result<string>>, n: nat)
    requires 0 < n <= |requests|
    requires ScoreFirst(engine, true, history, requests, n).outcome.Success?
    ensures var prior := ScoreFirst(engine, true, history, requests, n - 1);
            prior.outcome.Success? && requests[n - 1].Success? &&
            ScoreFirst(engine, true, history, requests, n).delivered == prior.delivered + [requests[n - 1].value]
  {
    var prior := ScoreFirst(engine, true, history, requests, n - 1);
    ScoreFirstPrior(engine, true, history, requests, n);
    ScoreOneLive(engine, prior.delivered, requests[n - 1]);
  }

  /** ... and its results are those of the n - 1 followed by the cast of the answer to request n. */
  lemma ScoreFirstStepResult(engine: Engine, history: seq<string>, requests: seq<Result<string>>, n: nat)
    requires 0 < n <= |requests|
    requires ScoreFirst(engine, true, history, requests, n).outcome.Success?
    ensures var prior := ScoreFirst(engine, true, history, requests, n - 1);
            var x := ScoreFirst(engine, true, history, requests, n).outcome.value;
            prior.outcome.Success? && requests[n - 1].Success? && x[..n - 1] == prior.outcome.value &&
            var a := Decode(engine(prior.delivered, requests[n - 1].value));
            a.Success? && CastToDoubles(a.value) == Success(x[n - 1])
  {
    var prior := ScoreFirst(engine, true, history, requests, n - 1);
    ScoreFirstPrior(engine, true, history, requests, n);
    ScoreOneLive(engine, prior.delivered, requests[n - 1]);
  }

  /** A successful live run of the first n requests sent them all, in order. */
  lemma {:induction false} ScoreFirstDelivers(engine: Engine, history: seq<string>, requests: seq<Result<string>>, n: nat)
    requires n <= |requests|
    requires ScoreFirst(engine, true, history, requests, n).outcome.Success?
    ensures ScoreFirst(engine, true, history, requests, n).delivered == history + Sent(requests, n)
    decreases n
  {
    if n > 0 {
      ScoreFirstStepSent(engine, history, requests, n);
      ScoreFirstDelivers(engine, history, requests, n - 1);
      Snoc(history, Sent(requests, n - 1), requests[n - 1].value);
    }
  }

  lemma Snoc<T>(a: seq<T>, b: seq<T>, x: T)
    ensures (a + b) + [x] == a + (b + [x])
  {
  }

  /** A successful live run sent one request per job, in job order, and holds one result per job. */
  lemma ScoreJobsDelivers(engine: Engine, history: seq<string>, jobs: seq<Job>)
    requires ScoreJobs(engine, true, history, jobs).outcome.Success?
    ensures Filled(jobs)
    ensures var x := ScoreJobs(engine, true, history, jobs);
            x.delivered == history + Requests(jobs, |jobs|) && |x.outcome.value| == |jobs|
  {
    ScoreJobsFilled(engine, true, history, jobs);
    ScoreFirstDelivers(engine, history, Built(jobs), |jobs|);
    SentBuilt(jobs, |jobs|);
  }

  /** In a successful live run of the first n requests, result k is the cast of the answer to request k. */
  lemma {:induction false} ScoreFirstResult(engine: Engine, history: seq<string>, requests: seq<Result<string>>, n: nat, k: nat)
    requires k < n <= |requests|
    requires ScoreFirst(engine, true, history, requests, n).outcome.Success?
    ensures requests[k].Success?
    ensures var a := Decode(engine(history + Sent(requests, k), requests[k].value));
            a.Success? && CastToDoubles(a.value) == Success(ScoreFirst(engine, true, history, requests, n).outcome.value[k])
    decreases n
  {
    ScoreFirstStepResult(engine, history, requests, n);
    if k < n - 1 {
      ScoreFirstResult(engine, history, requests, n - 1, k);
      var x := ScoreFirst(engine, true, history, requests, n).outcome.value;
      assert x[k] == x[..n - 1][k];
    } else {
      ScoreFirstDelivers(engine, history, requests, n - 1);
    }
  }

  /**
   * In a successful live run, the k-th result is the cast of the engine's answer to the
   * k-th request, given the requests sent before it.
   */
  lemma ScoreJobsResult(engine: Engine, history: seq<string>, jobs: seq<Job>, k: nat)
    requires k < |jobs|
    requires ScoreJobs(engine, true, history, jobs).outcome.Success?
    ensures Filled(jobs) && |ScoreJobs(engine, true, history, jobs).outcome.value| == |jobs|
    ensures var a := Decode(engine(history + Requests(jobs, k), ScoreRequest(jobs[k].env, jobs[k].values)));
            a.Success? && CastToDoubles(a.value) == Success(ScoreJobs(engine, true, history, jobs).outcome.value[k])
  {
    ScoreJobsFilled(engine, true, history, jobs);
    ScoreFirstResult(engine, history, Built(jobs), |jobs|, k);
    SentBuilt(jobs, k);
  }

  /** A run of one job is that job's own scoring. */
  lemma ScoreJobsSingle(engine: Engine, live: bool, history: seq<string>, job: Job)
    ensures ScoreJobs(engine, live, history, [job]) == ScoreOne(engine, live, history, Request(job.env, job.values))
  {
    var requests := Built([job]);
    assert ScoreFirst(engine, live, history, requests, 0) == Scored(history, Success([]));
    assert requests[0] == Request(job.env, job.values);
    var y := ScoreOne(engine, live, history, requests[0]);
    if y.outcome.Success? {
      assert [] + y.outcome.value == y.outcome.value;
    }
  }

  function JobsOfMap(m: map<Uuid.Uuid, seq<Value>>, order: seq<Uuid.Uuid>): (r: seq<Job>)
    requires forall i :: 0 <= i < |order| ==> order[i] in m
    ensures |r| == |order|
    ensures forall i :: 0 <= i < |order| ==> r[i] == Job(EnvironmentName(order[i]), m[order[i]])
  {
    seq(|order|, i requires 0 <= i < |order| => Job(EnvironmentName(order[i]), m[order[i]]))
  }

  function JobsOfRows(id: Uuid.Uuid, rows: seq<seq<Value>>): (r: seq<Job>)
    ensures |r| == |rows|
    ensures forall i :: 0 <= i < |rows| ==> r[i] == Job(EnvironmentName(id), rows[i])
  {
    seq(|rows|, i requires 0 <= i < |rows| => Job(EnvironmentName(id), rows[i]))
  }

  /** The map built from keys and results taken pairwise, later keys overwriting earlier ones. */
  function Pairs(keys: seq<Uuid.Uuid>, results: seq<Option<seq<real>>>): (r: map<Uuid.Uuid, Option<seq<real>>>)
    requires |keys| == |results|
    ensures forall u :: u in r <==> u in keys
    decreases |keys|
  {
    if keys == [] then map[]
    else
      var n := |keys| - 1;
      assert forall u :: u in keys <==> u in keys[..n] || u == keys[n];
      Pairs(keys[..n], results[..n])[keys[n] := results[n]]
  }

  /** With distinct keys, each key is mapped to its own result. */
  lemma {:induction false} PairsAt(keys: seq<Uuid.Uuid>, results: seq<Option<seq<real>>>, i: nat)
    requires |keys| == |results| && i < |keys|
    requires forall a, b :: 0 <= a < b < |keys| ==> keys[a] != keys[b]
    ensures Pairs(keys, results)[keys[i]] == results[i]
    decreases |keys|
  {
    var n := |keys| - 1;
    var pk, pr := keys[..n], results[..n];
    assert Pairs(keys, results) == Pairs(pk, pr)[keys[n] := results[n]];
    if i < n {
      forall a, b | 0 <= a < b < |pk| ensures pk[a] != pk[b] {
        assert pk[a] == keys[a] && pk[b] == keys[b];
      }
      PairsAt(pk, pr, i);
      assert pk[i] == keys[i] && pr[i] == results[i];
      assert keys[i] != keys[n];
    }
  }

  /** When the order lists the map's keys, the scores are keyed by exactly the map's keys, each with its own result. */
  lemma ScoreMapKeys(m: map<Uuid.Uuid, seq<Value>>, order: seq<Uuid.Uuid>, results: seq<Option<seq<real>>>)
    requires |order| == |results|
    requires forall a, b :: 0 <= a < b < |order| ==> order[a] != order[b]
    requires forall i :: 0 <= i < |order| ==> order[i] in m
    requires forall u :: u in m ==> u in order
    ensures Pairs(order, results).Keys == m.Keys
    ensures forall i :: 0 <= i < |order| ==> Pairs(order, results)[order[i]] == results[i]
  {
    forall i | 0 <= i < |order| ensures Pairs(order, results)[order[i]] == results[i] {
      PairsAt(order, results, i);
    }
  }

  /** Pairing one more key with one more result overwrites that key alone. */
  lemma PairsNext(keys: seq<Uuid.Uuid>, results: seq<Option<seq<real>>>, i: nat, x: Option<seq<real>>)
    requires i < |keys| && |results| == i
    ensures Pairs(keys[..i + 1], results + [x]) == Pairs(keys[..i], results)[keys[i] := x]
  {
    assert keys[..i + 1][..i] == keys[..i];
    assert (results + [x])[..i] == results;
  }

  // ---------------------------------------------------------------------------------------
  // Building a model's namespace (addOrUpdate)

  /** The library loads of the "libraries" property: one per comma-separated name, trailing empty names dropped. */
  function LibrarySteps(cfg: ModelConfig): (r: seq<Step>)
    ensures Property(cfg, Config.Libraries).None? ==> r == []
  {
    match Property(cfg, Config.Libraries)
    case None => []
    case Some(libs) =>
      var names := SplitDiscardingTrailing(",", libs);
      seq(|names|, i requires 0 <= i < |names| => Send("library(" + names[i] + ")"))
  }

  /** The program that creates the model's environment and loads the model file into it. */
  function EnvironmentProgram(env: string, model: string): string {
    env + " <- new.env()\n" + env + "$modelname <- load (file='" + model + "', envir=" + env + ")\n"
  }

  /** The attribute list without the element at position i. */
  function RemoveAt(xs: seq<Attribute>, i: nat): (r: seq<Attribute>)
    requires i < |xs|
    ensures |r| == |xs| - 1
    ensures forall j :: 0 <= j < i ==> r[j] == xs[j]
    ensures forall j :: i <= j < |r| ==> r[j] == xs[j + 1]
  {
    xs[..i] + xs[i + 1..]
  }

  /** The attributes without the class attribute, or why the class index cannot be used. */
  function WithoutClass(cfg: ModelConfig): (r: Result<seq<Attribute>>)
    ensures r.Success? <==> IntProperty(cfg, Config.ClassIndex).Success? &&
                              0 <= IntProperty(cfg, Config.ClassIndex).value < |cfg.attributes|
    ensures r.Success? ==> r.value == RemoveAt(cfg.attributes, IntProperty(cfg, Config.ClassIndex).value)
  {
    match IntProperty(cfg, Config.ClassIndex)
    case Failure(e) => Failure(e)
    case Success(i) =>
      if 0 <= i < |cfg.attributes| then Success(RemoveAt(cfg.attributes, i))
      else Failure(IndexOutOfBounds(i, |cfg.attributes|))
  }

  /** The scoring function as a step: its text, or the error raised instead of evaluating it. */
  function ScoringStep(env: string, attrs: seq<Attribute>): Step {
    match ScoringFunction(env, attrs, ExtractCategoricals(attrs))
    case Success(t) => Send(t)
    case Failure(e) => Abort(e)
  }

  /** The column names are assigned, then the scoring function is defined. */
  function ColumnSteps(env: string, attrs: seq<Attribute>, name: string): seq<Step> {
    if attrs == [] || !Named(attrs) then [Abort(IndexOutOfBounds(0, 0))]
    else [Send(StringListProgram(env, name, RNames(attrs))), ScoringStep(env, attrs)]
  }

  /** The steps up to and including the creation of the environment. */
  function LoadSteps(env: string, model: Option<string>, cfg: ModelConfig): seq<Step> {
    LibrarySteps(cfg) + [EnvironmentStep(env, model)]
  }

  /** The creation of the environment; without a model file, getAbsolutePath dereferences null. */
  function EnvironmentStep(env: string, model: Option<string>): Step {
    if model.Some? then Send(EnvironmentProgram(env, model.value)) else Abort(NullReference("model"))
  }

  /** The column stage: the class index is checked first, and only a usable one leads on to the columns. */
  lemma ColumnStageRun(engine: Engine, live: bool, history: seq<string>, env: string, cfg: ModelConfig, name: string)
    ensures WithoutClass(cfg).Failure? ==>
              Execute(engine, live, history, ColumnStage(env, cfg, name)) == Exec(history, Failure(WithoutClass(cfg).error))
    ensures WithoutClass(cfg).Success? ==>
              Execute(engine, live, history, ColumnStage(env, cfg, name)) == Execute(engine, live, history, ColumnSteps(env, WithoutClass(cfg).value, name))
  {
    if WithoutClass(cfg).Failure? {
      ExecuteOne(engine, live, history, Abort(WithoutClass(cfg).error));
    }
  }

  /** The steps after the environment exists: the class attribute is removed and the columns set up. */
  function ColumnStage(env: string, cfg: ModelConfig, name: string): seq<Step> {
    match WithoutClass(cfg)
    case Failure(e) => [Abort(e)]
    case Success(attrs) => ColumnSteps(env, attrs, name)
  }

  /** Everything addOrUpdate evaluates, in order, for a record with the given id, model file and configuration. */
  function NamespaceSteps(id: Option<Uuid.Uuid>, model: Option<string>, cfg: ModelConfig, name: string): seq<Step> {
    if id.None? then [Abort(NullReference("id"))]
    else
      var env := EnvironmentName(id.value);
      LoadSteps(env, model, cfg) + ColumnStage(env, cfg, name)
  }

  /** addOrUpdate stage by stage: without an id nothing is sent; otherwise the load stage, then, if it succeeded, the column stage. */
  function Namespace(engine: Engine, live: bool, history: seq<string>, id: Option<Uuid.Uuid>, model: Option<string>, cfg: ModelConfig, name: string): Exec {
    if id.None? then Exec(history, Failure(NullReference("id")))
    else
      var env := EnvironmentName(id.value);
      var x := Execute(engine, live, history, LoadSteps(env, model, cfg));
      if x.outcome.Failure? then x else Execute(engine, live, x.delivered, ColumnStage(env, cfg, name))
  }

  /** The staged run is the run of the whole step list, in one go. */
  lemma NamespaceRun(engine: Engine, live: bool, history: seq<string>, id: Option<Uuid.Uuid>, model: Option<string>, cfg: ModelConfig, name: string)
    ensures Namespace(engine, live, history, id, model, cfg, name) == Execute(engine, live, history, NamespaceSteps(id, model, cfg, name))
  {
    if id.None? {
      ExecuteOne(engine, live, history, Abort(NullReference("id")));
    } else {
      var env := EnvironmentName(id.value);
      ExecuteAppend(engine, live, history, LoadSteps(env, model, cfg), ColumnStage(env, cfg, name));
    }
  }

  /** The record's configuration after addOrUpdate: the class attribute is gone once the environment was created. */
  function ConfigAfter(engine: Engine, live: bool, history: seq<string>, id: Option<Uuid.Uuid>, model: Option<string>, cfg: ModelConfig): ModelConfig {
    if id.Some? && Execute(engine, live, history, LoadSteps(EnvironmentName(id.value), model, cfg)).outcome.Success?
       && WithoutClass(cfg).Success?
    then cfg.(attributes := WithoutClass(cfg).value)
    else cfg
  }

  /** Loading succeeds on a live session only with a model file, and then sent the library loads and the environment creation. */
  lemma LoadStepsSuccess(engine: Engine, history: seq<string>, env: string, model: Option<string>, cfg: ModelConfig)
    requires Execute(engine, true, history, LoadSteps(env, model, cfg)).outcome.Success?
    ensures model.Some?
    ensures Execute(engine, true, history, LoadSteps(env, model, cfg)).delivered ==
              history + Programs(LibrarySteps(cfg)) + [EnvironmentProgram(env, model.value)]
  {
    var libs := LibrarySteps(cfg);
    var last := if model.Some? then Send(EnvironmentProgram(env, model.value)) else Abort(NullReference("model"));
    ExecuteAppend(engine, true, history, libs, [last]);
    var x := Execute(engine, true, history, libs);
    ExecuteOne(engine, true, x.delivered, last);
    SuccessDeliversAll(engine, history, libs);
  }

  /** An empty attribute list, or an attribute without a name, fails the column stage before anything is sent. */
  lemma ColumnStepsUnnamed(engine: Engine, live: bool, history: seq<string>, env: string, attrs: seq<Attribute>, name: string)
    requires attrs == [] || !Named(attrs)
    ensures Execute(engine, live, history, ColumnSteps(env, attrs, name)) == Exec(history, Failure(IndexOutOfBounds(0, 0)))
  {
    ExecuteOne(engine, live, history, Abort(IndexOutOfBounds(0, 0)));
  }

  /** With named attributes, the column stage evaluates the column names and, if that succeeds, goes on with the scoring function. */
  lemma ColumnStepsNamed(engine: Engine, live: bool, history: seq<string>, env: string, attrs: seq<Attribute>, name: string)
    requires attrs != [] && Named(attrs)
    ensures var p := StringListProgram(env, name, RNames(attrs));
            var a := Answer(engine, live, history, p);
            Execute(engine, live, history, ColumnSteps(env, attrs, name)) ==
              if a.Failure? then Exec(After(live, history, p), Failure(a.error))
              else Execute(engine, live, After(live, history, p), [ScoringStep(env, attrs)])
  {
    var assign := Send(StringListProgram(env, name, RNames(attrs)));
    var scoring := ScoringStep(env, attrs);
    assert ColumnSteps(env, attrs, name) == [assign] + [scoring];
    ExecuteAppend(engine, live, history, [assign], [scoring]);
    ExecuteOne(engine, live, history, assign);
  }

  /** An attribute of unknown type fails the column stage after the column names are sent. */
  lemma ColumnStepsUnknown(engine: Engine, live: bool, history: seq<string>, env: string, attrs: seq<Attribute>, name: string)
    requires attrs != [] && Named(attrs) && !Known(attrs)
    ensures Execute(engine, live, history, ColumnSteps(env, attrs, name)).outcome.Failure?
  {
    var assign := Send(StringListProgram(env, name, RNames(attrs)));
    var scoring := ScoringStep(env, attrs);
    assert ColumnSteps(env, attrs, name) == [assign] + [scoring];
    ExecuteAppend(engine, live, history, [assign], [scoring]);
    var x := Execute(engine, live, history, [assign]);
    if x.outcome.Success? {
      ExecuteOne(engine, live, x.delivered, scoring);
    }
  }

  /** The column stage succeeds only for a non-empty list of named attributes of known types. */
  lemma ColumnStepsShape(engine: Engine, live: bool, history: seq<string>, env: string, attrs: seq<Attribute>, name: string)
    requires Execute(engine, live, history, ColumnSteps(env, attrs, name)).outcome.Success?
    ensures attrs != [] && Named(attrs) && Known(attrs)
  {
    if attrs == [] || !Named(attrs) {
      ColumnStepsUnnamed(engine, live, history, env, attrs, name);
    } else if !Known(attrs) {
      ColumnStepsUnknown(engine, live, history, env, attrs, name);
    }
  }

  /** A column stage that succeeds on a live session sent the column names and then the scoring function. */
  lemma ColumnStepsSuccess(engine: Engine, history: seq<string>, env: string, attrs: seq<Attribute>, name: string)
    requires Execute(engine, true, history, ColumnSteps(env, attrs, name)).outcome.Success?
    ensures attrs != [] && Named(attrs) && Known(attrs)
    ensures Execute(engine, true, history, ColumnSteps(env, attrs, name)).delivered ==
              history + [StringListProgram(env, name, RNames(attrs)), ScoringText(env, attrs, ExtractCategoricals(attrs))]
  {
    ColumnStepsShape(engine, true, history, env, attrs, name);
    var steps := ColumnSteps(env, attrs, name);
    SuccessDeliversAll(engine, history, steps);
    var p := StringListProgram(env, name, RNames(attrs));
    var t := ScoringText(env, attrs, ExtractCategoricals(attrs));
    assert steps == [Send(p), Send(t)];
    ProgramsPair(p, t);
  }

  lemma ProgramsPair(p: string, t: string)
    ensures Programs([Send(p), Send(t)]) == [p, t]
  {
    assert [Send(p), Send(t)][..1] == [Send(p)];
    assert [Send(p)][..0] == [];
  }

  /**
   * A namespace build that succeeds on a live session sent exactly: the library loads, the
   * environment creation, the column names of every attribute but the class attribute, and
   * the scoring function over those attributes; and every attribute was numeric or categorical.
   */
  lemma NamespaceSuccess(engine: Engine, history: seq<string>, u: Uuid.Uuid, model: Option<string>, cfg: ModelConfig, name: string)
    requires Execute(engine, true, history, NamespaceSteps(Some(u), model, cfg, name)).outcome.Success?
    ensures model.Some? && WithoutClass(cfg).Success?
    ensures var attrs := WithoutClass(cfg).value;
            var env := EnvironmentName(u);
            |attrs| == |cfg.attributes| - 1 && attrs != [] && Named(attrs) && Known(attrs) &&
            Execute(engine, true, history, NamespaceSteps(Some(u), model, cfg, name)).delivered ==
              history + Programs(LibrarySteps(cfg)) +
              [EnvironmentProgram(env, model.value),
               StringListProgram(env, name, RNames(attrs)),
               ScoringText(env, attrs, ExtractCategoricals(attrs))]
  {
    var env := EnvironmentName(u);
    var load := LoadSteps(env, model, cfg);
    var stage := ColumnStage(env, cfg, name);
    ExecuteAppend(engine, true, history, load, stage);
    var x := Execute(engine, true, history, load);
    LoadStepsSuccess(engine, history, env, model, cfg);
    var attrs := WithoutClass(cfg).value;
    ColumnStepsSuccess(engine, x.delivered, env, attrs, name);
    Snoc3(history + Programs(LibrarySteps(cfg)), EnvironmentProgram(env, model.value),
          StringListProgram(env, name, RNames(attrs)), ScoringText(env, attrs, ExtractCategoricals(attrs)));
  }

  lemma Snoc3<T>(xs: seq<T>, a: T, b: T, c: T)
    ensures xs + [a] + [b, c] == xs + [a, b, c]
  {
  }

  /** The scorer of the models living in one Rserve session. */
  class RScorer {
    const rserve: FosRserve

    constructor (rserve: FosRserve)
      ensures this.rserve == rserve
    {
      this.rserve := rserve;
    }

    /** The body of score(List<UUID>, Object[]) for one model: the request is built, evaluated and its answer cast to double[]. */
    method ScoreJob(job: Job) returns (r: Result<Option<seq<real>>>)
      modifies rserve`sent
      ensures var x := ScoreOne(rserve.engine, rserve.Live(), old(rserve.sent), Request(job.env, job.values));
              rserve.sent == x.delivered &&
              (x.outcome.Failure? ==> r == Failure(x.outcome.error)) &&
              (x.outcome.Success? ==> r.Success? && x.outcome.value == [r.value])
    {
      var request := BuildRequest(job.env, job.values);
      if request.Failure? {
        return Failure(request.error);
      }
      var result := rserve.Eval(request.value);
      if result.Failure? {
        return Failure(result.error);
      }
      r := CastToDoubles(result.value);
    }

    /** One pass of score(List<UUID>, Object[])'s loop: model i scores the row, extending or ending the run. */
    method ScoreNext(ghost start: seq<string>, ghost live: bool, ghost requests: seq<Result<string>>, ghost i: nat,
                     ghost scores: seq<Option<seq<real>>>, job: Job) returns (one: Result<Option<seq<real>>>)
      requires i < |requests| && requests[i] == Request(job.env, job.values) && live == rserve.Live()
      requires ScoreFirst(rserve.engine, live, start, requests, i) == Scored(rserve.sent, Success(scores))
      modifies rserve`sent
      ensures one.Failure? ==> ScoreFirst(rserve.engine, live, start, requests, |requests|) == Scored(rserve.sent, Failure(one.error))
      ensures one.Success? ==> ScoreFirst(rserve.engine, live, start, requests, i + 1) == Scored(rserve.sent, Success(scores + [one.value]))
    {
      ScoreFirstNext(rserve.engine, live, start, requests, i, rserve.sent, scores);
      one := ScoreJob(job);
    }

    /** score(List<UUID>, Object[]): one request per model, one result per model, in model order. */
    method Score(ids: seq<Uuid.Uuid>, values: seq<Value>) returns (r: Result<seq<Option<seq<real>>>>)
      modifies rserve`sent
      ensures var x := ScoreJobs(rserve.engine, rserve.Live(), old(rserve.sent), Jobs(ids, values));
              r == x.outcome && rserve.sent == x.delivered
    {
      ghost var start := rserve.sent;
      ghost var live := rserve.Live();
      ghost var jobs := Jobs(ids, values);
      ghost var requests := Built(jobs);
      var scores: seq<Option<seq<real>>> := [];
      var i := 0;
      while i < |ids|
        invariant 0 <= i <= |ids| && live == rserve.Live()
        invariant ScoreFirst(rserve.engine, live, start, requests, i) == Scored(rserve.sent, Success(scores))
      {
        var job := Job(EnvironmentName(ids[i]), values);
        assert job == jobs[i];
        var one := ScoreNext(start, live, requests, i, scores, job);
        if one.Failure? {
          return Failure(one.error);
        }
        scores := scores + [one.value];
        i := i + 1;
      }
      r := Success(scores);
    }

    /** One model scoring one row through score(List<UUID>, Object[]), as one pass of the map and row loops. */
    method ScoreAlone(ghost start: seq<string>, ghost live: bool, ghost requests: seq<Result<string>>, ghost i: nat,
                      ghost results: seq<Option<seq<real>>>, u: Uuid.Uuid, values: seq<Value>)
      returns (one: Result<seq<Option<seq<real>>>>)
      requires i < |requests| && requests[i] == Request(EnvironmentName(u), values) && live == rserve.Live()
      requires ScoreFirst(rserve.engine, live, start, requests, i) == Scored(rserve.sent, Success(results))
      modifies rserve`sent
      ensures one.Failure? ==> ScoreFirst(rserve.engine, live, start, requests, |requests|) == Scored(rserve.sent, Failure(one.error))
      ensures one.Success? ==> |one.value| == 1
      ensures one.Success? ==> ScoreFirst(rserve.engine, live, start, requests, i + 1) == Scored(rserve.sent, Success(results + one.value))
    {
      var job := Job(EnvironmentName(u), values);
      assert Jobs([u], values) == [job];
      ScoreJobsSingle(rserve.engine, live, rserve.sent, job);
      ScoreFirstNext(rserve.engine, live, start, requests, i, rserve.sent, results);
      one := Score([u], values);
    }

    /**
     * score(Map<UUID, Object[]>): each model scores its own row, in the iteration order of
     * the map's keys (given as `order`), and the results are keyed by model.
     */
    method ScoreMap(m: map<Uuid.Uuid, seq<Value>>, order: seq<Uuid.Uuid>) returns (r: Result<map<Uuid.Uuid, Option<seq<real>>>>)
      requires forall i :: 0 <= i < |order| ==> order[i] in m
      modifies rserve`sent
      ensures var x := ScoreJobs(rserve.engine, rserve.Live(), old(rserve.sent), JobsOfMap(m, order));
              rserve.sent == x.delivered &&
              (x.outcome.Failure? ==> r == Failure(x.outcome.error)) &&
              (x.outcome.Success? ==> r == Success(Pairs(order, x.outcome.value)))
    {
      ghost var start := rserve.sent;
      ghost var live := rserve.Live();
      ghost var jobs := JobsOfMap(m, order);
      ghost var requests := Built(jobs);
      ghost var results: seq<Option<seq<real>>> := [];
      var scoreMap: map<Uuid.Uuid, Option<seq<real>>> := map[];
      var i := 0;
      while i < |order|
        invariant 0 <= i <= |order| && |results| == i && live == rserve.Live()
        invariant ScoreFirst(rserve.engine, live, start, requests, i) == Scored(rserve.sent, Success(results))
        invariant scoreMap == Pairs(order[..i], results)
      {
        var u := order[i];
        var one := ScoreAlone(start, live, requests, i, results, u, m[u]);
        if one.Failure? {
          return Failure(one.error);
        }
        PairsNext(order, results, i, one.value[0]);
        scoreMap := scoreMap[u := one.value[0]];
        results := results + one.value;
        i := i + 1;
      }
      assert order[..i] == order;
      r := Success(scoreMap);
    }

    /**
     * score(UUID, List<Object[]>) as written: every row is scored and its result dropped,
     * so a call that scores every row returns the empty list.
     */
    method ScoreRowsAsWritten(id: Uuid.Uuid, rows: seq<seq<Value>>) returns (r: Result<seq<Option<seq<real>>>>)
      modifies rserve`sent
      ensures var x := ScoreJobs(rserve.engine, rserve.Live(), old(rserve.sent), JobsOfRows(id, rows));
              rserve.sent == x.delivered &&
              (x.outcome.Failure? ==> r == Failure(x.outcome.error)) &&
              (x.outcome.Success? ==> r == Success([]))
    {
      ghost var start := rserve.sent;
      ghost var live := rserve.Live();
      ghost var jobs := JobsOfRows(id, rows);
      ghost var requests := Built(jobs);
      ghost var results: seq<Option<seq<real>>> := [];
      var scores: seq<Option<seq<real>>> := [];
      var i := 0;
      while i < |rows|
        invariant 0 <= i <= |rows| && live == rserve.Live()
        invariant ScoreFirst(rserve.engine, live, start, requests, i) == Scored(rserve.sent, Success(results))
        invariant scores == []
      {
        var one := ScoreAlone(start, live, requests, i, results, id, rows[i]);
        if one.Failure? {
          return Failure(one.error);
        }
        results := results + one.value;
        i := i + 1;
      }
      r := Success(scores);
    }

    /** score(UUID, List<Object[]>) collecting each row's result: one result per row, in row order. */
    method ScoreRows(id: Uuid.Uuid, rows: seq<seq<Value>>) returns (r: Result<seq<Option<seq<real>>>>)
      modifies rserve`sent
      ensures var x := ScoreJobs(rserve.engine, rserve.Live(), old(rserve.sent), JobsOfRows(id, rows));
              rserve.sent == x.delivered && r == x.outcome
    {
      ghost var start := rserve.sent;
      ghost var live := rserve.Live();
      ghost var jobs := JobsOfRows(id, rows);
      ghost var requests := Built(jobs);
      assert |requests| == |rows|;
      var scores: seq<Option<seq<real>>> := [];
      var i := 0;
      while i < |rows|
        invariant 0 <= i <= |rows| && live == rserve.Live()
        invariant ScoreFirst(rserve.engine, live, start, requests, i) == Scored(rserve.sent, Success(scores))
      {
        var one := ScoreAlone(start, live, requests, i, scores, id, rows[i]);
        if one.Failure? {
          return Failure(one.error);
        }
        scores := scores + one.value;
        i := i + 1;
      }
      r := Success(scores);
    }

    /**
     * addOrUpdate: creates the model's environment, loads its model file, removes the class
     * attribute from the record's attribute list in place, assigns the column names and
     * defines the scoring function; the first failure ends it.
     */
    method AddOrUpdate(rec: Config.RModelConfig) returns (r: Result<()>)
      modifies rserve`sent, rec`config
      ensures Exec(rserve.sent, r) == Namespace(rserve.engine, rserve.Live(), old(rserve.sent), rec.id, rec.model, old(rec.config),
                                                rserve.rVariableName("attributes"))
      ensures rec.config == ConfigAfter(rserve.engine, rserve.Live(), old(rserve.sent), rec.id, rec.model, old(rec.config))
    {
      ghost var live := rserve.Live();
      ghost var name := rserve.rVariableName("attributes");
      ghost var history := rserve.sent;
      ghost var cfg := rec.config;
      if rec.id.None? {
        return Failure(NullReference("id"));
      }
      var env := EnvironmentName(rec.id.value);
      var loaded := CreateEnvironment(env, rec.model, rec.config);
      ghost var x := Execute(rserve.engine, live, history, LoadSteps(env, rec.model, cfg));
      assert loaded == x.outcome && rserve.sent == x.delivered;
      if loaded.Failure? {
        return loaded;
      }
      r := ConfigureColumns(rec, env);
      assert Execute(rserve.engine, live, x.delivered, ColumnStage(env, cfg, name)) == Exec(rserve.sent, r);
      assert rec.config == ConfigAfter(rserve.engine, live, history, rec.id, rec.model, cfg);
    }

    /** The second half of addOrUpdate: the class attribute is removed in place, then the columns and the scoring function are set up. */
    method ConfigureColumns(rec: Config.RModelConfig, env: string) returns (r: Result<()>)
      modifies rserve`sent, rec`config
      ensures var x := Execute(rserve.engine, rserve.Live(), old(rserve.sent), ColumnStage(env, old(rec.config), rserve.rVariableName("attributes")));
              r == x.outcome && rserve.sent == x.delivered
      ensures var a := WithoutClass(old(rec.config));
              rec.config == if a.Success? then old(rec.config).(attributes := a.value) else old(rec.config)
    {
      ColumnStageRun(rserve.engine, rserve.Live(), rserve.sent, env, rec.config, rserve.rVariableName("attributes"));
      var attrs := WithoutClass(rec.config);
      if attrs.Failure? {
        return Failure(attrs.error);
      }
      rec.config := rec.config.(attributes := attrs.value);
      r := AssignColumns(env, attrs.value);
    }

    /** The library loads of a configuration, then the creation of the environment with the model file loaded into it. */
    method CreateEnvironment(env: string, model: Option<string>, cfg: ModelConfig) returns (r: Result<()>)
      modifies rserve`sent
      ensures var x := Execute(rserve.engine, rserve.Live(), old(rserve.sent), LoadSteps(env, model, cfg));
              r == x.outcome && rserve.sent == x.delivered
    {
      ExecuteAppend(rserve.engine, rserve.Live(), rserve.sent, LibrarySteps(cfg), [EnvironmentStep(env, model)]);
      var loaded := rserve.Run(LibrarySteps(cfg));
      if loaded.Failure? {
        return loaded;
      }
      ExecuteOne(rserve.engine, rserve.Live(), rserve.sent, EnvironmentStep(env, model));
      if model.None? {
        return Failure(NullReference("model"));
      }
      var created := rserve.Eval(EnvironmentProgram(env, model.value));
      r := if created.Success? then Success(()) else Failure(created.error);
    }

    /** The column names and the scoring function of an environment, once the class attribute is gone. */
    method AssignColumns(env: string, attrs: seq<Attribute>) returns (r: Result<()>)
      modifies rserve`sent
      ensures var x := Execute(rserve.engine, rserve.Live(), old(rserve.sent), ColumnSteps(env, attrs, rserve.rVariableName("attributes")));
              r == x.outcome && rserve.sent == x.delivered
    {
      ghost var name := rserve.rVariableName("attributes");
      if attrs == [] || !Named(attrs) {
        // the list access, or charAt(0) on an empty name, fails before anything is sent
        ColumnStepsUnnamed(rserve.engine, rserve.Live(), rserve.sent, env, attrs, name);
        return Failure(IndexOutOfBounds(0, 0));
      }
      ColumnStepsNamed(rserve.engine, rserve.Live(), rserve.sent, env, attrs, name);
      r := AssignNamedColumns(env, attrs);
    }

    /** The named columns are evaluated as a string list, then the scoring function is defined. */
    method AssignNamedColumns(env: string, attrs: seq<Attribute>) returns (r: Result<()>)
      requires attrs != [] && Named(attrs)
      modifies rserve`sent
      ensures var p := StringListProgram(env, rserve.rVariableName("attributes"), RNames(attrs));
              var a := Answer(rserve.engine, rserve.Live(), old(rserve.sent), p);
              Exec(rserve.sent, r) ==
                if a.Failure? then Exec(After(rserve.Live(), old(rserve.sent), p), Failure(a.error))
                else Execute(rserve.engine, rserve.Live(), After(rserve.Live(), old(rserve.sent), p), [ScoringStep(env, attrs)])
    {
      var listed := rserve.AssignStringList("attributes", env, RNames(attrs));
      if listed.Failure? {
        return Failure(listed.error);
      }
      r := DefineScoringFunction(env, attrs);
    }

    /** The scoring function of an environment is generated and evaluated; an unknown attribute type fails before the eval. */
    method DefineScoringFunction(env: string, attrs: seq<Attribute>) returns (r: Result<()>)
      modifies rserve`sent
      ensures var x := Execute(rserve.engine, rserve.Live(), old(rserve.sent), [ScoringStep(env, attrs)]);
              r == x.outcome && rserve.sent == x.delivered
    {
      ExecuteOne(rserve.engine, rserve.Live(), rserve.sent, ScoringStep(env, attrs));
      var text := GenerateScoringFunction(env, attrs, ExtractCategoricals(attrs));
      if text.Failure? {
        return Failure(text.error);
      }
      var defined := rserve.Eval(text.value);
      r := if defined.Success? then Success(()) else Failure(defined.error);
    }

    /** removeModel: drops the model's environment. */
    method RemoveModel(id: Uuid.Uuid) returns (r: Result<()>)
      modifies rserve`sent
      ensures var x := Execute(rserve.engine, rserve.Live(), old(rserve.sent), [Send(RemoveProgram(id))]);
              r == x.outcome && rserve.sent == x.delivered
    {
      ExecuteOne(rserve.engine, rserve.Live(), rserve.sent, Send(RemoveProgram(id)));
      var a := rserve.Eval("rm(" + EnvironmentName(id) + ")");
      r := if a.Success? then Success(()) else Failure(a.error);
    }
  }

  /** The program that removes a model's environment. */
  function RemoveProgram(id: Uuid.Uuid): (r: string)
    ensures |r| == |EnvironmentName(id)| + 4 && r[..3] == "rm(" && r[3..|r| - 1] == EnvironmentName(id) && r[|r| - 1] == ')'
  {
    "rm(" + EnvironmentName(id) + ")"
  }

  /**
   * As written, scoring a list of rows reports no row: whenever every row is scored, the run
   * holds one result per row, while the call returns the empty list.
   */
  lemma ScoreRowsDropsResults(engine: Engine, history: seq<string>, id: Uuid.Uuid, rows: seq<seq<Value>>)
    requires ScoreJobs(engine, true, history, JobsOfRows(id, rows)).outcome.Success?
    ensures |ScoreJobs(engine, true, history, JobsOfRows(id, rows)).outcome.value| == |rows|
  {
    ScoreJobsDelivers(engine, history, JobsOfRows(id, rows));
  }
}
